// vtek::Model (src/vtek_models.cpp): an Assimp scene is walked node by node,
// the reached meshes' positions (and normals, when asked for) are gathered
// into the model, GPU buffers are made from them, and the CPU copies are
// dropped. The Assimp scene is an input value; buffer creation and upload
// are Vulkan/VMA calls whose outcomes are inputs.
module Models {
  import opened Wrappers

  /** glm::vec3. */
  datatype Vec3 = Vec3(x: real, y: real, z: real)

  /** sizeof(glm::vec3) in bytes. */
  const VEC3_SIZE: nat := 12

  /**
   * aiMesh: its vertex positions and its normals; `hasNormals` is
   * aiMesh::HasNormals.
   */
  datatype Mesh = Mesh(vertices: seq<Vec3>, normals: seq<Vec3>, hasNormals: bool)

  /** aiNode: indices into the scene's meshes and the child nodes. */
  datatype Node = Node(meshes: seq<nat>, children: seq<Node>)

  /** aiScene: the meshes, the root node (maybe null) and whether it is incomplete. */
  datatype Scene = Scene(meshes: seq<Mesh>, root: Option<Node>, incomplete: bool)

  /** What Assimp guarantees of a mesh: a normal per vertex whenever it has normals. */
  predicate WellFormedMesh(m: Mesh)
  {
    m.hasNormals ==> |m.normals| == |m.vertices|
  }

  predicate WellFormedMeshes(meshes: seq<Mesh>)
  {
    forall k :: 0 <= k < |meshes| ==> WellFormedMesh(meshes[k])
  }

  /** What Assimp guarantees of a node: every mesh index names a mesh of the scene. */
  predicate ValidNode(meshCount: nat, node: Node)
    decreases node
  {
    (forall k :: 0 <= k < |node.meshes| ==> node.meshes[k] < meshCount) &&
    (forall k :: 0 <= k < |node.children| ==> ValidNode(meshCount, node.children[k]))
  }

  /** Which array of a mesh the traversal gathers: positions, or normals. */
  datatype Part = Positions | Normals(loadNormals: bool)

  /**
   * The entries one mesh contributes: all its positions; its normals only
   * when it has normals and normals were asked for.
   */
  function MeshPart(m: Mesh, part: Part): seq<Vec3>
  {
    match part
    case Positions => m.vertices
    case Normals(loadNormals) => if m.hasNormals && loadNormals then m.normals else []
  }

  /**
   * The contributions of the listed meshes, in index order (an index with
   * no mesh behind it, which a well-formed scene does not have, contributes
   * nothing).
   */
  function MeshListCollect(meshes: seq<Mesh>, ids: seq<nat>, part: Part): seq<Vec3>
  {
    if ids == [] then []
    else
      var last := ids[|ids| - 1];
      MeshListCollect(meshes, ids[..|ids| - 1], part) +
        (if last < |meshes| then MeshPart(meshes[last], part) else [])
  }

  /**
   * The pre-order gathering of load_scene_node: a node's own meshes in
   * index order, then each child's subtree in order.
   */
  function NodeCollect(meshes: seq<Mesh>, node: Node, part: Part): seq<Vec3>
    decreases node
  {
    MeshListCollect(meshes, node.meshes, part) + ChildrenCollect(meshes, node.children, part)
  }

  function ChildrenCollect(meshes: seq<Mesh>, children: seq<Node>, part: Part): seq<Vec3>
    decreases children
  {
    if children == [] then []
    else
      var n := |children| - 1;
      ChildrenCollect(meshes, children[..n], part) + NodeCollect(meshes, children[n], part)
  }

  /** Taking one more listed mesh appends its contribution. */
  lemma MeshListStep(meshes: seq<Mesh>, ids: seq<nat>, i: nat, part: Part)
    requires forall k :: 0 <= k < |ids| ==> ids[k] < |meshes|
    requires i < |ids|
    ensures MeshListCollect(meshes, ids[..i + 1], part) ==
      MeshListCollect(meshes, ids[..i], part) + MeshPart(meshes[ids[i]], part)
  {
    assert ids[..i + 1][..i] == ids[..i];
  }

  /** Every mesh of the scene has normals. */
  predicate AllHaveNormals(meshes: seq<Mesh>)
  {
    forall k :: 0 <= k < |meshes| ==> meshes[k].hasNormals
  }

  /**
   * A list of meshes never yields more normals than positions, and as many
   * when every mesh has normals and normals were asked for.
   */
  lemma {:induction false} MeshListLengths(meshes: seq<Mesh>, ids: seq<nat>, loadNormals: bool)
    requires WellFormedMeshes(meshes)
    requires forall k :: 0 <= k < |ids| ==> ids[k] < |meshes|
    ensures |MeshListCollect(meshes, ids, Normals(loadNormals))| <=
      |MeshListCollect(meshes, ids, Positions)|
    ensures AllHaveNormals(meshes) && loadNormals ==>
      |MeshListCollect(meshes, ids, Normals(loadNormals))| ==
      |MeshListCollect(meshes, ids, Positions)|
  {
    if ids != [] {
      MeshListLengths(meshes, ids[..|ids| - 1], loadNormals);
      assert WellFormedMesh(meshes[ids[|ids| - 1]]);
    }
  }

  /**
   * The traversal never gathers more normals than positions
   * (normals.size() <= vertices.size()), and exactly as many when every mesh
   * has normals and normals were asked for.
   */
  lemma {:induction false} NodeLengths(meshes: seq<Mesh>, node: Node, loadNormals: bool)
    requires WellFormedMeshes(meshes) && ValidNode(|meshes|, node)
    ensures |NodeCollect(meshes, node, Normals(loadNormals))| <= |NodeCollect(meshes, node, Positions)|
    ensures AllHaveNormals(meshes) && loadNormals ==>
      |NodeCollect(meshes, node, Normals(loadNormals))| == |NodeCollect(meshes, node, Positions)|
    decreases node
  {
    MeshListLengths(meshes, node.meshes, loadNormals);
    ChildrenLengths(meshes, node.children, loadNormals);
  }

  lemma {:induction false} ChildrenLengths(meshes: seq<Mesh>, children: seq<Node>, loadNormals: bool)
    requires WellFormedMeshes(meshes)
    requires forall k :: 0 <= k < |children| ==> ValidNode(|meshes|, children[k])
    ensures |ChildrenCollect(meshes, children, Normals(loadNormals))| <=
      |ChildrenCollect(meshes, children, Positions)|
    ensures AllHaveNormals(meshes) && loadNormals ==>
      |ChildrenCollect(meshes, children, Normals(loadNormals))| ==
      |ChildrenCollect(meshes, children, Positions)|
    decreases children
  {
    if children != [] {
      var n := |children| - 1;
      ChildrenLengths(meshes, children[..n], loadNormals);
      NodeLengths(meshes, children[n], loadNormals);
    }
  }

  /**
   * The model: the gathered CPU arrays, the vertex count, and the two
   * buffers (None for a null pointer).
   */
  class Model {
    var vertices: seq<Vec3>
    var normals: seq<Vec3>
    var numVertices: nat
    var vertexBuffer: Option<nat>
    var normalBuffer: Option<nat>

    /** `new vtek::Model`: empty arrays, no vertices, no buffers. */
    constructor()
      ensures vertices == [] && normals == [] && numVertices == 0
      ensures vertexBuffer == None && normalBuffer == None
    {
      vertices := [];
      normals := [];
      numVertices := 0;
      vertexBuffer := None;
      normalBuffer := None;
    }

    /** model_get_vertex_buffer. */
    function VertexBuffer(): (r: Option<nat>)
      reads this
      ensures r == vertexBuffer
    {
      vertexBuffer
    }

    /** model_get_normal_buffer. */
    function NormalBuffer(): (r: Option<nat>)
      reads this
      ensures r == normalBuffer
    {
      normalBuffer
    }

    /** model_get_num_vertices. */
    function NumVertices(): (r: nat)
      reads this
      ensures r == numVertices
    {
      numVertices
    }
  }

  /**
   * load_scene_mesh: each vertex position is appended, and with it its
   * normal when the mesh has normals and normals were asked for.
   */
  method LoadSceneMesh(model: Model, mesh: Mesh, loadNormals: bool)
    requires WellFormedMesh(mesh)
    modifies model
    ensures model.vertices == old(model.vertices) + MeshPart(mesh, Positions)
    ensures model.normals == old(model.normals) + MeshPart(mesh, Normals(loadNormals))
    ensures model.numVertices == old(model.numVertices)
    ensures model.vertexBuffer == old(model.vertexBuffer)
    ensures model.normalBuffer == old(model.normalBuffer)
  {
    var normals := mesh.hasNormals && loadNormals;
    var i := 0;
    while i < |mesh.vertices|
      invariant 0 <= i <= |mesh.vertices|
      invariant model.vertices == old(model.vertices) + mesh.vertices[..i]
      invariant model.normals == old(model.normals) + (if normals then mesh.normals[..i] else [])
      invariant model.numVertices == old(model.numVertices)
      invariant model.vertexBuffer == old(model.vertexBuffer)
      invariant model.normalBuffer == old(model.normalBuffer)
    {
      assert mesh.vertices[..i + 1] == mesh.vertices[..i] + [mesh.vertices[i]];
      model.vertices := model.vertices + [mesh.vertices[i]];
      if normals {
        assert mesh.normals[..i + 1] == mesh.normals[..i] + [mesh.normals[i]];
        model.normals := model.normals + [mesh.normals[i]];
      }
      i := i + 1;
    }
    assert mesh.vertices[..i] == mesh.vertices;
    assert normals ==> mesh.normals[..i] == mesh.normals;
  }

  /**
   * The first loop of load_scene_node: the listed meshes, in index order.
   */
  method LoadNodeMeshes(model: Model, meshes: seq<Mesh>, ids: seq<nat>, loadNormals: bool)
    requires WellFormedMeshes(meshes)
    requires forall k :: 0 <= k < |ids| ==> ids[k] < |meshes|
    modifies model
    ensures model.vertices == old(model.vertices) + MeshListCollect(meshes, ids, Positions)
    ensures model.normals == old(model.normals) + MeshListCollect(meshes, ids, Normals(loadNormals))
    ensures model.numVertices == old(model.numVertices)
    ensures model.vertexBuffer == old(model.vertexBuffer)
    ensures model.normalBuffer == old(model.normalBuffer)
  {
    ghost var v0, n0 := model.vertices, model.normals;
    var i := 0;
    while i < |ids|
      invariant 0 <= i <= |ids|
      invariant model.vertices == v0 + MeshListCollect(meshes, ids[..i], Positions)
      invariant model.normals == n0 + MeshListCollect(meshes, ids[..i], Normals(loadNormals))
      invariant model.numVertices == old(model.numVertices)
      invariant model.vertexBuffer == old(model.vertexBuffer)
      invariant model.normalBuffer == old(model.normalBuffer)
    {
      LoadStep(model, meshes, ids, i, loadNormals, v0, n0);
      i := i + 1;
    }
    assert ids[..i] == ids;
  }

  /** One iteration of that loop: the i-th listed mesh is loaded. */
  method LoadStep(model: Model, meshes: seq<Mesh>, ids: seq<nat>, i: nat, loadNormals: bool,
                  ghost v0: seq<Vec3>, ghost n0: seq<Vec3>)
    requires WellFormedMeshes(meshes)
    requires forall k :: 0 <= k < |ids| ==> ids[k] < |meshes|
    requires i < |ids|
    requires model.vertices == v0 + MeshListCollect(meshes, ids[..i], Positions)
    requires model.normals == n0 + MeshListCollect(meshes, ids[..i], Normals(loadNormals))
    modifies model
    ensures model.vertices == v0 + MeshListCollect(meshes, ids[..i + 1], Positions)
    ensures model.normals == n0 + MeshListCollect(meshes, ids[..i + 1], Normals(loadNormals))
    ensures model.numVertices == old(model.numVertices)
    ensures model.vertexBuffer == old(model.vertexBuffer)
    ensures model.normalBuffer == old(model.normalBuffer)
  {
    var mesh := meshes[ids[i]];
    ghost var positions := MeshListCollect(meshes, ids[..i], Positions);
    ghost var normals := MeshListCollect(meshes, ids[..i], Normals(loadNormals));
    assert WellFormedMesh(mesh);
    LoadSceneMesh(model, mesh, loadNormals);
    MeshListStep(meshes, ids, i, Positions);
    MeshListStep(meshes, ids, i, Normals(loadNormals));
    assert v0 + positions + MeshPart(mesh, Positions) == v0 + (positions + MeshPart(mesh, Positions));
    assert n0 + normals + MeshPart(mesh, Normals(loadNormals)) ==
      n0 + (normals + MeshPart(mesh, Normals(loadNormals)));
  }

  /**
   * The second loop of load_scene_node: each child's subtree, in order.
   */
  method LoadNodeChildren(model: Model, meshes: seq<Mesh>, children: seq<Node>, loadNormals: bool)
    requires WellFormedMeshes(meshes)
    requires forall k :: 0 <= k < |children| ==> ValidNode(|meshes|, children[k])
    modifies model
    ensures model.vertices == old(model.vertices) + ChildrenCollect(meshes, children, Positions)
    ensures model.normals ==
      old(model.normals) + ChildrenCollect(meshes, children, Normals(loadNormals))
    ensures model.numVertices == old(model.numVertices)
    ensures model.vertexBuffer == old(model.vertexBuffer)
    ensures model.normalBuffer == old(model.normalBuffer)
    decreases children
  {
    var j := 0;
    while j < |children|
      invariant 0 <= j <= |children|
      invariant model.vertices == old(model.vertices) + ChildrenCollect(meshes, children[..j], Positions)
      invariant model.normals ==
        old(model.normals) + ChildrenCollect(meshes, children[..j], Normals(loadNormals))
      invariant model.numVertices == old(model.numVertices)
      invariant model.vertexBuffer == old(model.vertexBuffer)
      invariant model.normalBuffer == old(model.normalBuffer)
    {
      assert children[..j + 1][..j] == children[..j];
      LoadSceneNode(model, meshes, children[j], loadNormals);
      j := j + 1;
    }
    assert children[..j] == children;
  }

  /**
   * load_scene_node: the node's meshes in index order, then every child
   * recursively, appended to the model in pre-order.
   */
  method LoadSceneNode(model: Model, meshes: seq<Mesh>, node: Node, loadNormals: bool)
    requires WellFormedMeshes(meshes) && ValidNode(|meshes|, node)
    modifies model
    ensures model.vertices == old(model.vertices) + NodeCollect(meshes, node, Positions)
    ensures model.normals == old(model.normals) + NodeCollect(meshes, node, Normals(loadNormals))
    ensures model.numVertices == old(model.numVertices)
    ensures model.vertexBuffer == old(model.vertexBuffer)
    ensures model.normalBuffer == old(model.normalBuffer)
    decreases node
  {
    LoadNodeMeshes(model, meshes, node.meshes, loadNormals);
    LoadNodeChildren(model, meshes, node.children, loadNormals);
  }
  /**
   * create_buffers, given what buffer creation and the uploads return. The
   * vertex buffer is made and filled first; a normal buffer is attempted
   * only when normals were asked for and some were gathered. Both uploads
   * use the region of the positions: `regionSize` bytes, sizeof(vec3) per
   * position.
   */
  method CreateBuffers(model: Model, loadNormals: bool, vertexBuffer: Option<nat>,
                       vertexWriteOk: bool, normalBuffer: Option<nat>, normalWriteOk: bool)
    returns (ok: bool, normalAttempted: bool, regionSize: nat)
    modifies model
    ensures regionSize == VEC3_SIZE * |model.vertices|
    ensures normalAttempted <==>
      vertexBuffer.Some? && vertexWriteOk && loadNormals && |model.normals| > 0
    ensures ok <==> (vertexBuffer.Some? && vertexWriteOk &&
      (loadNormals && |model.normals| > 0 ==> normalBuffer.Some? && normalWriteOk))
    ensures model.vertexBuffer == vertexBuffer
    ensures normalAttempted ==> model.normalBuffer == normalBuffer
    ensures !normalAttempted ==> model.normalBuffer == old(model.normalBuffer)
    ensures model.vertices == old(model.vertices) && model.normals == old(model.normals)
    ensures model.numVertices == old(model.numVertices)
  {
    normalAttempted := false;
    regionSize := VEC3_SIZE * |model.vertices|;
    model.vertexBuffer := vertexBuffer;
    if model.vertexBuffer.None? {
      return false, normalAttempted, regionSize;
    }
    if !vertexWriteOk {
      return false, normalAttempted, regionSize;
    }
    if loadNormals && |model.normals| > 0 {
      normalAttempted := true;
      model.normalBuffer := normalBuffer;
      if model.normalBuffer.None? {
        return false, normalAttempted, regionSize;
      }
      if !normalWriteOk {
        return false, normalAttempted, regionSize;
      }
    }
    ok := true;
  }

  /** destroy_model_buffers: both buffer pointers end up null. */
  method DestroyModelBuffers(model: Model)
    modifies model
    ensures model.vertexBuffer == None && model.normalBuffer == None
    ensures model.vertices == old(model.vertices) && model.normals == old(model.normals)
    ensures model.numVertices == old(model.numVertices)
  {
    if model.vertexBuffer.Some? {
      model.vertexBuffer := None;
    }
    if model.normalBuffer.Some? {
      model.normalBuffer := None;
    }
  }

  /** What Assimp guarantees of a scene it returns. */
  predicate WellFormedScene(scene: Scene)
  {
    WellFormedMeshes(scene.meshes) && (scene.root.Some? ==> ValidNode(|scene.meshes|, scene.root.value))
  }

  /** model_load_obj rejects the import: no file, no scene, no root node, or an incomplete scene. */
  predicate ImportRejected(fileExists: bool, scene: Option<Scene>)
  {
    !fileExists || scene.None? || scene.value.root.None? || scene.value.incomplete
  }

  /**
   * model_load_obj, given whether the file exists, the scene Assimp reads
   * and the outcomes of buffer creation and upload. A rejected import or a
   * failed buffer step gives no model; otherwise the model's vertex count is
   * the number of positions gathered from the whole tree (as a uint32_t),
   * it holds the vertex buffer, it holds the normal buffer exactly when
   * normals were asked for and some were gathered, and its CPU arrays are
   * emptied.
   */
  method ModelLoadObj(loadNormals: bool, fileExists: bool, scene: Option<Scene>,
                      vertexBuffer: Option<nat>, vertexWriteOk: bool,
                      normalBuffer: Option<nat>, normalWriteOk: bool)
    returns (model: Model?)
    requires scene.Some? ==> WellFormedScene(scene.value)
    ensures ImportRejected(fileExists, scene) ==> model == null
    ensures model != null ==>
      fresh(model) && model.vertices == [] && model.normals == [] &&
      model.numVertices == U32(|NodeCollect(scene.value.meshes, scene.value.root.value, Positions)|) &&
      model.vertexBuffer == vertexBuffer && vertexBuffer.Some?
    ensures model != null ==>
      model.normalBuffer ==
        (if loadNormals &&
            |NodeCollect(scene.value.meshes, scene.value.root.value, Normals(loadNormals))| > 0
         then normalBuffer else None)
    ensures !ImportRejected(fileExists, scene) ==>
      (model != null <==> (vertexBuffer.Some? && vertexWriteOk &&
        (loadNormals &&
         |NodeCollect(scene.value.meshes, scene.value.root.value, Normals(loadNormals))| > 0 ==>
           normalBuffer.Some? && normalWriteOk)))
  {
    if !fileExists {
      return null;
    }
    if scene.None? || scene.value.root.None? || scene.value.incomplete {
      return null;
    }
    var m := new Model();
    LoadSceneNode(m, scene.value.meshes, scene.value.root.value, loadNormals);
    var ok, _, _ := CreateBuffers(m, loadNormals, vertexBuffer, vertexWriteOk,
                                  normalBuffer, normalWriteOk);
    if !ok {
      DestroyModelBuffers(m);
      return null;
    }
    m.numVertices := U32(|m.vertices|);
    m.vertices := [];
    m.normals := [];
    model := m;
  }

  /** model_destroy: nothing for a null model; otherwise its buffers are released. */
  method ModelDestroy(model: Model?)
    modifies model
    ensures model != null ==> model.vertexBuffer == None && model.normalBuffer == None
  {
    if model == null {
      return;
    }
    DestroyModelBuffers(model);
  }

  /**
   * The bytes the normal upload reads from the normals array: create_buffers
   * reuses the positions' region, sizeof(vec3) per gathered position.
   */
  function NormalUploadSizeAsWritten(vertexCount: nat, normalCount: nat): nat
  {
    VEC3_SIZE * vertexCount
  }

  /**
   * A scene with one mesh that has normals and one that does not, loaded with
   * normals: six positions but only three normals are gathered, and the
   * normal upload reads 72 bytes from a 36-byte array.
   */
  lemma NormalUploadOverreads()
    ensures var p := Vec3(0.0, 0.0, 0.0);
      var meshes := [Mesh([p, p, p], [p, p, p], true), Mesh([p, p, p], [], false)];
      var root := Node([0, 1], []);
      var positions := NodeCollect(meshes, root, Positions);
      var normals := NodeCollect(meshes, root, Normals(true));
      |positions| == 6 && |normals| == 3 &&
      NormalUploadSizeAsWritten(|positions|, |normals|) > VEC3_SIZE * |normals|
  {
    var p := Vec3(0.0, 0.0, 0.0);
    var meshes := [Mesh([p, p, p], [p, p, p], true), Mesh([p, p, p], [], false)];
    var root := Node([0, 1], []);
    assert root.meshes[..1] == [0];
    assert MeshListCollect(meshes, [0], Positions) == [p, p, p];
    assert MeshListCollect(meshes, [0], Normals(true)) == [p, p, p];
  }

  /** The size the normal upload evidently means: the normals gathered. */
  function NormalUploadSize(vertexCount: nat, normalCount: nat): nat
  {
    VEC3_SIZE * normalCount
  }

  /**
   * For every well-formed scene the corrected upload stays within the
   * normals array, and it agrees with the positions' region exactly when
   * the two arrays have the same length, as they do when every mesh has
   * normals.
   */
  lemma NormalUploadSizeFits(meshes: seq<Mesh>, root: Node, loadNormals: bool)
    requires WellFormedMeshes(meshes) && ValidNode(|meshes|, root)
    ensures var positions := NodeCollect(meshes, root, Positions);
      var normals := NodeCollect(meshes, root, Normals(loadNormals));
      NormalUploadSize(|positions|, |normals|) <= NormalUploadSizeAsWritten(|positions|, |normals|) &&
      (AllHaveNormals(meshes) && loadNormals ==>
        NormalUploadSize(|positions|, |normals|) == NormalUploadSizeAsWritten(|positions|, |normals|))
  {
    NodeLengths(meshes, root, loadNormals);
  }
}

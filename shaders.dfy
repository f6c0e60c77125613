// Shader stages (src/vtek_shaders.cpp, include/vtek/vtek_shaders.hpp): the
// tables from vtek's stage enumerations to VkShaderStageFlagBits.
module Shaders {

  /** vtek::ShaderStage, in declaration order; `UnlistedStage` is any other value. */
  datatype ShaderStage =
    | Vertex | TessellationControl | TessellationEval | Geometry | Fragment | Compute
    | Raygen | AnyHit | ClosestHit | Miss | Intersection | Callable
    | Task | Mesh | AllGraphics | All | UnlistedStage

  /** vtek::ShaderStageGraphics; `UnlistedGraphics` is any other value. */
  datatype ShaderStageGraphics =
    | GVertex | GTessellationControl | GTessellationEval | GGeometry | GFragment
    | UnlistedGraphics

  /** vtek::ShaderStageRayTracing; `UnlistedRayTracing` is any other value. */
  datatype ShaderStageRayTracing =
    | RRaygen | RAnyHit | RClosestHit | RMiss | RIntersection | RCallable
    | UnlistedRayTracing

  /** VkShaderStageFlagBits. */
  const VK_SHADER_STAGE_VERTEX_BIT: bv32 := 0x1
  const VK_SHADER_STAGE_TESSELLATION_CONTROL_BIT: bv32 := 0x2
  const VK_SHADER_STAGE_TESSELLATION_EVALUATION_BIT: bv32 := 0x4
  const VK_SHADER_STAGE_GEOMETRY_BIT: bv32 := 0x8
  const VK_SHADER_STAGE_FRAGMENT_BIT: bv32 := 0x10
  const VK_SHADER_STAGE_COMPUTE_BIT: bv32 := 0x20
  const VK_SHADER_STAGE_ALL_GRAPHICS: bv32 := 0x1F
  const VK_SHADER_STAGE_ALL: bv32 := 0x7FFF_FFFF
  const VK_SHADER_STAGE_RAYGEN_BIT_KHR: bv32 := 0x100
  const VK_SHADER_STAGE_ANY_HIT_BIT_KHR: bv32 := 0x200
  const VK_SHADER_STAGE_CLOSEST_HIT_BIT_KHR: bv32 := 0x400
  const VK_SHADER_STAGE_MISS_BIT_KHR: bv32 := 0x800
  const VK_SHADER_STAGE_INTERSECTION_BIT_KHR: bv32 := 0x1000
  const VK_SHADER_STAGE_CALLABLE_BIT_KHR: bv32 := 0x2000
  const VK_SHADER_STAGE_TASK_BIT_EXT: bv32 := 0x40
  const VK_SHADER_STAGE_MESH_BIT_EXT: bv32 := 0x80

  /** A flag value with exactly one bit set. */
  predicate SingleBit(f: bv32)
  {
    f != 0 && f & (f - 1) == 0
  }

  /**
   * get_shader_stage: each single stage maps to one flag bit, the two
   * aggregate stages to their masks, and any other value to 0; every result
   * lies within VK_SHADER_STAGE_ALL.
   */
  function GetShaderStage(stage: ShaderStage): (r: bv32)
    ensures r == 0 <==> stage.UnlistedStage?
    ensures !stage.UnlistedStage? && !stage.AllGraphics? && !stage.All? ==> SingleBit(r)
    ensures r & VK_SHADER_STAGE_ALL == r
  {
    match stage
    case Vertex => VK_SHADER_STAGE_VERTEX_BIT
    case TessellationControl => VK_SHADER_STAGE_TESSELLATION_CONTROL_BIT
    case TessellationEval => VK_SHADER_STAGE_TESSELLATION_EVALUATION_BIT
    case Geometry => VK_SHADER_STAGE_GEOMETRY_BIT
    case Fragment => VK_SHADER_STAGE_FRAGMENT_BIT
    case Compute => VK_SHADER_STAGE_COMPUTE_BIT
    case Raygen => VK_SHADER_STAGE_RAYGEN_BIT_KHR
    case AnyHit => VK_SHADER_STAGE_ANY_HIT_BIT_KHR
    case ClosestHit => VK_SHADER_STAGE_CLOSEST_HIT_BIT_KHR
    case Miss => VK_SHADER_STAGE_MISS_BIT_KHR
    case Intersection => VK_SHADER_STAGE_INTERSECTION_BIT_KHR
    case Callable => VK_SHADER_STAGE_CALLABLE_BIT_KHR
    case Task => VK_SHADER_STAGE_TASK_BIT_EXT
    case Mesh => VK_SHADER_STAGE_MESH_BIT_EXT
    case AllGraphics => VK_SHADER_STAGE_ALL_GRAPHICS
    case All => VK_SHADER_STAGE_ALL
    case UnlistedStage => 0
  }

  /**
   * get_shader_stage_graphics: a bit inside VK_SHADER_STAGE_ALL_GRAPHICS, 0
   * exactly for a value outside the enumeration.
   */
  function GetShaderStageGraphics(stage: ShaderStageGraphics): (r: bv32)
    ensures r & VK_SHADER_STAGE_ALL_GRAPHICS == r
    ensures r == 0 <==> stage.UnlistedGraphics?
  {
    match stage
    case GVertex => VK_SHADER_STAGE_VERTEX_BIT
    case GTessellationControl => VK_SHADER_STAGE_TESSELLATION_CONTROL_BIT
    case GTessellationEval => VK_SHADER_STAGE_TESSELLATION_EVALUATION_BIT
    case GGeometry => VK_SHADER_STAGE_GEOMETRY_BIT
    case GFragment => VK_SHADER_STAGE_FRAGMENT_BIT
    case UnlistedGraphics => 0
  }

  /**
   * get_shader_stage_ray_tracing: a bit outside VK_SHADER_STAGE_ALL_GRAPHICS,
   * 0 exactly for a value outside the enumeration.
   */
  function GetShaderStageRayTracing(stage: ShaderStageRayTracing): (r: bv32)
    ensures r & VK_SHADER_STAGE_ALL_GRAPHICS == 0
    ensures r == 0 <==> stage.UnlistedRayTracing?
  {
    match stage
    case RRaygen => VK_SHADER_STAGE_RAYGEN_BIT_KHR
    case RAnyHit => VK_SHADER_STAGE_ANY_HIT_BIT_KHR
    case RClosestHit => VK_SHADER_STAGE_CLOSEST_HIT_BIT_KHR
    case RMiss => VK_SHADER_STAGE_MISS_BIT_KHR
    case RIntersection => VK_SHADER_STAGE_INTERSECTION_BIT_KHR
    case RCallable => VK_SHADER_STAGE_CALLABLE_BIT_KHR
    case UnlistedRayTracing => 0
  }

  /** The general stage of the same name as a graphics stage. */
  function GraphicsAsStage(stage: ShaderStageGraphics): ShaderStage
  {
    match stage
    case GVertex => Vertex
    case GTessellationControl => TessellationControl
    case GTessellationEval => TessellationEval
    case GGeometry => Geometry
    case GFragment => Fragment
    case UnlistedGraphics => UnlistedStage
  }

  /** The general stage of the same name as a ray-tracing stage. */
  function RayTracingAsStage(stage: ShaderStageRayTracing): ShaderStage
  {
    match stage
    case RRaygen => Raygen
    case RAnyHit => AnyHit
    case RClosestHit => ClosestHit
    case RMiss => Miss
    case RIntersection => Intersection
    case RCallable => Callable
    case UnlistedRayTracing => UnlistedStage
  }

  /**
   * The three tables agree: a graphics or ray-tracing stage gets the same
   * bit from its own table as from get_shader_stage.
   */
  lemma TablesAgree(g: ShaderStageGraphics, r: ShaderStageRayTracing)
    ensures GetShaderStageGraphics(g) == GetShaderStage(GraphicsAsStage(g))
    ensures GetShaderStageRayTracing(r) == GetShaderStage(RayTracingAsStage(r))
  {
  }

  /**
   * Every listed graphics stage maps to a single bit inside
   * VK_SHADER_STAGE_ALL_GRAPHICS, different stages to different bits, and
   * an unlisted value to 0.
   */
  lemma GraphicsStageBits(a: ShaderStageGraphics, b: ShaderStageGraphics)
    ensures !a.UnlistedGraphics? ==>
      SingleBit(GetShaderStageGraphics(a)) &&
      GetShaderStageGraphics(a) & VK_SHADER_STAGE_ALL_GRAPHICS == GetShaderStageGraphics(a)
    ensures a.UnlistedGraphics? <==> GetShaderStageGraphics(a) == 0
    ensures !a.UnlistedGraphics? && !b.UnlistedGraphics? && a != b ==>
      GetShaderStageGraphics(a) & GetShaderStageGraphics(b) == 0
  {
  }

  /**
   * Every listed ray-tracing stage maps to a single bit outside
   * VK_SHADER_STAGE_ALL_GRAPHICS, different stages to different bits, and an
   * unlisted value to 0.
   */
  lemma RayTracingStageBits(a: ShaderStageRayTracing, b: ShaderStageRayTracing)
    ensures !a.UnlistedRayTracing? ==>
      SingleBit(GetShaderStageRayTracing(a)) &&
      GetShaderStageRayTracing(a) & VK_SHADER_STAGE_ALL_GRAPHICS == 0
    ensures a.UnlistedRayTracing? <==> GetShaderStageRayTracing(a) == 0
    ensures !a.UnlistedRayTracing? && !b.UnlistedRayTracing? && a != b ==>
      GetShaderStageRayTracing(a) & GetShaderStageRayTracing(b) == 0
  {
  }

  /** The flags of a set of graphics stages: the OR of their bits. */
  function GraphicsStageFlags(stages: seq<ShaderStageGraphics>): bv32
  {
    if stages == [] then 0
    else GraphicsStageFlags(stages[..|stages| - 1]) | GetShaderStageGraphics(stages[|stages| - 1])
  }

  /**
   * A listed graphics stage's bit is in the flags of a list of stages
   * exactly when the stage is in the list; with all five listed, as the
   * stage-flags test does, every graphics bit is set.
   */
  lemma {:induction false} GraphicsStageFlagsMembership(stages: seq<ShaderStageGraphics>,
                                                        s: ShaderStageGraphics)
    requires !s.UnlistedGraphics?
    ensures GraphicsStageFlags(stages) & GetShaderStageGraphics(s) != 0 <==> s in stages
  {
    if stages != [] {
      var prefix := stages[..|stages| - 1];
      var last := stages[|stages| - 1];
      GraphicsStageFlagsMembership(prefix, s);
      GraphicsStageBits(s, last);
      assert s in stages <==> s in prefix || s == last by {
        assert stages == prefix + [last];
      }
    }
  }
}

// get_uniform_buffer_size and the uniform structs (src/vtek_uniform_data.cpp):
// the byte size of each uniform type, with the sizes, alignments and member
// offsets the source fixes with static_assert.
module UniformData {

  /**
   * vtek::UniformBufferType. `Unlisted` stands for any other value the
   * underlying integer of the enumeration may hold.
   */
  datatype UniformBufferType = Vec3 | Mat4 | Mat4Vec4 | PointLight | Unlisted

  /** The memory layout of a uniform struct: size, alignment and member offsets. */
  datatype StructLayout = StructLayout(size: nat, alignment: nat, offsets: seq<nat>)

  /** The std140-style alignment every uniform struct has. */
  const UNIFORM_ALIGNMENT: nat := 16

  /** Uniform_v3 { v3 }, Uniform_m4 { m4 }, Uniform_m4_v4 { m4, v4 }, Uniform_PointLight { positionFalloff, colorIntensity }. */
  const UNIFORM_V3: StructLayout := StructLayout(16, 16, [0])
  const UNIFORM_M4: StructLayout := StructLayout(64, 16, [0])
  const UNIFORM_M4_V4: StructLayout := StructLayout(80, 16, [0, 64])
  const UNIFORM_POINT_LIGHT: StructLayout := StructLayout(32, 16, [0, 16])

  /** The struct of each listed uniform type. */
  function LayoutOf(t: UniformBufferType): (l: StructLayout)
    requires !t.Unlisted?
    ensures l.alignment == UNIFORM_ALIGNMENT && l.size % l.alignment == 0 && l.size > 0
    ensures forall i :: 0 <= i < |l.offsets| ==> l.offsets[i] % UNIFORM_ALIGNMENT == 0 && l.offsets[i] < l.size
  {
    match t
    case Vec3 => UNIFORM_V3
    case Mat4 => UNIFORM_M4
    case Mat4Vec4 => UNIFORM_M4_V4
    case PointLight => UNIFORM_POINT_LIGHT
  }

  /**
   * get_uniform_buffer_size: the size of the struct of a listed type, and 0
   * (after logging an error) for any other value. Every size is a whole
   * number of 16-byte alignment units.
   */
  function GetUniformBufferSize(t: UniformBufferType): (r: nat)
    ensures r % UNIFORM_ALIGNMENT == 0
    ensures r == 0 <==> t.Unlisted?
    ensures !t.Unlisted? ==> r == LayoutOf(t).size
    ensures t.Vec3? ==> r == 16
    ensures t.Mat4? ==> r == 64
    ensures t.Mat4Vec4? ==> r == 80
    ensures t.PointLight? ==> r == 32
  {
    match t
    case Vec3 => UNIFORM_V3.size
    case Mat4 => UNIFORM_M4.size
    case Mat4Vec4 => UNIFORM_M4_V4.size
    case PointLight => UNIFORM_POINT_LIGHT.size
    case Unlisted => 0
  }

  /**
   * Uniform_m4_v4 is a Uniform_m4 followed by one 16-byte vector: its vector
   * starts where the matrix ends, and the struct is one vector longer.
   */
  lemma Mat4Vec4ExtendsMat4()
    ensures GetUniformBufferSize(Mat4Vec4) == GetUniformBufferSize(Mat4) + 16
    ensures UNIFORM_M4_V4.offsets[1] == GetUniformBufferSize(Mat4)
    ensures UNIFORM_POINT_LIGHT.offsets[1] + 16 == GetUniformBufferSize(PointLight)
  {
  }
}

// vtek::VulkanVersion: a readable wrapper around the packed 32-bit `apiVersion`
// of the Vulkan API ("Version Numbers" section of the Vulkan 1.3
// specification): patch in bits 0-11, minor in bits 12-21, major in bits
// 22-28 and the variant in bits 29-31.
module VulkanVersion {

  /** The four `uint32_t` members of the C++ class. */
  datatype Version = Version(api: bv32, major: bv32, minor: bv32, patch: bv32)

  /** VK_API_VERSION_MAJOR / MINOR / PATCH / VARIANT. */
  function ApiMajor(v: bv32): bv32 { (v >> 22) & 0x7F }
  function ApiMinor(v: bv32): bv32 { (v >> 12) & 0x3FF }
  function ApiPatch(v: bv32): bv32 { v & 0xFFF }
  function ApiVariant(v: bv32): bv32 { v >> 29 }

  /** VK_MAKE_API_VERSION(variant, major, minor, patch) on `uint32_t`. */
  function MakeApiVersion(variant: bv32, major: bv32, minor: bv32, patch: bv32): bv32 {
    (variant << 29) | (major << 22) | (minor << 12) | patch
  }

  /**
   * The decoding constructor `VulkanVersion(uint32_t vulkanApiVersion)`: it
   * keeps the raw value and splits it into its fields, each bounded by the
   * width of its bit field.
   */
  function FromApi(v: bv32): (r: Version)
    ensures r.api == v
    ensures r.major <= 127 && r.minor <= 1023 && r.patch <= 4095
  {
    Version(v, ApiMajor(v), ApiMinor(v), ApiPatch(v))
  }

  /**
   * The packing constructor `VulkanVersion(major, minor, patch)`: the stored
   * fields are the arguments, and the raw value carries them in their bit
   * fields with variant 0.
   */
  function FromTriple(major: bv32, minor: bv32, patch: bv32): (r: Version)
    ensures r.major == major && r.minor == minor && r.patch == patch
    ensures major < 128 && minor < 1024 && patch < 4096 ==>
      ApiVariant(r.api) == 0 && ApiMajor(r.api) == major &&
      ApiMinor(r.api) == minor && ApiPatch(r.api) == patch
  {
    Version(MakeApiVersion(0, major, minor, patch), major, minor, patch)
  }

  /**
   * The version is at least major.minor, comparing major first and then
   * minor, as version numbers compare; against major.minor.0 the patch
   * cannot change the answer.
   */
  predicate AtLeast(v: Version, major: bv32, minor: bv32)
  {
    v.major > major || (v.major == major && v.minor >= minor)
  }

  // The getters apiVersion(), major(), minor() and patch() return the stored
  // members unchanged; they are the fields of `Version`.

  /** Packing an in-range triple and decoding it again gives the same version. */
  lemma TripleRoundTrip(major: bv32, minor: bv32, patch: bv32)
    requires major < 128 && minor < 1024 && patch < 4096
    ensures FromApi(FromTriple(major, minor, patch).api) == FromTriple(major, minor, patch)
  {
  }

  /** Decoding a raw value and re-packing its fields restores the raw value
      exactly when the variant bits are zero. */
  lemma ApiRoundTrip(v: bv32)
    ensures var d := FromApi(v);
      FromTriple(d.major, d.minor, d.patch).api == v <==> ApiVariant(v) == 0
  {
  }
}

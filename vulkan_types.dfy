// vtek::MultisampleType and get_multisample_count (src/vtek_vulkan_types.cpp):
// the number of samples each multisampling choice stands for.
module VulkanTypes {
  /** The VK_SAMPLE_COUNT_*_BIT flags, smallest first, and the sample counts they stand for. */
  const SAMPLE_COUNT_BITS: seq<bv32> := [0x1, 0x2, 0x4, 0x8, 0x10, 0x20, 0x40]
  const SAMPLE_COUNTS: seq<nat> := [1, 2, 4, 8, 16, 32, 64]

  /**
   * vtek::MultisampleType. `Unlisted` stands for any other value the
   * underlying integer of the enumeration may hold.
   */
  datatype MultisampleType = NoMultisampling | Msaa2 | Msaa4 | Msaa8 | Msaa16 | Msaa32 | Msaa64
                           | Unlisted

  /** The position of a listed value in the declaration. */
  function Ordinal(t: MultisampleType): (k: nat)
    requires !t.Unlisted?
    ensures k < 7
  {
    match t
    case NoMultisampling => 0
    case Msaa2 => 1
    case Msaa4 => 2
    case Msaa8 => 3
    case Msaa16 => 4
    case Msaa32 => 5
    case Msaa64 => 6
  }

  /**
   * get_multisample_count: none is one sample, msaa_xN is N samples, and an
   * unlisted value logs an error and falls back to one sample.
   */
  function GetMultisampleCount(t: MultisampleType): (r: nat)
    ensures r in SAMPLE_COUNTS
    ensures t.Unlisted? ==> r == 1
    ensures !t.Unlisted? ==> r == SAMPLE_COUNTS[Ordinal(t)]
  {
    match t
    case NoMultisampling => 1
    case Msaa2 => 2
    case Msaa4 => 4
    case Msaa8 => 8
    case Msaa16 => 16
    case Msaa32 => 32
    case Msaa64 => 64
    case Unlisted => 1
  }

  /** Later values in the declaration ask for strictly more samples. */
  lemma {:induction false} MultisampleCountIncreasing(a: MultisampleType, b: MultisampleType)
    requires !a.Unlisted? && !b.Unlisted?
    ensures Ordinal(a) < Ordinal(b) <==> GetMultisampleCount(a) < GetMultisampleCount(b)
  {
    SampleCountsIncreasing();
  }

  /** The sample count table is strictly increasing. */
  lemma SampleCountsIncreasing()
    ensures forall i, j :: 0 <= i < j < |SAMPLE_COUNTS| ==> SAMPLE_COUNTS[i] < SAMPLE_COUNTS[j]
  {
  }
}

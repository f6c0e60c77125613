// The small value types of include/vtek/vtek_types.hpp. `float` is modelled
// by `real`, which leaves out NaN, infinities and rounding.
module Types {

  /** vtek::FloatRange: an ordered pair of floats. */
  datatype FloatRange = FloatRange(fmin: real, fmax: real)

  /** The default constructor: the range [0, 0]. */
  function DefaultFloatRange(): (r: FloatRange)
    ensures r.fmin == 0.0 && r.fmax == 0.0
  {
    FloatRange(0.0, 0.0)
  }

  /** FloatRange(f1, f2): the smaller argument becomes min(), the larger max(). */
  function MakeFloatRange(f1: real, f2: real): (r: FloatRange)
    ensures r.fmin <= r.fmax
    ensures {r.fmin, r.fmax} == {f1, f2}
  {
    FloatRange(if f1 < f2 then f1 else f2, if f1 > f2 then f1 else f2)
  }

  /** The order of the constructor's arguments does not matter. */
  lemma FloatRangeSymmetric(f1: real, f2: real)
    ensures MakeFloatRange(f1, f2) == MakeFloatRange(f2, f1)
  {
  }

  /**
   * FloatClamp<Min, Max>(v): the stored value. A value below Min becomes Min,
   * one not below Min but above Max becomes Max; when the template bounds are
   * ordered it lies in [Min, Max] and equals v whenever v already does.
   */
  function FloatClamp(lo: real, hi: real, v: real): (r: real)
    ensures lo <= hi ==> lo <= r <= hi
    ensures lo <= v <= hi ==> r == v
    ensures v < lo ==> r == lo
    ensures !(v < lo) && hi < v ==> r == hi
  {
    if v < lo then lo else if v > hi then hi else v
  }

  /** Clamping an already clamped value changes nothing. */
  lemma FloatClampIdempotent(lo: real, hi: real, v: real)
    requires lo <= hi
    ensures FloatClamp(lo, hi, FloatClamp(lo, hi, v)) == FloatClamp(lo, hi, v)
  {
  }

  /** vtek::VulkanBool: a bool that converts to a VkBool32 (0 or 1). */
  class VulkanBool {
    var b: bool

    constructor (value: bool)
      ensures b == value
    {
      b := value;
    }

    /** operator=(bool): replaces the stored value. */
    method Assign(value: bool)
      modifies this
      ensures b == value
    {
      b := value;
    }

    /** get(): VK_TRUE (1) exactly when the stored bool is true, else VK_FALSE (0). */
    function Get(): (r: nat)
      reads this
      ensures r == 1 <==> b
      ensures r == 0 <==> !b
    {
      if b then 1 else 0
    }
  }
}

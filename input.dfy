// vtek::KeyboardMap: one boolean per keyboard key, in a fixed array of
// kSize = 128 entries indexed by the key's enumerator value.
module Input {

  /** kSize. */
  const K_SIZE: nat := 128

  /** Number of KeyboardKey enumerators: `unknown` = 0 up to `menu` = 107. */
  const KEY_COUNT: nat := 108

  /** A KeyboardKey, represented by its underlying uint32_t value. */
  newtype KeyboardKey = k: int | 0 <= k < KEY_COUNT

  const UNKNOWN: KeyboardKey := 0
  const SPACE: KeyboardKey := 1
  const KEY_A: KeyboardKey := 19
  const ESCAPE: KeyboardKey := 51
  const MENU: KeyboardKey := 107

  /** Every enumerator value is a valid index into the 128-entry array. */
  lemma KeysFitMap(k: KeyboardKey)
    ensures 0 <= k as int < K_SIZE
  {
  }

  class KeyboardMap {
    var pressed: array<bool>

    ghost predicate Valid()
      reads this
    {
      pressed.Length == K_SIZE
    }

    /** The implicit constructor; the contents of the array are indeterminate. */
    constructor ()
      ensures Valid() && fresh(pressed)
    {
      pressed := new bool[K_SIZE];
    }

    /** press_key: sets exactly the entry of `key`. */
    method PressKey(key: KeyboardKey)
      requires Valid()
      modifies pressed
      ensures Valid()
      ensures pressed[key as int]
      ensures forall i :: 0 <= i < K_SIZE && i != key as int ==> pressed[i] == old(pressed[i])
    {
      pressed[key as int] := true;
    }

    /** release_key: clears exactly the entry of `key`. */
    method ReleaseKey(key: KeyboardKey)
      requires Valid()
      modifies pressed
      ensures Valid()
      ensures !pressed[key as int]
      ensures forall i :: 0 <= i < K_SIZE && i != key as int ==> pressed[i] == old(pressed[i])
    {
      pressed[key as int] := false;
    }

    /** get_key: the entry of `key`; reads only. */
    function GetKey(key: KeyboardKey): (r: bool)
      requires Valid()
      reads this, pressed
      ensures r == pressed[key as int]
    {
      pressed[key as int]
    }

    /** reset: clears all 128 entries, one at a time. */
    method Reset()
      requires Valid()
      modifies pressed
      ensures Valid()
      ensures forall i :: 0 <= i < K_SIZE ==> !pressed[i]
      ensures forall k: KeyboardKey :: !GetKey(k)
    {
      var i := 0;
      while i < K_SIZE
        invariant 0 <= i <= K_SIZE
        invariant forall j :: 0 <= j < i ==> !pressed[j]
      {
        pressed[i] := false;
        i := i + 1;
      }
    }
  }
}

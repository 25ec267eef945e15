/**
 * `ClientKeyboard` and `getKeyboardInput` of src/public/start.ts: the four
 * movement keys packed into the low four bits of a 32-bit integer, bit 0
 * left, bit 1 right, bit 2 up, bit 3 down.
 */
module Keyboard {
  /** A shift count of a 32-bit operation. */
  type BitIndex = k: bv32 | k < 32

  const LeftBit: BitIndex := 0
  const RightBit: BitIndex := 1
  const UpBit: BitIndex := 2
  const DownBit: BitIndex := 3

  /** Key codes `getKeyboardInput` reads: A, D, W, S. */
  const KeyA: int := 65
  const KeyD: int := 68
  const KeyW: int := 87
  const KeyS: int := 83

  /** `((m >> k) & 1) === 1`. */
  predicate Bit(m: bv32, k: BitIndex)
  {
    (m >> k) & 1 == 1
  }

  /** `m | (1 << k)` when setting, `m & ~(1 << k)` when clearing. */
  function PutBit(m: bv32, k: BitIndex, v: bool): bv32
  {
    if v then m | (1 << k) else m & !(1 << k)
  }

  /** After a put the bit reads back as written, the other bits are untouched, and a 4-bit mask stays one. */
  lemma PutBitSpec(m: bv32, k: BitIndex, v: bool)
    ensures Bit(PutBit(m, k, v), k) == v
    ensures forall j: BitIndex :: j != k ==> Bit(PutBit(m, k, v), j) == Bit(m, j)
    ensures m < 16 && k < 4 ==> PutBit(m, k, v) < 16
  {
    PutBitSame(m, k, v);
    if m < 16 && k < 4 {
      PutBitLow(m, k, v);
    }
    forall j: BitIndex | j != k
      ensures Bit(PutBit(m, k, v), j) == Bit(m, j)
    {
      PutBitOther(m, k, j, v);
    }
  }

  lemma PutBitSame(m: bv32, k: BitIndex, v: bool)
    ensures Bit(PutBit(m, k, v), k) == v
  {
  }

  lemma PutBitOther(m: bv32, k: BitIndex, j: BitIndex, v: bool)
    requires j != k
    ensures Bit(PutBit(m, k, v), j) == Bit(m, j)
  {
  }

  lemma PutBitLow(m: bv32, k: BitIndex, v: bool)
    requires m < 16 && k < 4
    ensures PutBit(m, k, v) < 16
  {
  }

  /** A mask below 16 has no bits above bit 3. */
  lemma LowMask(m: bv32)
    requires m < 16
    ensures m & 0xF == m
    ensures forall j: BitIndex :: 4 <= j ==> !Bit(m, j)
  {
  }

  class ClientKeyboard {
    var input: bv32

    ghost predicate Valid()
      reads this
    {
      input < 16
    }

    /** `input & 0xF`: for an integer, its remainder modulo 16 (the low bits of its two's complement). */
    constructor(input: int)
      ensures this.input as int == input % 16
      ensures Valid()
    {
      this.input := (input % 16) as bv32;
    }

    function Get(k: BitIndex): bool
      reads this
    {
      Bit(input, k)
    }

    function Left(): bool
      reads this
    {
      Get(LeftBit)
    }

    function Right(): bool
      reads this
    {
      Get(RightBit)
    }

    function Up(): bool
      reads this
    {
      Get(UpBit)
    }

    function Down(): bool
      reads this
    {
      Get(DownBit)
    }

    /** `binary`: the mask, always in 0..15. */
    function Binary(): (r: int)
      reads this
      ensures 0 <= r < 16
      ensures Valid() ==> r == input as int
    {
      LowMaskValue(input);
      (input & 0xF) as int
    }

    /** `input |= (1 << k)`. */
    method Set(k: BitIndex)
      modifies this
      ensures input == PutBit(old(input), k, true)
      ensures old(Valid()) && k < 4 ==> Valid()
    {
      ghost var m := input;
      input := PutBit(input, k, true);
      if m < 16 && k < 4 {
        PutBitLow(m, k, true);
      }
    }

    /** `input &= ~(1 << k)`. */
    method Clear(k: BitIndex)
      modifies this
      ensures input == PutBit(old(input), k, false)
      ensures old(Valid()) && k < 4 ==> Valid()
    {
      ghost var m := input;
      input := PutBit(input, k, false);
      if m < 16 && k < 4 {
        PutBitLow(m, k, false);
      }
    }

    method Put(k: BitIndex, v: bool)
      modifies this
      ensures input == PutBit(old(input), k, v)
      ensures old(Valid()) && k < 4 ==> Valid()
    {
      if v {
        Set(k);
      } else {
        Clear(k);
      }
    }

    method SetLeft(v: bool)
      modifies this
      ensures input == PutBit(old(input), LeftBit, v)
    {
      Put(LeftBit, v);
    }

    method SetRight(v: bool)
      modifies this
      ensures input == PutBit(old(input), RightBit, v)
    {
      Put(RightBit, v);
    }

    method SetUp(v: bool)
      modifies this
      ensures input == PutBit(old(input), UpBit, v)
    {
      Put(UpBit, v);
    }

    method SetDown(v: bool)
      modifies this
      ensures input == PutBit(old(input), DownBit, v)
    {
      Put(DownBit, v);
    }
  }

  /** `m & 0xF` lies in 0..15 and equals `m` when `m` is below 16. */
  lemma LowMaskValue(m: bv32)
    ensures (m & 0xF) as int < 16
    ensures m < 16 ==> m & 0xF == m
  {
  }

  /** The mask `getKeyboardInput` builds from the pressed key codes. */
  function KeyMask(keys: set<int>): (r: bv32)
    ensures r < 16
    ensures Bit(r, LeftBit) == (KeyA in keys) && Bit(r, RightBit) == (KeyD in keys)
    ensures Bit(r, UpBit) == (KeyW in keys) && Bit(r, DownBit) == (KeyS in keys)
  {
    var m0 := PutBit(0, LeftBit, KeyA in keys);
    var m1 := PutBit(m0, RightBit, KeyD in keys);
    var m2 := PutBit(m1, UpBit, KeyW in keys);
    var m3 := PutBit(m2, DownBit, KeyS in keys);
    PutBitSpec(0, LeftBit, KeyA in keys);
    PutBitSpec(m0, RightBit, KeyD in keys);
    PutBitSpec(m1, UpBit, KeyW in keys);
    PutBitSpec(m2, DownBit, KeyS in keys);
    m3
  }

  /** The mask's value is the sum of the pressed keys' place values. */
  lemma {:induction false} KeyMaskValue(keys: set<int>)
    ensures KeyMask(keys) as int == PressedValue(keys)
  {
    var r := KeyMask(keys);
    FourBits(r);
  }

  /** A mask below 16 is the sum of its four bits' place values. */
  lemma FourBits(m: bv32)
    requires m < 16
    ensures m as int == (if Bit(m, 0) then 1 else 0) + (if Bit(m, 1) then 2 else 0) +
      (if Bit(m, 2) then 4 else 0) + (if Bit(m, 3) then 8 else 0)
  {
  }

  /** The value of the mask for the pressed keys: A adds 1, D 2, W 4 and S 8. */
  function PressedValue(keys: set<int>): (r: int)
    ensures 0 <= r < 16
  {
    (if KeyA in keys then 1 else 0) + (if KeyD in keys then 2 else 0) +
    (if KeyW in keys then 4 else 0) + (if KeyS in keys then 8 else 0)
  }

  /** `getKeyboardInput().binary`. */
  method KeyboardBinary(keys: set<int>) returns (mask: int)
    ensures mask == PressedValue(keys)
  {
    var kb := GetKeyboardInput(keys);
    mask := kb.Binary();
    KeyMaskValue(keys);
  }

  method GetKeyboardInput(keys: set<int>) returns (kb: ClientKeyboard)
    ensures fresh(kb) && kb.Valid()
    ensures kb.input == KeyMask(keys)
  {
    kb := new ClientKeyboard(0);
    kb.SetLeft(KeyA in keys);
    kb.SetRight(KeyD in keys);
    kb.SetUp(KeyW in keys);
    kb.SetDown(KeyS in keys);
  }
}

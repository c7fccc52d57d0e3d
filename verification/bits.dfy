/** Single-channel updates of a 32-bit digital-output word, `state |= (1 << ch)` and
    `state &= ~(1 << ch)`. Channels are 5-bit indices, so `1 << ch` is always a bit of the word. */
module Bits {

  /** The 5-bit index of a channel number already checked to lie in 0..31. */
  function Channel(ch: int): (i: bv5)
    requires 0 <= ch < 32
    ensures i as int == ch
  {
    ch as bv5
  }

  /** Channels 0..15 have indices below 16. */
  lemma ChannelBelow16(ch: int)
    requires 0 <= ch < 16
    ensures Channel(ch) < 16
  {
  }

  /** `1 << ch`. */
  function Mask(ch: bv5): bv32 {
    1 << ch
  }

  /** Channel `ch` of `w` is on. */
  predicate Bit(w: bv32, ch: bv5) {
    w & Mask(ch) != 0
  }

  /** `(w >> ch) & 1` as an integer. */
  function BitValue(w: bv32, ch: bv5): (v: int)
    ensures v == 0 || v == 1
    ensures v == 1 <==> Bit(w, ch)
  {
    ((w >> ch) & 1) as int
  }

  /** `w | (1 << ch)`: channel `ch` on, every other channel as it was. */
  function SetBit(w: bv32, ch: bv5): (r: bv32)
    ensures Bit(r, ch)
    ensures r & !Mask(ch) == w & !Mask(ch)
  {
    w | Mask(ch)
  }

  /** `w & ~(1 << ch)`: channel `ch` off, every other channel as it was. */
  function ClearBit(w: bv32, ch: bv5): (r: bv32)
    ensures !Bit(r, ch)
    ensures r & !Mask(ch) == w & !Mask(ch)
  {
    w & !Mask(ch)
  }

  /** Switching a channel on or off, as the source's `if state: |= … else: &= ~…` does. */
  function Switch(w: bv32, ch: bv5, on: bool): bv32 {
    if on then SetBit(w, ch) else ClearBit(w, ch)
  }

  /** After a switch the channel reads as requested. */
  lemma SwitchEffect(w: bv32, ch: bv5, on: bool)
    ensures Bit(Switch(w, ch, on), ch) == on
  {
    if on {
      assert Bit(SetBit(w, ch), ch);
    } else {
      assert !Bit(ClearBit(w, ch), ch);
    }
  }

  /** A switch leaves every other channel as it was. */
  lemma SwitchKeeps(w: bv32, ch: bv5, on: bool)
    ensures Switch(w, ch, on) & !Mask(ch) == w & !Mask(ch)
  {
    if on {
      assert SetBit(w, ch) & !Mask(ch) == w & !Mask(ch);
    } else {
      assert ClearBit(w, ch) & !Mask(ch) == w & !Mask(ch);
    }
  }

  /** Distinct channel numbers have distinct indices. */
  lemma ChannelInjective(a: int, b: int)
    requires 0 <= a < 32 && 0 <= b < 32 && a != b
    ensures Channel(a) != Channel(b)
  {
  }

  /** Setting one channel leaves the bit of any other channel as it was ... */
  lemma SetOther(w: bv32, ch: bv5, other: bv5)
    requires ch != other
    ensures SetBit(w, ch) & Mask(other) == w & Mask(other)
  {
  }

  /** ... and so does clearing one. */
  lemma ClearOther(w: bv32, ch: bv5, other: bv5)
    requires ch != other
    ensures ClearBit(w, ch) & Mask(other) == w & Mask(other)
  {
  }

  /** Switching one channel does not change how any other channel reads. */
  lemma SwitchOther(w: bv32, ch: bv5, other: bv5, on: bool)
    requires ch != other
    ensures Bit(Switch(w, ch, on), other) == Bit(w, other)
  {
    if on {
      SetOther(w, ch, other);
    } else {
      ClearOther(w, ch, other);
    }
  }

  /** The word uses only channels 0..15. */
  predicate Within16(w: bv32) {
    w < 0x1_0000
  }

  /** Switching one of channels 0..15 keeps a 16-channel word within 16 bits. */
  lemma SwitchWithin16(w: bv32, ch: bv5, on: bool)
    requires ch < 16 && Within16(w)
    ensures Within16(Switch(w, ch, on))
  {
    if on {
      assert SetBit(w, ch) < 0x1_0000;
    } else {
      assert ClearBit(w, ch) < 0x1_0000;
    }
  }

  /** A pulse (on, then off) clears the channel and restores a word whose channel was off. */
  lemma PulseRestores(w: bv32, ch: bv5)
    requires !Bit(w, ch)
    ensures Switch(Switch(w, ch, true), ch, false) == w
  {
    assert ClearBit(SetBit(w, ch), ch) == w;
  }
}

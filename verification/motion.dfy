/**
  The `Motion` flags of the paint bot's arm. Each value is a small bit set:
  bit 1 = clockwise, bit 2 = counter-clockwise, bit 4 = sideways,
  bit 8 = along X, bit 16 = along Y. The arm header without the X/Y
  motions (src/robotarm.h) declares CW, CCW, LEFT and RIGHT; the paint
  bot header adds the X and Y variants, with the same values for the four
  shared names.
 */
module Motions {
  import opened Wrappers

  const CwBit: bv8 := 1
  const CcwBit: bv8 := 2
  const SideBit: bv8 := 4
  const XBit: bv8 := 8
  const YBit: bv8 := 16

  /** The enumerator values, each built from the flags exactly as declared. */
  const CW: bv8 := CwBit
  const CCW: bv8 := CcwBit
  const LEFT: bv8 := SideBit | CCW
  const RIGHT: bv8 := SideBit | CW
  const X_AXIS: bv8 := XBit
  const X_DEC: bv8 := X_AXIS | LEFT
  const X_INC: bv8 := X_AXIS | RIGHT
  const Y_AXIS: bv8 := YBit
  const Y_DEC: bv8 := Y_AXIS | LEFT
  const Y_INC: bv8 := Y_AXIS | RIGHT

  datatype Motion = Cw | Ccw | Left | Right | X | XDec | XInc | Y | YDec | YInc

  /** The ten motions in declaration order. */
  const AllMotions: seq<Motion> := [Cw, Ccw, Left, Right, X, XDec, XInc, Y, YDec, YInc]

  /** Does the flag set `v` contain every bit of `bit`? */
  predicate Has(v: bv8, bit: bv8) {
    v & bit == bit
  }

  /** The enumerator value of a motion. */
  function Value(m: Motion): (v: bv8)
    ensures v != 0 && v < 32
    ensures !(Has(v, CwBit) && Has(v, CcwBit))
    ensures Has(v, XBit) ==> !Has(v, YBit)
  {
    match m
    case Cw => CW
    case Ccw => CCW
    case Left => LEFT
    case Right => RIGHT
    case X => X_AXIS
    case XDec => X_DEC
    case XInc => X_INC
    case Y => Y_AXIS
    case YDec => Y_DEC
    case YInc => Y_INC
  }

  /** The first motion of `ms` whose value is `v`, if any. */
  function Lookup(v: bv8, ms: seq<Motion>): (r: Option<Motion>)
    ensures r.Some? ==> r.value in ms && Value(r.value) == v
    ensures r.None? ==> forall i :: 0 <= i < |ms| ==> Value(ms[i]) != v
  {
    if |ms| == 0 then None
    else if Value(ms[0]) == v then Some(ms[0])
    else Lookup(v, ms[1..])
  }

  /** Reads an enumerator value back as a motion; None for a bit pattern no enumerator has. */
  function Decode(v: bv8): (r: Option<Motion>)
    ensures r.Some? ==> Value(r.value) == v
  {
    Lookup(v, AllMotions)
  }

  lemma AllMotionsComplete(m: Motion)
    ensures m in AllMotions
  {
  }

  /** All ten enumerator values are pairwise distinct. */
  lemma ValueInjective(m1: Motion, m2: Motion)
    ensures Value(m1) == Value(m2) <==> m1 == m2
  {
  }

  /** Decoding an enumerator value gives back that enumerator. */
  lemma {:induction false} DecodeValue(m: Motion)
    ensures Decode(Value(m)) == Some(m)
  {
    AllMotionsComplete(m);
    var r := Decode(Value(m));
    assert r.Some?;
    ValueInjective(r.value, m);
  }

  /** CW and CCW are distinct single-bit flags. */
  lemma DirectionFlags()
    ensures Value(Cw) == 1 && Value(Ccw) == 2
    ensures Value(Cw) & Value(Ccw) == 0
  {
  }

  /** LEFT = 4|CCW = 6 holds the CCW bit; RIGHT = 4|CW = 5 holds the CW bit; they share only bit 4. */
  lemma LeftRightFlags()
    ensures Value(Left) == 6 && Has(Value(Left), CcwBit) && !Has(Value(Left), CwBit)
    ensures Value(Right) == 5 && Has(Value(Right), CwBit) && !Has(Value(Right), CcwBit)
    ensures Value(Left) & Value(Right) == SideBit
  {
  }

  /** X_DEC and X_INC carry the X bit and not the Y bit; Y_DEC and Y_INC the other way round. */
  lemma AxisFlags()
    ensures Has(Value(XDec), XBit) && !Has(Value(XDec), YBit) && Has(Value(XDec), Value(Left))
    ensures Has(Value(XInc), XBit) && !Has(Value(XInc), YBit) && Has(Value(XInc), Value(Right))
    ensures Has(Value(YDec), YBit) && !Has(Value(YDec), XBit) && Has(Value(YDec), Value(Left))
    ensures Has(Value(YInc), YBit) && !Has(Value(YInc), XBit) && Has(Value(YInc), Value(Right))
  {
  }
}

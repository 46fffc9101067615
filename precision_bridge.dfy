/** `unpack_ph_2twops` and `pack_twops_2ph`: moving the 32 half lanes of one
    register to and from two registers of 16 `float` lanes.

    The hardware conversions `_mm512_cvtph_ps` (binary16 to binary32) and
    `_mm512_cvtps_ph` (binary32 to binary16, round to nearest even) are not
    modelled numerically: a `Conversions` value supplies them as arbitrary
    total functions on bit patterns, and every property below holds whatever
    they are (the round trip only under its stated hypothesis).  What is
    modelled is which lane goes where. */
module PrecisionBridge {
  import opened V512Layout

  /** The two lane conversions, on bit patterns. */
  datatype Conversions = Conversions(widen: U16 -> U32, narrow: U32 -> U16)

  /** `_mm512_cvtph_ps`: the 16 half lanes of a 256-bit operand become the
      16 `float` lanes of a full register. */
  function CvtPhPs(cv: Conversions, h: V256): (z: V512)
    ensures forall i :: 0 <= i < WordLanes ==> Words(z)[i] == cv.widen(h[i])
  {
    var w := seq<U32>(WordLanes, i requires 0 <= i < WordLanes => cv.widen(h[i]));
    FromWords(w)
  }

  /** `_mm512_cvtps_ph`: the 16 `float` lanes of a register become the 16
      half lanes of a 256-bit result. */
  function CvtPsPh(cv: Conversions, z: V512): (h: V256)
    ensures forall i :: 0 <= i < 16 ==> h[i] == cv.narrow(Words(z)[i])
  {
    var halves := seq<U16>(16, i requires 0 <= i < 16 => cv.narrow(Words(z)[i]));
    halves
  }

  /** `unpack_ph_2twops(src, &op1, &op2)` as values: `op1` widens the lower
      256 bits of `src`, and `op2` widens the upper 256 bits, which
      `_mm512_extractf32x8_ps(src.zmm, 1)` moves to the bottom of a scratch
      register first. */
  function Unpack(cv: Conversions, src: V512): (ops: (V512, V512))
    ensures forall i :: 0 <= i < WordLanes ==> Words(ops.0)[i] == cv.widen(src[i])
    ensures forall i :: 0 <= i < WordLanes ==> Words(ops.1)[i] == cv.widen(src[WordLanes + i])
  {
    var scratchLow := Upper256(src);
    (CvtPhPs(cv, Lower256(src)), CvtPhPs(cv, scratchLow))
  }

  /** `pack_twops_2ph(op1, op2)`: both operands are narrowed into the lower
      256 bits of a register each, and `_mm512_insertf32x8(v1.zmm,
      v2.ymm[0], 1)` keeps the lower half of the first and puts the lower
      half of the second above it. */
  function Pack(cv: Conversions, op1: V512, op2: V512): (r: V512)
    ensures forall i :: 0 <= i < 16 ==> r[i] == cv.narrow(Words(op1)[i])
    ensures forall i :: 16 <= i < HalfLanes ==> r[i] == cv.narrow(Words(op2)[i - 16])
  {
    var v1Low := CvtPsPh(cv, op1);
    var v2Low := CvtPsPh(cv, op2);
    v1Low + v2Low
  }

  /** Unpacking a register and packing the two halves back gives the same
      register, provided each of its half lanes survives widening and
      narrowing (a signalling NaN, which widening quiets, need not). */
  lemma PackUnpackRoundTrip(cv: Conversions, src: V512)
    requires forall i :: 0 <= i < HalfLanes ==> cv.narrow(cv.widen(src[i])) == src[i]
    ensures Pack(cv, Unpack(cv, src).0, Unpack(cv, src).1) == src
  {
    var ops := Unpack(cv, src);
    var r := Pack(cv, ops.0, ops.1);
    forall i | 0 <= i < HalfLanes ensures r[i] == src[i] {
      if i < 16 {
        assert r[i] == cv.narrow(cv.widen(src[i]));
      } else {
        assert r[i] == cv.narrow(cv.widen(src[WordLanes + (i - 16)]));
      }
    }
  }

  /** `unpack_ph_2twops` writing through its two pointers.  When both point
      at the same register, the store to `op2` is the one that remains. */
  method UnpackPh2Twops(cv: Conversions, src: V512, op1: array<U16>, op2: array<U16>)
    requires op1.Length == HalfLanes && op2.Length == HalfLanes
    modifies op1, op2
    ensures op2[..] == Unpack(cv, src).1
    ensures op1 != op2 ==> op1[..] == Unpack(cv, src).0
  {
    StoreV512(op1, CvtPhPs(cv, Lower256(src)));
    var v1Low := Upper256(src);
    StoreV512(op2, CvtPhPs(cv, v1Low));
  }
}

/** The per-width constants selected by `AVX512F_LEN`: the tests built for
    128-bit and 256-bit registers use only the lowest part of a `V512`, and
    their mask constants have one bit per 16-bit lane of that part. */
module WidthConfig {
  import opened V512Layout

  /** The configured register width, `AVX512F_LEN`; any value other than 256
      or 128 selects the full 512 bits. */
  datatype Width = W128 | W256 | W512

  function Bits(w: Width): nat
  {
    match w
    case W128 => 128
    case W256 => 256
    case W512 => RegisterBits
  }

  /** Number of 16-bit lanes in the configured width. */
  function HalfLaneCount(w: Width): (n: nat)
    ensures n * 16 == Bits(w) && n <= HalfLanes
  {
    Bits(w) / 16
  }

  function Pow2(n: nat): nat
  {
    if n == 0 then 1 else 2 * Pow2(n - 1)
  }

  lemma {:induction false} Pow2Add(a: nat, b: nat)
    ensures Pow2(a + b) == Pow2(a) * Pow2(b)
  {
    if a > 0 {
      Pow2Add(a - 1, b);
    }
  }

  /** The powers of two that the mask widths need. */
  lemma Pow2OfLaneCounts()
    ensures Pow2(8) == 0x100 && Pow2(16) == 0x1_0000 && Pow2(32) == 0x1_0000_0000
  {
    assert Pow2(4) == 16;
    Pow2Add(4, 4);
    Pow2Add(8, 8);
    Pow2Add(16, 16);
  }

  /** `NET_MASK`: every 16-bit lane of the configured width selected. */
  function NetMask(w: Width): (m: nat)
    ensures m + 1 == Pow2(HalfLaneCount(w))
  {
    Pow2OfLaneCounts();
    match w
    case W128 => assert HalfLaneCount(w) == 8; 0xff
    case W256 => assert HalfLaneCount(w) == 16; 0xffff
    case W512 => assert HalfLaneCount(w) == 32; 0xffff_ffff
  }

  /** `MASK_VALUE`: the merge mask the tests use. */
  function MaskValue(w: Width): (m: nat)
    ensures m <= NetMask(w)
  {
    match w
    case W128 => 0xcc
    case W256 => 0xcccc
    case W512 => 0xcccc_cccc
  }

  /** `ZMASK_VALUE`: the zero-masking mask the tests use. */
  function ZmaskValue(w: Width): (m: nat)
    ensures m <= NetMask(w)
  {
    match w
    case W128 => 0xc1
    case W256 => 0xfcc1
    case W512 => 0xfcc1_fcc1
  }

  /** `HF(x)`: the half lanes of the configured width. */
  function ActiveHalves(w: Width, v: V512): (h: seq<U16>)
    ensures |h| * 16 == Bits(w)
    ensures w == W512 ==> h == v
    ensures w == W256 ==> h == Lower256(v)
    ensures w == W128 ==> h == Lower256(v)[..8]
  {
    v[..HalfLaneCount(w)]
  }

  /** `SF(x)`: the `float` lanes of the configured width; lane `j` of it is
      made of half lanes `2j` and `2j+1` of `HF(x)`. */
  function ActiveFloats(w: Width, v: V512): (f: seq<U32>)
    ensures |f| * 32 == Bits(w)
    ensures forall j :: 0 <= j < |f| ==>
      f[j] % HalfBase == ActiveHalves(w, v)[2 * j] && f[j] / HalfBase == ActiveHalves(w, v)[2 * j + 1]
  {
    Words(v)[..Bits(w) / 32]
  }
}

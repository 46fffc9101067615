/** Lane layout of the `V512` union: one 512-bit register seen as 32 16-bit
    half lanes (`u16`, `f16`), as 16 32-bit lanes (`u32`, `f32`), or as two
    256-bit halves (`ymm`, `ymmh`, `ymmi`).

    The storage is modelled by its half lanes; every other view is a function
    of them.  On the little-endian x86 target 32-bit lane `j` is made of half
    lane `2j` (low 16 bits) and half lane `2j+1` (high 16 bits).  A `float`
    lane is represented by its binary32 bit pattern, so the `f32` view is the
    `u32` view. */
module V512Layout {

  /** Width of the register in bits, and the lane counts of its views. */
  const RegisterBits: nat := 512
  const HalfLanes: nat := 32
  const WordLanes: nat := 16
  /** `AVX512F_MAX_ELEM`, written `512 / 32` in the source. */
  const MaxElem: nat := 512 / 32

  const HalfBase: int := 0x1_0000

  /** An `unsigned short` (also the bits of a `_Float16`). */
  type U16 = x: int | 0 <= x < 0x1_0000
  /** An `unsigned int` (also the bits of a `float`). */
  type U32 = x: int | 0 <= x < 0x1_0000_0000

  /** A `V512` value: its 32 half lanes, lowest address first. */
  type V512 = s: seq<U16> | |s| == 32 witness seq(32, _ => 0)

  /** The all-zero register. */
  const Zero512: V512 := seq(32, _ => 0)

  /** A 256-bit half of a register (`ymmi[k]`): 16 half lanes. */
  type V256 = s: seq<U16> | |s| == 16 witness seq(16, _ => 0)

  /** The 32-bit lane `j` of half-lane storage `s`. */
  function WordAt(s: seq<U16>, j: int): (x: U32)
    requires 0 <= j && 2 * j + 1 < |s|
    ensures x % HalfBase == s[2 * j] && x / HalfBase == s[2 * j + 1]
  {
    s[2 * j] + HalfBase * s[2 * j + 1]
  }

  /** The `u32` (and `f32`) view of a register. */
  function Words(v: V512): (w: seq<U32>)
    ensures |w| == WordLanes
    ensures forall j :: 0 <= j < WordLanes ==> w[j] % HalfBase == v[2 * j] && w[j] / HalfBase == v[2 * j + 1]
  {
    seq(WordLanes, j requires 0 <= j < WordLanes => WordAt(v, j))
  }

  /** The register whose `u32` view is `w`. */
  function FromWords(w: seq<U32>): (v: V512)
    requires |w| == WordLanes
    ensures Words(v) == w
  {
    var r := seq(HalfLanes, i requires 0 <= i < HalfLanes =>
                   if i % 2 == 0 then w[i / 2] % HalfBase else w[i / 2] / HalfBase);
    assert forall j :: 0 <= j < WordLanes ==> WordAt(r, j) == w[j] by {
      forall j | 0 <= j < WordLanes ensures WordAt(r, j) == w[j] {
        assert r[2 * j] == w[j] % HalfBase && r[2 * j + 1] == w[j] / HalfBase;
      }
    }
    r
  }

  /** The two views are one storage: going through the `u32` view and back
      gives the same half lanes. */
  lemma FromWordsOfWords(v: V512)
    ensures FromWords(Words(v)) == v
  {
    var r := FromWords(Words(v));
    forall i | 0 <= i < HalfLanes ensures r[i] == v[i] {
      var j := i / 2;
      assert Words(r)[j] == Words(v)[j];
      if i % 2 == 0 {
        assert i == 2 * j;
      } else {
        assert i == 2 * j + 1;
      }
    }
  }

  /** Two registers with the same `u32` view are the same register. */
  lemma WordsInjective(v: V512, u: V512)
    requires Words(v) == Words(u)
    ensures v == u
  {
    FromWordsOfWords(v);
    FromWordsOfWords(u);
  }

  /** `ymmi[0]` (`ymm[0]`): the lower 256 bits, `float` lanes 0 to 7. */
  function Lower256(v: V512): (h: V256)
    ensures forall j :: 0 <= j < 8 ==> WordAt(h, j) == Words(v)[j]
  {
    v[..16]
  }

  /** `_mm512_extractf32x8_ps(v, 1)`: the upper 256 bits, `float` lanes 8
      to 15, moved to the bottom of a 256-bit value. */
  function Upper256(v: V512): (h: V256)
    ensures forall j :: 0 <= j < 8 ==> WordAt(h, j) == Words(v)[8 + j]
  {
    v[16..]
  }

  /** The two 256-bit halves make up the whole register, lower one first. */
  lemma SplitHalves(v: V512)
    ensures Lower256(v) + Upper256(v) == v
  {
  }

  /** The register `v` with its 32-bit lane `j` replaced by `x`: half lanes
      `2j` and `2j+1` change, and every other 32-bit lane keeps its value. */
  function SetWord(v: V512, j: int, x: U32): (r: V512)
    requires 0 <= j < WordLanes
    ensures WordAt(r, j) == x
    ensures forall k :: 0 <= k < WordLanes && k != j ==> WordAt(r, k) == WordAt(v, k)
  {
    var r := v[2 * j := x % HalfBase][2 * j + 1 := x / HalfBase];
    assert forall k :: 0 <= k < WordLanes && k != j ==> r[2 * k] == v[2 * k] && r[2 * k + 1] == v[2 * k + 1];
    r
  }

  /** `v.u32[j] = x` on a register in memory. */
  method StoreWord(a: array<U16>, j: int, x: U32)
    requires a.Length == HalfLanes && 0 <= j < WordLanes
    modifies a
    ensures a[..] == SetWord(old(a[..]), j, x)
  {
    a[2 * j], a[2 * j + 1] := x % HalfBase, x / HalfBase;
  }

  /** `*a = v`: a whole-register assignment. */
  method StoreV512(a: array<U16>, v: V512)
    requires a.Length == HalfLanes
    modifies a
    ensures a[..] == v
  {
    forall k | 0 <= k < HalfLanes {
      a[k] := v[k];
    }
  }
}

/** The global state of the test helper and the operations that change it:
    the source registers `src1`, `src2`, `src3`, the error counter `n_errs`,
    `check_results`, `init_src` and `init_dest`. */
module Fp16Harness {
  import opened V512Layout
  import opened PrecisionBridge
  import opened ToleranceComparator

  /** The binary32 bit patterns of the generators' per-lane `float`
      formulas, as functions of the lane index `i`: `-i + 1`, `i * 0.5f`,
      `i * 2.5f`, `i - 0.5f` (`init_src`) and `12 + 0.5f * i` (`init_dest`).
      Their values come from floating-point arithmetic and are not modelled. */
  datatype Formulas = Formulas(
    negPlusOne: int -> U32,
    timesHalf: int -> U32,
    timesTwoAndHalf: int -> U32,
    minusHalf: int -> U32,
    destPattern: int -> U32)

  /** A register whose 16 `float` lanes are `f(0)`, ..., `f(15)`. */
  function FloatColumn(f: int -> U32): (v: V512)
    ensures forall i :: 0 <= i < WordLanes ==> Words(v)[i] == f(i)
  {
    FromWords(seq<U32>(WordLanes, i requires 0 <= i < WordLanes => f(i)))
  }

  /** `src1` after `init_src`. */
  function GeneratedSrc1(cv: Conversions, fm: Formulas): (v: V512)
    ensures forall i :: 0 <= i < 16 ==> v[i] == cv.narrow(fm.negPlusOne(i))
    ensures forall i :: 16 <= i < HalfLanes ==> v[i] == cv.narrow(fm.timesHalf(i - 16))
  {
    Pack(cv, FloatColumn(fm.negPlusOne), FloatColumn(fm.timesHalf))
  }

  /** `src2` after `init_src`. */
  function GeneratedSrc2(cv: Conversions, fm: Formulas): (v: V512)
    ensures forall i :: 0 <= i < 16 ==> v[i] == cv.narrow(fm.timesTwoAndHalf(i))
    ensures forall i :: 16 <= i < HalfLanes ==> v[i] == cv.narrow(fm.minusHalf(i - 16))
  {
    Pack(cv, FloatColumn(fm.timesTwoAndHalf), FloatColumn(fm.minusHalf))
  }

  /** `src3` after `init_src`: 32-bit lane `i` holds `(i + 1) * 10`. */
  function GeneratedSrc3(): (v: V512)
    ensures forall i :: 0 <= i < WordLanes ==> Words(v)[i] == (i + 1) * 10
  {
    FromWords(seq<U32>(WordLanes, i requires 0 <= i < WordLanes => (i + 1) * 10))
  }

  /** `*res` and `*exp` after `init_dest`: both halves carry the same
      narrowed pattern. */
  function GeneratedDest(cv: Conversions, fm: Formulas): (v: V512)
    ensures forall i :: 0 <= i < 16 ==> v[i] == v[16 + i] == cv.narrow(fm.destPattern(i))
  {
    Pack(cv, FloatColumn(fm.destPattern), FloatColumn(fm.destPattern))
  }

  /** The half lanes of a register in memory whose first `n` 32-bit lanes
      are `f(0)`, ..., `f(n - 1)`; used by the generator loops. */
  ghost predicate WordsFilled(a: seq<U16>, f: int -> U32, n: int)
    requires |a| == HalfLanes && n <= WordLanes
  {
    forall k :: 0 <= k < n ==> WordAt(a, k) == f(k)
  }

  /** Storing `f(i)` into 32-bit lane `i` extends the filled prefix by one. */
  lemma FilledStep(v: V512, f: int -> U32, i: int)
    requires 0 <= i < WordLanes && WordsFilled(v, f, i)
    ensures WordsFilled(SetWord(v, i, f(i)), f, i + 1)
  {
  }

  /** A register in memory whose 16 `float` lanes are all filled holds
      `FloatColumn(f)`. */
  lemma FilledIsColumn(a: V512, f: int -> U32)
    requires WordsFilled(a, f, WordLanes)
    ensures a == FloatColumn(f)
  {
    var c := FloatColumn(f);
    forall j | 0 <= j < WordLanes ensures Words(a)[j] == Words(c)[j] {
      assert Words(a)[j] == WordAt(a, j);
    }
    WordsInjective(a, c);
  }

  /** The four scratch registers of `init_src`, once filled, pack into the
      generated `src1` and `src2`. */
  lemma FilledOperands(cv: Conversions, fm: Formulas, v1: V512, v2: V512, v3: V512, v4: V512)
    requires WordsFilled(v1, fm.negPlusOne, WordLanes) && WordsFilled(v2, fm.timesHalf, WordLanes)
    requires WordsFilled(v3, fm.timesTwoAndHalf, WordLanes) && WordsFilled(v4, fm.minusHalf, WordLanes)
    ensures Pack(cv, v1, v2) == GeneratedSrc1(cv, fm)
    ensures Pack(cv, v3, v4) == GeneratedSrc2(cv, fm)
  {
    FilledIsColumn(v1, fm.negPlusOne);
    FilledIsColumn(v2, fm.timesHalf);
    FilledIsColumn(v3, fm.timesTwoAndHalf);
    FilledIsColumn(v4, fm.minusHalf);
  }

  /** The file-scope globals `src1`, `src2`, `src3` and `n_errs`. */
  class Globals {
    var src1: array<U16>
    var src2: array<U16>
    var src3: array<U16>
    var nErrs: int

    ghost predicate Valid()
      reads this
    {
      src1.Length == HalfLanes && src2.Length == HalfLanes && src3.Length == HalfLanes &&
      src1 != src2 && src1 != src3 && src2 != src3
    }

    /** Program start: static storage is zero and `n_errs` starts at 0. */
    constructor ()
      ensures Valid() && fresh(src1) && fresh(src2) && fresh(src3)
      ensures nErrs == 0
      ensures forall i :: 0 <= i < HalfLanes ==> src1[i] == 0 && src2[i] == 0 && src3[i] == 0
    {
      src1 := new U16[HalfLanes](_ => 0);
      src2 := new U16[HalfLanes](_ => 0);
      src3 := new U16[HalfLanes](_ => 0);
      nErrs := 0;
    }

    /** `check_results(got, exp, n_elems, banner)`: scans the first
        `n_elems` half lanes and, at the first lane outside the tolerance,
        counts one error and stops.  Only `n_errs` is written. */
    method CheckResults(got: array<U16>, exp: array<U16>, nElems: int)
      requires got.Length == HalfLanes && exp.Length == HalfLanes && nElems <= HalfLanes
      modifies this`nErrs
      ensures nErrs == old(nErrs) + (if Rejects(got[..], exp[..], nElems) then 1 else 0)
    {
      var i := 0;
      while i < nElems
        invariant 0 <= i && (i <= nElems || i == 0)
        invariant forall k :: 0 <= k < i ==> LaneAccepted(got[k], exp[k])
        invariant nErrs == old(nErrs)
      {
        // Both lanes are promoted to `int` before the comparison.
        var g: int, e: int := got[i], exp[i];
        if g != e && (g > e + 1 || g < e - 1) {
          assert !LaneAccepted(got[..][i], exp[..][i]);
          nErrs := nErrs + 1;
          break;
        }
        i := i + 1;
      }
    }

    /** `init_src()`: fills four scratch registers with the operand
        formulas and `src3` with `(i + 1) * 10` in one loop, then packs the
        scratch registers pairwise into `src1` and `src2`. */
    method InitSrc(cv: Conversions, fm: Formulas)
      requires Valid()
      modifies src1, src2, src3
      ensures Valid()
      ensures src1[..] == GeneratedSrc1(cv, fm)
      ensures src2[..] == GeneratedSrc2(cv, fm)
      ensures src3[..] == GeneratedSrc3()
    {
      // The scratch registers are locals: values, not storage anyone else sees.
      var v1, v2, v3, v4: V512 := Zero512, Zero512, Zero512, Zero512;
      var tens: int -> U32 := k => if 0 <= k < WordLanes then (k + 1) * 10 else 0;
      var i := 0;
      while i < MaxElem
        invariant 0 <= i <= MaxElem
        invariant WordsFilled(v1, fm.negPlusOne, i)
        invariant WordsFilled(v2, fm.timesHalf, i)
        invariant WordsFilled(v3, fm.timesTwoAndHalf, i)
        invariant WordsFilled(v4, fm.minusHalf, i)
        invariant WordsFilled(src3[..], tens, i)
      {
        FilledStep(v1, fm.negPlusOne, i);
        FilledStep(v2, fm.timesHalf, i);
        FilledStep(v3, fm.timesTwoAndHalf, i);
        FilledStep(v4, fm.minusHalf, i);
        FilledStep(src3[..], tens, i);
        v1 := SetWord(v1, i, fm.negPlusOne(i));
        v2 := SetWord(v2, i, fm.timesHalf(i));
        v3 := SetWord(v3, i, fm.timesTwoAndHalf(i));
        v4 := SetWord(v4, i, fm.minusHalf(i));
        StoreWord(src3, i, (i + 1) * 10);
        i := i + 1;
      }
      FilledOperands(cv, fm, v1, v2, v3, v4);
      FilledIsColumn(src3[..], tens);
      WordsInjective(src3[..], GeneratedSrc3());
      StoreV512(src1, Pack(cv, v1, v2));
      StoreV512(src2, Pack(cv, v3, v4));
    }
  }

  /** `init_dest(res, exp)`: one scratch register is filled with the
      destination formula and packed with itself, and the result is stored
      to `*exp` and then to `*res`. */
  method InitDest(cv: Conversions, fm: Formulas, res: array<U16>, exp: array<U16>)
    requires res.Length == HalfLanes && exp.Length == HalfLanes
    modifies res, exp
    ensures res[..] == exp[..] == GeneratedDest(cv, fm)
  {
    var v1: V512 := Zero512;
    var i := 0;
    while i < MaxElem
      invariant 0 <= i <= MaxElem
      invariant WordsFilled(v1, fm.destPattern, i)
    {
      FilledStep(v1, fm.destPattern, i);
      v1 := SetWord(v1, i, fm.destPattern(i));
      i := i + 1;
    }
    FilledIsColumn(v1, fm.destPattern);
    var packed := Pack(cv, v1, v1);
    StoreV512(exp, packed);
    StoreV512(res, packed);
  }

  /** A test's first steps: `init_dest(&res, &exp)` followed at once by
      `check_results(&res, &exp, n)` records no error. */
  method InitDestThenCheck(g: Globals, cv: Conversions, fm: Formulas, res: array<U16>, exp: array<U16>, n: int)
    requires res.Length == HalfLanes && exp.Length == HalfLanes && n <= HalfLanes
    modifies g`nErrs, res, exp
    ensures g.nErrs == old(g.nErrs)
    ensures res[..] == exp[..] == GeneratedDest(cv, fm)
  {
    InitDest(cv, fm, res, exp);
    RejectsIrreflexive(res[..], n);
    g.CheckResults(res, exp, n);
  }
}

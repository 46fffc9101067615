/** The acceptance test of `check_results`, as pure predicates over the half
    lanes of the two buffers.  The lanes are read as `unsigned short` and
    promoted to `int` before `+ 1` and `- 1`, so the arithmetic here is on
    unbounded integers and nothing wraps around at 16 bits. */
module ToleranceComparator {
  import opened V512Layout

  /** One lane passes when its patterns are equal or when the actual value
      is neither above `exp + 1` nor below `exp - 1`. */
  function LaneAccepted(got: U16, exp: U16): (ok: bool)
    ensures ok <==> -1 <= got - exp <= 1
  {
    var g: int, e: int := got, exp;
    !(g != e && (g > e + 1 || g < e - 1))
  }

  /** Some lane below `n` fails: the condition under which one call records
      an error. */
  predicate Rejects(got: seq<U16>, exp: seq<U16>, n: int)
    requires n <= |got| && n <= |exp|
    ensures Rejects(got, exp, n) ==> 1 <= n
  {
    exists i :: 0 <= i < n && !LaneAccepted(got[i], exp[i])
  }

  /** Lanes whose patterns differ by exactly one, in either direction, pass;
      lanes two or more apart fail. */
  lemma ToleranceBoundary(exp: U16, got: U16)
    ensures got == exp + 1 || got == exp - 1 ==> LaneAccepted(got, exp)
    ensures got >= exp + 2 || got <= exp - 2 ==> !LaneAccepted(got, exp)
  {
  }

  /** 0x0000 and 0xFFFF are 0xFFFF apart, not 1: neither accepts the other. */
  lemma NoWraparound()
    ensures !LaneAccepted(0xFFFF, 0x0000)
    ensures !LaneAccepted(0x0000, 0xFFFF)
  {
  }

  /** A buffer compared with itself never fails. */
  lemma RejectsIrreflexive(b: seq<U16>, n: int)
    requires n <= |b|
    ensures !Rejects(b, b, n)
  {
  }

  /** Only the first `n` lanes matter, and a count of zero or less checks
      nothing. */
  lemma RejectsPrefixOnly(got: seq<U16>, exp: seq<U16>, got': seq<U16>, exp': seq<U16>, n: int)
    requires n <= |got| && n <= |exp| && n <= |got'| && n <= |exp'|
    requires forall i :: 0 <= i < n ==> got[i] == got'[i] && exp[i] == exp'[i]
    ensures Rejects(got, exp, n) <==> Rejects(got', exp', n)
    ensures n <= 0 ==> !Rejects(got, exp, n)
  {
    if Rejects(got, exp, n) {
      var i :| 0 <= i < n && !LaneAccepted(got[i], exp[i]);
      assert !LaneAccepted(got'[i], exp'[i]);
    }
    if Rejects(got', exp', n) {
      var i :| 0 <= i < n && !LaneAccepted(got'[i], exp'[i]);
      assert !LaneAccepted(got[i], exp[i]);
    }
  }

  /** Moving one checked lane of an otherwise identical copy by `d` fails the
      comparison exactly when `d` is two or more in size. */
  lemma SingleLaneDeviation(exp: seq<U16>, k: int, d: int, n: int)
    requires 0 <= k < n <= |exp|
    requires 0 <= exp[k] + d < 0x1_0000
    ensures Rejects(exp[k := exp[k] + d], exp, n) <==> (d >= 2 || d <= -2)
  {
    var got := exp[k := exp[k] + d];
    if d >= 2 || d <= -2 {
      assert !LaneAccepted(got[k], exp[k]);
    } else {
      forall i | 0 <= i < n ensures LaneAccepted(got[i], exp[i]) {
        if i != k {
          assert got[i] == exp[i];
        }
      }
    }
  }
}

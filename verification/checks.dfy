/**
 * Input validation as an ordered list of checks: the validator reports the
 * reason of the first check that does not pass, and accepts the input when
 * every check passes.
 */
module Checks {

  /** One validation step: whether it passes and what is reported when it does not. */
  datatype Check<R> = Check(passes: bool, reason: R)

  /** The verdict of a validator. */
  datatype Verdict<R> = Valid | Invalid(reason: R)

  /** True when every check in `cs` passes. */
  predicate AllPass<R>(cs: seq<Check<R>>) {
    forall i :: 0 <= i < |cs| ==> cs[i].passes
  }

  /** True when `cs[i]` is the first check in `cs` that fails. */
  predicate FirstFailingAt<R>(cs: seq<Check<R>>, i: int) {
    0 <= i < |cs| && !cs[i].passes && forall j :: 0 <= j < i ==> cs[j].passes
  }

  /** Evaluates the checks in order and stops at the first failure. */
  function FirstFailure<R>(cs: seq<Check<R>>): (v: Verdict<R>)
    ensures v.Valid? <==> AllPass(cs)
    ensures v.Invalid? ==> exists i :: FirstFailingAt(cs, i) && cs[i].reason == v.reason
  {
    if |cs| == 0 then Valid
    else if !cs[0].passes then
      assert FirstFailingAt(cs, 0);
      Invalid(cs[0].reason)
    else
      var rest := FirstFailure(cs[1..]);
      if rest.Invalid? then
        assert exists i :: FirstFailingAt(cs, i) && cs[i].reason == rest.reason by {
          var i :| FirstFailingAt(cs[1..], i) && cs[1..][i].reason == rest.reason;
          assert FirstFailingAt(cs, i + 1);
        }
        rest
      else
        assert forall i :: 1 <= i < |cs| ==> cs[i] == cs[1..][i - 1];
        rest
  }

  /** The first failing check is unique, so the verdict is fully determined by it. */
  lemma FirstFailureIsFirstFailing<R>(cs: seq<Check<R>>, i: int)
    requires FirstFailingAt(cs, i)
    ensures FirstFailure(cs) == Invalid(cs[i].reason)
  {
    var v := FirstFailure(cs);
    var k :| FirstFailingAt(cs, k) && cs[k].reason == v.reason;
    assert k == i;
  }

  /** Checks placed after a failing prefix cannot change the verdict. */
  lemma {:induction false} FailurePrefixDecides<R>(a: seq<Check<R>>, b: seq<Check<R>>)
    requires !AllPass(a)
    ensures FirstFailure(a + b) == FirstFailure(a)
  {
    var v := FirstFailure(a);
    assert v.Invalid?;
    var i :| FirstFailingAt(a, i) && a[i].reason == v.reason;
    assert FirstFailingAt(a + b, i) by {
      forall j | 0 <= j <= i ensures (a + b)[j] == a[j] {
      }
    }
    FirstFailureIsFirstFailing(a + b, i);
  }

  /** A passing prefix is transparent: the verdict is the suffix's. */
  lemma {:induction false} PassingPrefixIsTransparent<R>(a: seq<Check<R>>, b: seq<Check<R>>)
    requires AllPass(a)
    ensures FirstFailure(a + b) == FirstFailure(b)
  {
    if |a| == 0 {
      assert a + b == b;
    } else {
      assert (a + b)[0] == a[0];
      assert (a + b)[1..] == a[1..] + b;
      assert AllPass(a[1..]) by {
        forall j | 0 <= j < |a[1..]| ensures a[1..][j].passes {
          assert a[1..][j] == a[j + 1];
        }
      }
      PassingPrefixIsTransparent(a[1..], b);
    }
  }

  /** A list of checks passes exactly when both of its halves pass. */
  lemma AllPassConcat<R>(a: seq<Check<R>>, b: seq<Check<R>>)
    ensures AllPass(a + b) <==> AllPass(a) && AllPass(b)
  {
    if AllPass(a) && AllPass(b) {
      forall i | 0 <= i < |a + b| ensures (a + b)[i].passes {
        if i >= |a| {
          assert (a + b)[i] == b[i - |a|];
        }
      }
    }
    if AllPass(a + b) {
      forall i | 0 <= i < |a| ensures a[i].passes {
        assert (a + b)[i] == a[i];
      }
      forall i | 0 <= i < |b| ensures b[i].passes {
        assert (a + b)[|a| + i] == b[i];
      }
    }
  }

  /** A reason whose checks all pass is never the one reported. */
  lemma NeverReported<R>(cs: seq<Check<R>>, r: R)
    requires forall c :: c in cs && c.reason == r ==> c.passes
    ensures FirstFailure(cs) != Invalid(r)
  {
  }
}

/** The acceptance-test gate as the machine evaluates it, loop by loop. */
module AtestGate {
  import opened Options
  import opened SessionTypes
  import opened ThreadSteps

  method CollectRunners(s: Record) returns (runners: set<string>)
    ensures runners == RunnersRequired(s.terms.acceptance)
  {
    runners := {};
    for n := 0 to |s.terms.acceptance|
      invariant forall x :: x in runners <==>
        x != "" && exists c :: c in s.terms.acceptance[..n] && c.executable && c.runner == Some(x)
    {
      var c := s.terms.acceptance[n];
      assert s.terms.acceptance[..n + 1] == s.terms.acceptance[..n] + [c];
      if c.executable && Truthy(c.runner) {
        runners := runners + {c.runner.value};
      }
    }
    assert s.terms.acceptance[..|s.terms.acceptance|] == s.terms.acceptance;
  }

  method SignCeremonyComplete(s: Record, profiles: seq<string>, hash: string) returns (ok: bool)
    ensures ok == CeremonyComplete(s, profiles, hash)
  {
    if !GateActive(s, profiles) {
      return true;
    }
    if !BothChallenged(s) {
      return false;
    }
    var left := CollectRunners(s);
    while left != {}
      invariant left <= RunnersRequired(s.terms.acceptance)
      invariant forall x :: x in RunnersRequired(s.terms.acceptance) - left ==>
                  PassedBy(s.reports, hash, x, Initiator) && PassedBy(s.reports, hash, x, Recipient)
      decreases left
    {
      var x :| x in left;
      if !PassedBy(s.reports, hash, x, Initiator) || !PassedBy(s.reports, hash, x, Recipient) {
        return false;
      }
      left := left - {x};
    }
    return true;
  }
}

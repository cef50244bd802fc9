/** The start of a run that the concrete counterexamples share, and how runs are put together. */
module SampleRuns {
  import opened Options
  import opened SessionTypes
  import opened ThreadSteps
  import opened MachineSteps
  import opened ThreadRuns

  /** A run of one event, and a run put together from two. */
  lemma RunOne(me: string, l: Local, thread: string, i: Input)
    requires Possible(me, l, i.event)
    ensures Feasible(me, l, thread, [i]) && Run(me, l, thread, [i]) == After(me, l, thread, i)
  {
    assert Feasible(me, After(me, l, thread, i), thread, [i][1..]);
  }

  lemma {:induction false} RunOn(me: string, l: Local, thread: string, a: seq<Input>, b: seq<Input>)
    requires Feasible(me, l, thread, a) && Feasible(me, Run(me, l, thread, a), thread, b)
    ensures Feasible(me, l, thread, a + b)
    ensures Run(me, l, thread, a + b) == Run(me, Run(me, l, thread, a), thread, b)
    decreases |a|
  {
    if a == [] {
      assert a + b == b;
    } else {
      assert (a + b)[1..] == a[1..] + b;
      RunOn(me, After(me, l, thread, a[0]), thread, a[1..], b);
    }
  }

  lemma Then(me: string, l: Local, thread: string, a: seq<Input>, i: Input)
    requires Feasible(me, l, thread, a) && Possible(me, Run(me, l, thread, a), i.event)
    ensures Feasible(me, l, thread, a + [i])
    ensures Run(me, l, thread, a + [i]) == After(me, Run(me, l, thread, a), thread, i)
  {
    RunOne(me, Run(me, l, thread, a), thread, i);
    RunOn(me, l, thread, a, [i]);
  }

  const TERMS := Terms("g", [], Budget(3, 100), Mandate([], [], None))
  const ENV := Env(1, true, map[], "n")

  /** Machine "i" opens a session with "r", and "r" accepts it. */
  const OPENING := [Input(Open("r", TERMS, true), ENV)] + [Input(Incoming("r", OpenApproved), ENV)]

  function Opened(): Local {
    EMPTY_LOCAL.(session := Some(NewSession("t", "i", "r", Initiator, TERMS, 1)))
  }

  function Accepted(): Local {
    Opened().(session := Some(Opened().session.value.(status := Live)))
  }

  lemma OpeningRuns()
    ensures Feasible("i", EMPTY_LOCAL, "t", OPENING) && Run("i", EMPTY_LOCAL, "t", OPENING) == Accepted()
  {
    assert After("i", EMPTY_LOCAL, "t", Input(Open("r", TERMS, true), ENV)) == Opened();
    assert After("i", Opened(), "t", Input(Incoming("r", OpenApproved), ENV)) == Accepted();
    RunOne("i", EMPTY_LOCAL, "t", Input(Open("r", TERMS, true), ENV));
    Then("i", EMPTY_LOCAL, "t", [Input(Open("r", TERMS, true), ENV)], Input(Incoming("r", OpenApproved), ENV));
  }
}

/** What holds in every state two linked machines can reach. */
module TwoPartyTheorems {
  import opened Options
  import opened SessionTypes
  import opened ThreadSteps
  import opened MachineSteps
  import opened ThreadInvariant
  import opened StepEffects
  import opened TwoParty
  import opened OpeningProofs
  import opened BudgetRefinement
  import opened BudgetAgreement
  import P = BudgetProtocol

  lemma StartRel(w: World) returns (d: P.Duo)
    requires w.alice != w.bob
    ensures Rel(w, START, d)
  {
    d := IdleDuo(0);
    BothIdle(0, map[]);
  }

  lemma Reach(w: World, mvs: seq<Move>) returns (d: P.Duo)
    requires w.alice != w.bob && Legal(w, START, mvs)
    ensures Rel(w, Play(w, START, mvs), d)
  {
    d := StartRel(w);
    d := RelRuns(w, START, d, mvs);
  }

  // ---- budget agreement ----

  /**
   * `x` raised its budget to `n` by approving proposal `p` of `y`. Its approval is still to be sent or
   * under way, and `y`, with the smaller budget, waits for just that answer.
   */
  ghost predicate Raised(x: Local, y: Local, xy: seq<Msg>, p: string, n: int)
    requires x.session.Some? && y.session.Some?
  {
    var s, t := x.session.value, y.session.value;
    && s.terms.budget.maxTurns == n && t.terms.budget.maxTurns < n
    && Decided(p, true) in s.decided
    && AskOf(t.extension) == Some(P.Ask(Offer(p, n, t.role), AwaitingPeer))
    && (AskOf(s.extension) == Some(P.Ask(Offer(p, n, t.role), ApprovedEmitting))
        || exists m :: m in xy && m.BudgetApproved? && m.payload.proposalId == p && m.payload.newMax == n)
  }

  lemma {:induction false} ApproveInChannel(ch: seq<Msg>, p: string, n: int)
    requires P.Approve(p, n) in BudgetMsgs(ch)
    ensures exists m :: m in ch && m.BudgetApproved? && m.payload.proposalId == p && m.payload.newMax == n
  {
    if P.Approve(p, n) in BudgetPart(ch[0]) {
      assert ch[0] in ch;
    } else {
      ApproveInChannel(ch[1..], p, n);
      var m :| m in ch[1..] && m.BudgetApproved? && m.payload.proposalId == p && m.payload.newMax == n;
      assert m in ch;
    }
  }

  lemma LeadIsRaise(x: Local, y: Local, ch: seq<Msg>, xy: seq<P.BMsg>, yx: seq<P.BMsg>, ids: map<string, Role>)
    requires x.session.Some? && y.session.Some? && DecidedOnce(x.session.value.decided)
    requires P.Both(View(x), View(y), xy, yx, ids) && xy == BudgetMsgs(ch) && P.Leads(View(x), View(y))
    ensures var o := View(y).ask.value.offer; Raised(x, y, ch, o.proposalId, o.newMax)
  {
    var o := View(y).ask.value.offer;
    VerdictsExact(x.session.value.decided, o.proposalId, true);
    if P.Approve(o.proposalId, o.newMax) in xy {
      ApproveInChannel(ch, o.proposalId, o.newMax);
    }
  }

  /**
   * Budget agreement: with both sessions live the two budgets are equal, or one side has raised its own
   * by an approval the other one is waiting for.
   */
  lemma BudgetsAgree(w: World, mvs: seq<Move>)
    requires w.alice != w.bob && Legal(w, START, mvs)
    ensures var s := Play(w, START, mvs);
            IsLive(s.a) && IsLive(s.b) ==>
              || s.a.session.value.terms.budget.maxTurns == s.b.session.value.terms.budget.maxTurns
              || (exists p, n :: Raised(s.a, s.b, s.ab, p, n))
              || (exists p, n :: Raised(s.b, s.a, s.ba, p, n))
  {
    var d := Reach(w, mvs);
    var s := Play(w, START, mvs);
    if IsLive(s.a) && IsLive(s.b) {
      if P.Leads(d.a, d.b) {
        LeadIsRaise(s.a, s.b, s.ab, d.ab, d.ba, d.ids);
      } else if P.Leads(d.b, d.a) {
        BothSwap(d.a, d.b, d.ab, d.ba, d.ids);
        LeadIsRaise(s.b, s.a, s.ba, d.ba, d.ab, d.ids);
      }
    }
  }

  /** When neither side waits for an answer to its own proposal, the budgets are equal. */
  lemma NothingOutstandingNothingApart(w: World, mvs: seq<Move>)
    requires w.alice != w.bob && Legal(w, START, mvs)
    ensures var s := Play(w, START, mvs);
            IsLive(s.a) && IsLive(s.b)
            && !(s.a.session.value.extension.Some? && s.a.session.value.extension.value.status == AwaitingPeer)
            && !(s.b.session.value.extension.Some? && s.b.session.value.extension.value.status == AwaitingPeer) ==>
              s.a.session.value.terms.budget.maxTurns == s.b.session.value.terms.budget.maxTurns
  {
    var d := Reach(w, mvs);
  }

  // ---- decisions ----

  /** No proposal is approved on one side and rejected on the other, and none is decided twice. */
  lemma DecisionsConsistent(w: World, mvs: seq<Move>, p: string)
    requires w.alice != w.bob && Legal(w, START, mvs)
    ensures var s := Play(w, START, mvs);
            s.a.session.Some? && s.b.session.Some? ==>
              && !(Decided(p, true) in s.a.session.value.decided && Decided(p, false) in s.b.session.value.decided)
              && !(Decided(p, false) in s.a.session.value.decided && Decided(p, true) in s.b.session.value.decided)
              && DecidedOnce(s.a.session.value.decided) && DecidedOnce(s.b.session.value.decided)
  {
    var d := Reach(w, mvs);
    var s := Play(w, START, mvs);
    if s.a.session.Some? && s.b.session.Some? {
      VerdictsExact(s.a.session.value.decided, p, true);
      VerdictsExact(s.a.session.value.decided, p, false);
      VerdictsExact(s.b.session.value.decided, p, true);
      VerdictsExact(s.b.session.value.decided, p, false);
      assert P.Approved(d.a, p) ==> !P.Rejected(d.b, p);
      assert P.Approved(d.b, p) ==> !P.Rejected(d.a, p);
    }
  }

  /** A queued proposal is one the side has not decided yet. */
  lemma QueuedIsUndecided(w: World, mvs: seq<Move>, l: Local)
    requires w.alice != w.bob && Legal(w, START, mvs)
    requires l == Play(w, START, mvs).a || l == Play(w, START, mvs).b
    ensures l.session.Some? && FirstOffer(l).Some? ==> !Knows(l.session.value.decided, FirstOffer(l).value.proposalId)
  {
    var d := Reach(w, mvs);
    if l.session.Some? && FirstOffer(l).Some? {
      VerdictsKnow(l.session.value.decided, FirstOffer(l).value.proposalId);
    }
  }

  // ---- opening ----

  lemma StepKeeps(w: World, s: Sys, mv: Move)
    requires Opened(w, s) && Enabled(w, s, mv)
    ensures Keeps(s.a, Next(w, s, mv).a) && Keeps(s.b, Next(w, s, mv).b)
  {
    match mv {
      case Act(Initiator, e, env) => StepGood(w.alice, s.a, w.thread, e, env);
      case Act(Recipient, e, env) => StepGood(w.bob, s.b, w.thread, e, env);
      case Deliver(Initiator, env) => StepGood(w.alice, s.a, w.thread, Incoming(w.bob, s.ba[0]), env);
      case Deliver(Recipient, env) => StepGood(w.bob, s.b, w.thread, Incoming(w.alice, s.ab[0]), env);
    }
  }

  lemma {:induction false} PlayKeeps(w: World, s: Sys, mvs: seq<Move>)
    requires Opened(w, s) && Legal(w, s, mvs)
    ensures Keeps(s.a, Play(w, s, mvs).a) && Keeps(s.b, Play(w, s, mvs).b)
    decreases |mvs|
  {
    if mvs != [] {
      var t := Next(w, s, mvs[0]);
      StepKeeps(w, s, mvs[0]);
      OpenedStep(w, s, mvs[0]);
      PlayKeeps(w, t, mvs[1..]);
      KeepsTrans(s.a, t.a, Play(w, t, mvs[1..]).a);
      KeepsTrans(s.b, t.b, Play(w, t, mvs[1..]).b);
    }
  }

  /**
   * This move is the accepted approval, by bob's human, of the opening item in bob's queue; `shown` are
   * the terms that item shows, which are the stored session's own.
   */
  predicate Opens(w: World, s: Sys, mv: Move, shown: Terms)
    requires w.alice != w.bob && Enabled(w, s, mv)
  {
    && mv.Act? && mv.who == Recipient && mv.event.ApproveOpenBy? && mv.event.viaHuman
    && BobDoes(w, s, mv.event, mv.env).reply == Done
    && |s.b.opens| == 1 && s.b.opens[0].id == mv.event.id && s.b.session.Some?
    && s.b.opens[0].kind == SessionOpen(shown, s.b.session.value.expiresAt) && s.b.session.value.terms == shown
  }

  /** Some move of the run is such an approval, of an item that shows these terms. */
  ghost predicate HumanOpened(w: World, s: Sys, mvs: seq<Move>, terms: Terms)
    requires w.alice != w.bob && Legal(w, s, mvs)
    decreases |mvs|
  {
    mvs != [] &&
      ((exists shown :: Opens(w, s, mvs[0], shown) && SameTerms(shown, terms))
       || HumanOpened(w, Next(w, s, mvs[0]), mvs[1..], terms))
  }

  lemma GateNeedsHuman(w: World, s: Sys, mv: Move)
    requires Opened(w, s) && Enabled(w, s, mv) && Next(w, s, mv).gate && !s.gate
    ensures s.b.session.Some? && Opens(w, s, mv, s.b.session.value.terms)
  {
  }

  lemma {:induction false} GateWasHuman(w: World, s: Sys, mvs: seq<Move>)
    requires Opened(w, s) && Legal(w, s, mvs) && !s.gate && Play(w, s, mvs).gate
    ensures Play(w, s, mvs).b.session.Some?
    ensures HumanOpened(w, s, mvs, Play(w, s, mvs).b.session.value.terms)
    decreases |mvs|
  {
    var t := Next(w, s, mvs[0]);
    OpenedStep(w, s, mvs[0]);
    if t.gate {
      GateNeedsHuman(w, s, mvs[0]);
      PlayKeeps(w, s, mvs);
      assert Opens(w, s, mvs[0], s.b.session.value.terms);
    } else {
      GateWasHuman(w, t, mvs[1..]);
    }
  }

  /**
   * Human-gated opening: an initiator session is live or signed only if the recipient's human approved
   * the queued item of this very opening earlier, accepted and showing these very terms. From then on both
   * records hold them, and no later run changes them.
   */
  lemma LiveOnlyBehindTheGate(w: World, before: seq<Move>, after: seq<Move>)
    requires w.alice != w.bob && Legal(w, START, before) && Legal(w, Play(w, START, before), after)
    ensures var s := Play(w, START, before);
            var t := Play(w, s, after);
            Running(s.a) ==>
              && HumanOpened(w, START, before, s.a.session.value.terms)
              && s.b.session.Some? && t.a.session.Some? && t.b.session.Some?
              && SameTerms(s.a.session.value.terms, s.b.session.value.terms)
              && SameTerms(s.a.session.value.terms, t.a.session.value.terms)
              && SameTerms(s.b.session.value.terms, t.b.session.value.terms)
  {
    var d := Reach(w, before);
    var e := StartRel(w);
    var s := Play(w, START, before);
    PlayKeeps(w, s, after);
    if Running(s.a) {
      GateWasHuman(w, START, before);
      OpenedTo(w, START, before, s.b.session.value.terms, s.a.session.value.terms);
    }
  }

  lemma {:induction false} OpenedTo(w: World, s: Sys, mvs: seq<Move>, terms: Terms, same: Terms)
    requires w.alice != w.bob && Legal(w, s, mvs) && HumanOpened(w, s, mvs, terms) && SameTerms(terms, same)
    ensures HumanOpened(w, s, mvs, same)
    decreases |mvs|
  {
    if HumanOpened(w, Next(w, s, mvs[0]), mvs[1..], terms) {
      OpenedTo(w, Next(w, s, mvs[0]), mvs[1..], terms, same);
    }
  }

  predicate IsSigned(l: Local) {
    l.session.Some? && l.session.value.status == Signed
  }

  lemma SignedStepA(w: World, s: Sys, e: Event, env: Env)
    requires Opened(w, s) && IsSigned(s.a) && Possible(w.alice, s.a, e) && !e.Open?
    requires e.Incoming? ==> s.ba != [] && e == Incoming(w.bob, s.ba[0])
    ensures !IsLive(Step(w.alice, s.a, w.thread, e, env).local)
  {
    TookStep(w, w.alice, s.a, e, env);
  }

  lemma SignedStepB(w: World, s: Sys, e: Event, env: Env)
    requires Opened(w, s) && IsSigned(s.b) && Possible(w.bob, s.b, e) && !e.Open?
    requires e.Incoming? ==> s.ab != [] && e == Incoming(w.alice, s.ab[0])
    ensures !IsLive(Step(w.bob, s.b, w.thread, e, env).local)
  {
    TookStep(w, w.bob, s.b, e, env);
  }

  lemma SignedStep(w: World, s: Sys, mv: Move)
    requires Opened(w, s) && Enabled(w, s, mv)
    ensures IsSigned(s.a) ==> !IsLive(Next(w, s, mv).a)
    ensures IsSigned(s.b) ==> !IsLive(Next(w, s, mv).b)
  {
    match mv {
      case Act(Initiator, e, env) => if IsSigned(s.a) { SignedStepA(w, s, e, env); }
      case Act(Recipient, e, env) => if IsSigned(s.b) { SignedStepB(w, s, e, env); }
      case Deliver(Initiator, env) => if IsSigned(s.a) { SignedStepA(w, s, Incoming(w.bob, s.ba[0]), env); }
      case Deliver(Recipient, env) => if IsSigned(s.b) { SignedStepB(w, s, Incoming(w.alice, s.ab[0]), env); }
    }
  }

  /** Between two honest machines a signed session never goes back to live, though a repeated approval could do that. */
  lemma SignedNeverReopens(w: World, mvs: seq<Move>, mv: Move)
    requires w.alice != w.bob && Legal(w, START, mvs) && Enabled(w, Play(w, START, mvs), mv)
    ensures var s := Play(w, START, mvs);
            var t := Next(w, s, mv);
            (IsSigned(s.a) ==> !IsLive(t.a)) && (IsSigned(s.b) ==> !IsLive(t.b))
  {
    var d := Reach(w, mvs);
    SignedStep(w, Play(w, START, mvs), mv);
  }
}

/**
 * Rule N4 of the protocol document on one machine: what can raise the turn budget, and to which number.
 * An incoming approval is matched by its proposal id; its number is not compared with the proposed one.
 */
module ApprovalRule {
  import opened Options
  import opened SessionTypes
  import opened ThreadSteps
  import opened BudgetSteps
  import opened MachineSteps
  import opened ThreadInvariant
  import opened ThreadRuns
  import opened SampleRuns

  function MaxOf(l: Local): int {
    if l.session.None? then 0 else l.session.value.terms.budget.maxTurns
  }

  /** The budget of a stored session is the same. */
  ghost predicate SameMax(l: Local, m: Local) {
    l.session.Some? ==> m.session.Some? && MaxOf(m) == MaxOf(l)
  }

  /** A human approves the peer's queued offer. */
  ghost predicate ApprovesPeerOffer(me: string, l: Local, e: Event, env: Env)
    requires l.session.Some?
  {
    && e.ApproveExtendBy? && e.viaHuman && FindId(l.budgets, e.id).Some?
    && var offer := OfferOf(FindId(l.budgets, e.id).value);
       && offer.Some? && offer.value.proposer != l.session.value.role
       && l.session.value.status == Live && env.now <= l.session.value.terms.budget.deadline
  }

  /** The peer's approval of this side's own awaited proposal, with a number above the budget. */
  ghost predicate AnswersOwnOffer(l: Local, e: Event, env: Env)
    requires l.session.Some?
  {
    && e.Incoming? && e.msg.BudgetApproved?
    && var s, p := l.session.value, e.msg.payload;
       && s.status == Live && env.now <= s.terms.budget.deadline
       && p.thread == s.thread && Participant(s, e.from).Some?
       && s.extension.Some? && s.extension.value.status == AwaitingPeer
       && s.extension.value.offer.proposalId == p.proposalId && p.newMax > s.terms.budget.maxTurns
  }

  lemma AnswerKeepsMax(l: Local, id: string, text: string, viaHuman: bool, env: Env)
    ensures SameMax(l, ApproveOpen(l, id, viaHuman, env).local)
    ensures SameMax(l, RejectOpen(l, id, text, viaHuman, env).local)
  {
  }

  lemma OpeningKeepsMax(me: string, l: Local, thread: string, e: Event, env: Env)
    requires Possible(me, l, e) && OnOpening(e)
    ensures SameMax(l, Step(me, l, thread, e, env).local)
  {
    match e {
      case ApproveOpenBy(id, viaHuman) => AnswerKeepsMax(l, id, "", viaHuman, env);
      case RejectOpenBy(id, text, viaHuman) => AnswerKeepsMax(l, id, text, viaHuman, env);
      case Expire => assert SameMax(l, ExpireSession(me, l, env).local);
      case Open(to, terms, allowed) =>
      case LookForOpen => assert SameMax(l, ResolveOpen(l, env));
    }
  }

  lemma SignKeepsMax(me: string, l: Local, hash: string, env: Env)
    ensures SameMax(l, Sign(me, l, hash, env).local)
  {
  }

  lemma TalkKeepsMax(me: string, l: Local, thread: string, e: Event, env: Env)
    requires OnTalk(e)
    ensures SameMax(l, Step(me, l, thread, e, env).local)
  {
    match e {
      case SayTurn(wellFormed) => assert SameMax(l, TakeTurn(me, l, wellFormed, env).local);
      case SayChallenge => assert SameMax(l, FileChallenge(me, l, env).local);
      case SayReport(report) => assert SameMax(l, FileReport(me, l, report, env).local);
      case SayBadly => assert SameMax(l, SayNothing(l, env).local);
      case SignHash(hash) => SignKeepsMax(me, l, hash, env);
    }
  }

  lemma RatifyKeepsMax(me: string, l: Local, byItem: Option<string>, given: Option<string>, viaHuman: bool, env: Env)
    ensures SameMax(l, RatifyBy(me, l, byItem, given, viaHuman, env).local)
  {
  }

  lemma CloseKeepsMax(l: Local, reason: Option<string>, env: Env)
    ensures SameMax(l, ThreadClose(l, reason, env).local)
  {
  }

  lemma CareKeepsMax(me: string, l: Local, thread: string, e: Event, env: Env)
    requires OnCare(e)
    ensures SameMax(l, Step(me, l, thread, e, env).local)
  {
    hide RatifyBy, ThreadClose;
    match e {
      case RatifyWith(byItem, given, viaHuman) => RatifyKeepsMax(me, l, byItem, given, viaHuman, env);
      case CloseThread(reason) => CloseKeepsMax(l, reason, env);
      case RevokeBond(peer) => assert SameMax(l, BondRevoke(me, l, peer));
      case LookForRatify => assert SameMax(l, ResolveRatify(me, l, env));
      case AskStatus => assert SameMax(l, ReadStatus(me, l, env).local);
    }
  }

  lemma DraftKeepsMax(me: string, l: Local, thread: string, e: Event, env: Env)
    requires e.Extend? || e.Retry? || e.RejectExtendBy?
    ensures SameMax(l, Step(me, l, thread, e, env).local)
  {
  }

  lemma ProposeKeepsMax(me: string, l: Local, from: string, p: Payload, env: Env)
    ensures SameMax(l, IncomingPropose(me, l, from, p, env).local)
  {
  }

  lemma WordKeepsMax(me: string, l: Local, from: string, msg: Msg, env: Env)
    requires l.session.Some?
    ensures SameMax(l, Negotiation(me, l, l.session.value, from, msg, env).local)
  {
  }

  lemma DeliverKeepsMax(me: string, l: Local, thread: string, from: string, msg: Msg, env: Env)
    requires l.session.Some? && !msg.BudgetApproved?
    ensures SameMax(l, Deliver(me, l, thread, from, msg, env).local)
  {
    match msg {
      case BudgetPropose(p) => ProposeKeepsMax(me, l, from, p, env);
      case Malformed | NegoOpen(_) | BudgetReject(_) =>
      case OpenApproved | OpenReject(_) | OpenExpiredMsg =>
      case _ => WordKeepsMax(me, l, from, msg, env);
    }
  }

  /** An approval by this side's human raises the budget exactly to the peer's queued number. */
  lemma HumanRaises(me: string, l: Local, id: string, viaHuman: bool, env: Env)
    requires Inv(me, l) && l.session.Some?
    ensures var m := ApproveExtend(me, l, id, viaHuman, env).local;
            if ApprovesPeerOffer(me, l, ApproveExtendBy(id, viaHuman), env)
            then m.session.Some? && MaxOf(m) == OfferOf(FindId(l.budgets, id).value).value.newMax > MaxOf(l)
            else SameMax(l, m)
  {
  }

  lemma AnswerRaises(me: string, l: Local, thread: string, from: string, p: Payload, env: Env)
    requires Inv(me, l) && l.session.Some?
    ensures var m := Receive(me, l, thread, from, BudgetApproved(p), env).local;
            if AnswersOwnOffer(l, Incoming(from, BudgetApproved(p)), env)
            then
              && m.session.Some? && MaxOf(m) == p.newMax
              && l.session.value.extension.value.offer.proposer == l.session.value.role
            else SameMax(l, m)
  {
  }

  /**
   * Over all events the budget moves in exactly two ways: this side's human approves the peer's queued
   * offer, to its number, or the peer answers this side's own awaited proposal by its id, to the number
   * in the answer.
   */
  lemma RaisedOnlyBy(me: string, l: Local, thread: string, e: Event, env: Env)
    requires Inv(me, l) && l.session.Some? && Possible(me, l, e)
    ensures var m := Step(me, l, thread, e, env).local;
            && m.session.Some?
            && (MaxOf(m) != MaxOf(l) <==> ApprovesPeerOffer(me, l, e, env) || AnswersOwnOffer(l, e, env))
            && (ApprovesPeerOffer(me, l, e, env) ==> MaxOf(m) == OfferOf(FindId(l.budgets, e.id).value).value.newMax)
            && (AnswersOwnOffer(l, e, env) ==> MaxOf(m) == e.msg.payload.newMax)
  {
    hide HandleOpen, ApproveOpen, RejectOpen, ExpireSession, ResolveOpen, TakeTurn, FileChallenge, FileReport,
         SayNothing, Sign, RatifyBy, ResolveRatify, ReadStatus, BondRevoke, ThreadClose, ExtendBudget, ApproveExtend,
         RejectExtend, RetryExtend, Deliver;
    if OnOpening(e) {
      OpeningKeepsMax(me, l, thread, e, env);
    } else if OnTalk(e) {
      TalkKeepsMax(me, l, thread, e, env);
    } else if OnCare(e) {
      CareKeepsMax(me, l, thread, e, env);
    } else if e.ApproveExtendBy? {
      HumanRaises(me, l, e.id, e.viaHuman, env);
    } else if OnBudget(e) {
      DraftKeepsMax(me, l, thread, e, env);
    } else if e.msg.BudgetApproved? {
      AnswerRaises(me, l, thread, e.from, e.msg.payload, env);
    } else {
      assert SameMax(l, EnsureLive(l, env.now));
      DeliverKeepsMax(me, EnsureLive(l, env.now), thread, e.from, e.msg, env);
    }
  }

  /** The budget an accepted answer sets is the number this side proposed exactly if the answer repeats it. */
  lemma AnswerKeepsTheNumberIff(me: string, l: Local, thread: string, from: string, p: Payload, env: Env)
    requires Inv(me, l) && l.session.Some? && Receive(me, l, thread, from, BudgetApproved(p), env).reply == Done
    ensures var k := l.session.value.extension;
            && k.Some? && k.value.offer.proposer == l.session.value.role && k.value.offer.proposalId == p.proposalId
            && var raised := MaxOf(Receive(me, l, thread, from, BudgetApproved(p), env).local);
               raised == k.value.offer.newMax <==> p.newMax == k.value.offer.newMax
  {
  }

  // ---- a run in which the two numbers differ ----

  /** The human approved a raise to 5, which goes out, and the answer raises to a million. */
  function OverRun(): seq<Input> {
    OPENING + [Input(Extend(5, "p"), ENV)] + [Input(ApproveExtendBy("n", true), ENV)]
  }

  function Awaiting(): Local {
    var extension := Some(Extension(Offer("p", 5, Initiator), AwaitingPeer, None));
    Accepted().(session := Some(Accepted().session.value.(extension := extension)))
  }

  function Drafted(): Local {
    Accepted().(budgets := [Item("n", "t", "r", BudgetExtend(Some(Offer("p", 5, Initiator))))])
  }

  lemma DraftGoes()
    ensures After("i", Accepted(), "t", Input(Extend(5, "p"), ENV)) == Drafted()
    ensures After("i", Drafted(), "t", Input(ApproveExtendBy("n", true), ENV)) == Awaiting()
  {
  }

  lemma AnswerGoes()
    ensures var answer := Input(Incoming("r", BudgetApproved(Payload("t", "p", 1_000_000, None))), ENV);
            MaxOf(After("i", Awaiting(), "t", answer)) == 1_000_000
  {
  }

  lemma AnswerMayOvershoot()
    ensures var answer := Input(Incoming("r", BudgetApproved(Payload("t", "p", 1_000_000, None))), ENV);
            && Feasible("i", EMPTY_LOCAL, "t", OverRun()) && Feasible("i", EMPTY_LOCAL, "t", OverRun() + [answer])
            && Run("i", EMPTY_LOCAL, "t", OverRun()) == Awaiting()
            && MaxOf(Run("i", EMPTY_LOCAL, "t", OverRun() + [answer])) == 1_000_000
  {
    OpeningRuns();
    DraftGoes();
    Then("i", EMPTY_LOCAL, "t", OPENING, Input(Extend(5, "p"), ENV));
    Then("i", EMPTY_LOCAL, "t", OPENING + [Input(Extend(5, "p"), ENV)], Input(ApproveExtendBy("n", true), ENV));
    var answer := Input(Incoming("r", BudgetApproved(Payload("t", "p", 1_000_000, None))), ENV);
    AnswerGoes();
    Then("i", EMPTY_LOCAL, "t", OverRun(), answer);
  }
}

/**
 * The numbered session rules of the protocol document, against what the handlers do. N2 is in
 * `SignatureRule`, N4 in `ApprovalRule` for one machine and in `BudgetGate` for two.
 */
module NormativeRules {
  import opened Options
  import opened SessionTypes
  import opened ThreadSteps
  import opened BudgetSteps
  import opened MachineSteps
  import opened ThreadInvariant
  import opened ThreadRuns
  import opened SampleRuns
  import opened SignatureRule

  // ---- N1: redelivered openings ----

  /** A repeated opening changes no stored session, whoever sends it and whatever it proposes. */
  lemma RedeliveryChangesNothing(me: string, l: Local, thread: string, from: string, terms: Terms, env: Env)
    requires l.session.Some?
    ensures var o := Receive(me, l, thread, from, NegoOpen(terms), env);
            o.local == EnsureLive(l, env.now) && o.sent == [] && !o.unbond
  {
  }

  // ---- the transitions out of signed ----

  /** An approval notice of the recipient makes a session live again unless it has ended. */
  lemma ApprovalNoticeWakesUnlessEnded(me: string, l: Local, thread: string, from: string, env: Env)
    requires l.session.Some? && Participant(l.session.value, from) == Some(Recipient)
    ensures var m := EnsureLive(l, env.now);
            var o := Receive(me, l, thread, from, OpenApproved, env);
            o.local.session.value.status == Live <==> !Terminal(m.session.value.status)
  {
    assert FromRecipient(EnsureLive(l, env.now).session.value, from).None?;
  }

  ghost predicate StatusIs(l: Local, st: Status) {
    l.session.Some? && l.session.value.status == st
  }

  predicate WakingNotice(s: Record, e: Event) {
    e.Incoming? && e.msg.OpenApproved? && Participant(s, e.from) == Some(Recipient)
  }

  lemma OpeningNeverWakes(me: string, l: Local, thread: string, e: Event, env: Env)
    requires Inv(me, l) && StatusIs(l, Signed) && Possible(me, l, e) && OnOpening(e)
    ensures !StatusIs(Step(me, l, thread, e, env).local, Live)
  {
  }

  lemma TalkNeverWakes(me: string, l: Local, thread: string, e: Event, env: Env)
    requires StatusIs(l, Signed) && OnTalk(e)
    ensures !StatusIs(Step(me, l, thread, e, env).local, Live)
  {
  }

  lemma CareNeverWakes(me: string, l: Local, thread: string, e: Event, env: Env)
    requires StatusIs(l, Signed) && OnCare(e)
    ensures !StatusIs(Step(me, l, thread, e, env).local, Live)
  {
  }

  lemma BudgetNeverWakes(me: string, l: Local, thread: string, e: Event, env: Env)
    requires StatusIs(l, Signed) && OnBudget(e)
    ensures !StatusIs(Step(me, l, thread, e, env).local, Live)
  {
  }

  lemma HearingWakesIff(me: string, l: Local, thread: string, from: string, msg: Msg, env: Env)
    requires StatusIs(l, Signed)
    ensures StatusIs(Receive(me, l, thread, from, msg, env).local, Live)
            <==> msg.OpenApproved? && Participant(l.session.value, from) == Some(Recipient)
  {
    assert EnsureLive(l, env.now) == l;
  }

  /**
   * The transition table has no way from signed back to live. Over all events there is exactly one: an
   * approval notice that comes from the recipient.
   */
  lemma SignedWakesIff(me: string, l: Local, thread: string, e: Event, env: Env)
    requires Inv(me, l) && StatusIs(l, Signed) && Possible(me, l, e)
    ensures StatusIs(Step(me, l, thread, e, env).local, Live) <==> WakingNotice(l.session.value, e)
  {
    if OnOpening(e) {
      OpeningNeverWakes(me, l, thread, e, env);
    } else if OnTalk(e) {
      TalkNeverWakes(me, l, thread, e, env);
    } else if OnCare(e) {
      CareNeverWakes(me, l, thread, e, env);
    } else if OnBudget(e) {
      BudgetNeverWakes(me, l, thread, e, env);
    } else {
      HearingWakesIff(me, l, thread, e.from, e.msg, env);
    }
  }

  lemma SecondNoticeGoes()
    ensures StatusIs(SignedTwice("x", "x"), Signed)
    ensures StatusIs(After("i", SignedTwice("x", "x"), "t", Input(Incoming("r", OpenApproved), ENV)), Live)
  {
    HearingWakesIff("i", SignedTwice("x", "x"), "t", "r", OpenApproved, ENV);
  }

  /** A run from nothing that takes the way: signed by both, then the recipient's notice once more. */
  lemma SignedWakes()
    ensures var again := Input(Incoming("r", OpenApproved), ENV);
            var ins := SigningRun("x", "x") + [again];
            && Feasible("i", EMPTY_LOCAL, "t", SigningRun("x", "x")) && Feasible("i", EMPTY_LOCAL, "t", ins)
            && StatusIs(Run("i", EMPTY_LOCAL, "t", SigningRun("x", "x")), Signed)
            && StatusIs(Run("i", EMPTY_LOCAL, "t", ins), Live)
  {
    SigningRunSigns("x", "x");
    SecondNoticeGoes();
    Then("i", EMPTY_LOCAL, "t", SigningRun("x", "x"), Input(Incoming("r", OpenApproved), ENV));
  }

  // ---- N3: participants only ----

  /** What an outsider is told; a few checks come before the one for participants. */
  function OutsiderReply(s: Record, msg: Msg): Reply {
    match msg
    case Malformed => Refused("invalid_payload")
    case NegoOpen(_) => if s.status == Pending then Refused("initiator_mismatch") else Done
    case BudgetPropose(p) => OutsiderBudgetReply(s, p)
    case BudgetApproved(p) => OutsiderBudgetReply(s, p)
    case BudgetReject(p) => OutsiderBudgetReply(s, p)
    case _ => Refused("not_a_participant")
  }

  function OutsiderBudgetReply(s: Record, p: Payload): Reply {
    if s.status != Live then Refused("session_not_live")
    else if p.thread != s.thread then Refused("invalid_payload")
    else Refused("not_a_participant")
  }

  /**
   * An envelope of anybody else leaves a stored session as it is, but for the local deadline, and is
   * answered not_a_participant unless it is malformed, an opening, or a budget message that does not fit.
   */
  lemma OutsiderChangesNothing(me: string, l: Local, thread: string, from: string, msg: Msg, env: Env)
    requires l.session.Some? && Participant(l.session.value, from).None?
    ensures var m := EnsureLive(l, env.now);
            Receive(me, l, thread, from, msg, env) == Out(m, [], OutsiderReply(m.session.value, msg), false)
  {
  }

  // ---- co-signed sessions ----

  ghost predicate CoSignedOn(l: Local, h: string) {
    l.session.Some? && l.session.value.coSignedHash == Some(h)
  }

  /** A human ratification of a thread, or of an item still queued, on another hash. */
  predicate Recosigns(l: Local, e: Event, h: string)
    requires l.session.Some?
  {
    && e.RatifyWith? && e.viaHuman
    && var item := if e.byItem.Some? then FindId(l.ratifies, e.byItem.value) else None;
       && (e.byItem.Some? ==> item.Some?)
       && var wanted := if item.Some? && item.value.kind.Ratify? then Some(item.value.kind.artifactHash) else e.given;
          wanted.Some? && wanted.value != "" && wanted.value != h
  }

  lemma CoSignedQuietly(me: string, l: Local, thread: string, e: Event, env: Env, h: string)
    requires Inv(me, l) && CoSignedOn(l, h) && Possible(me, l, e) && (OnOpening(e) || OnTalk(e))
    ensures CoSignedOn(Step(me, l, thread, e, env).local, h)
  {
    assert EnsureLive(l, env.now) == l;
  }

  lemma CoSignedCare(me: string, l: Local, thread: string, e: Event, env: Env, h: string)
    requires Inv(me, l) && CoSignedOn(l, h) && OnCare(e) && !e.RatifyWith?
    ensures CoSignedOn(Step(me, l, thread, e, env).local, h)
  {
    assert EnsureLive(l, env.now) == l;
  }

  lemma CoSignedRatify(me: string, l: Local, e: Event, env: Env, h: string)
    requires Inv(me, l) && CoSignedOn(l, h) && e.RatifyWith?
    ensures CoSignedOn(RatifyBy(me, l, e.byItem, e.given, e.viaHuman, env).local, h) <==> !Recosigns(l, e, h)
  {
  }

  lemma CoSignedBudget(me: string, l: Local, thread: string, e: Event, env: Env, h: string)
    requires Inv(me, l) && CoSignedOn(l, h) && OnBudget(e)
    ensures CoSignedOn(Step(me, l, thread, e, env).local, h)
  {
    assert EnsureLive(l, env.now) == l;
  }

  lemma CoSignedHears(me: string, l: Local, thread: string, from: string, msg: Msg, env: Env, h: string)
    requires Inv(me, l) && CoSignedOn(l, h)
    ensures CoSignedOn(Receive(me, l, thread, from, msg, env).local, h)
  {
    assert EnsureLive(l, env.now) == l;
  }

  /** A co-signed hash is stable under every event but one: a human ratifying the closed session on another hash. */
  lemma CoSignedHashStaysIff(me: string, l: Local, thread: string, e: Event, env: Env, h: string)
    requires Inv(me, l) && CoSignedOn(l, h) && Possible(me, l, e)
    ensures CoSignedOn(Step(me, l, thread, e, env).local, h) <==> !Recosigns(l, e, h)
  {
    if OnOpening(e) || OnTalk(e) {
      CoSignedQuietly(me, l, thread, e, env, h);
    } else if e.RatifyWith? {
      CoSignedRatify(me, l, e, env, h);
    } else if OnCare(e) {
      CoSignedCare(me, l, thread, e, env, h);
    } else if OnBudget(e) {
      CoSignedBudget(me, l, thread, e, env, h);
    } else {
      CoSignedHears(me, l, thread, e.from, e.msg, env, h);
    }
  }

  // ---- N5: revocation ----

  /**
   * Revoking the bond closes every session with the peer that had not ended, drops whatever was queued for it and
   * an extension that was under way, and keeps all co-sign evidence.
   */
  lemma RevokeClosesAndKeepsEvidence(me: string, l: Local, peer: string)
    requires l.session.Some? && PeerFor(l.session.value, me) == peer
    ensures var s := l.session.value;
            var t := BondRevoke(me, l, peer).session;
            && t.Some? && t.value.signHashes == s.signHashes && t.value.signatures == s.signatures
            && t.value.coSignedHash == s.coSignedHash && t.value.ratified == s.ratified
            && (if Terminal(s.status) then t.value == s
                else t.value.status == Closed && t.value.rejectReason == Some("bond_revoked"))
            && (s.status == Live ==> t.value.extension.None?)
            && BondRevoke(me, l, peer) == Local(t, [], [], [])
  {
  }

  /** A run from nothing to a session that was revoked and is co-signed all the same. */
  function RevokedRun(): seq<Input> {
    SigningRun("x", "x") + [Input(Incoming("r", RatifiedMsg), ENV)] + [Input(RevokeBond("r"), ENV)]
  }

  function RatifiedByPeer(): Local {
    var l := SignedTwice("x", "x");
    l.(session := Some(l.session.value.(ratified := {Recipient})))
  }

  lemma PeerRatificationGoes()
    ensures After("i", SignedTwice("x", "x"), "t", Input(Incoming("r", RatifiedMsg), ENV)) == RatifiedByPeer()
  {
    assert {} + {Recipient} == {Recipient};
    assert EnsureLive(SignedTwice("x", "x"), 1) == SignedTwice("x", "x");
  }

  lemma RevocationGoes()
    requires Inv("i", RatifiedByPeer())
    ensures var l := After("i", RatifiedByPeer(), "t", Input(RevokeBond("r"), ENV));
            Barred(l) && l.session.value.role == Initiator && l.session.value.ratified == {Recipient}
            && l.session.value.artifactHash == Some("x")
  {
    RevokeBars("i", RatifiedByPeer(), "r");
  }

  lemma RevokedRunBars()
    ensures Feasible("i", EMPTY_LOCAL, "t", RevokedRun())
    ensures var l := Run("i", EMPTY_LOCAL, "t", RevokedRun());
            Barred(l) && Inv("i", l) && l.session.value.role == Initiator && l.session.value.ratified == {Recipient}
            && l.session.value.artifactHash == Some("x")
  {
    var ins := SigningRun("x", "x") + [Input(Incoming("r", RatifiedMsg), ENV)];
    SigningRunSigns("x", "x");
    PeerRatificationGoes();
    Then("i", EMPTY_LOCAL, "t", SigningRun("x", "x"), Input(Incoming("r", RatifiedMsg), ENV));
    RunKeeps("i", EMPTY_LOCAL, "t", ins);
    RevocationGoes();
    Then("i", EMPTY_LOCAL, "t", ins, Input(RevokeBond("r"), ENV));
    RunKeeps("i", EMPTY_LOCAL, "t", RevokedRun());
  }

  /** The one event past a revocation is real: a direct ratification co-signs the revoked session. */
  lemma RevokedIsCoSigned()
    ensures var last := Input(RatifyWith(None, None, true), ENV);
            && Feasible("i", EMPTY_LOCAL, "t", RevokedRun()) && Feasible("i", EMPTY_LOCAL, "t", RevokedRun() + [last])
            && Barred(Run("i", EMPTY_LOCAL, "t", RevokedRun()))
            && var m := Run("i", EMPTY_LOCAL, "t", RevokedRun() + [last]);
               m.session.Some? && m.session.value.coSignedHash.Some?
  {
    RevokedRunBars();
    var l := Run("i", EMPTY_LOCAL, "t", RevokedRun());
    BarredStep("i", l, "t", RatifyWith(None, None, true), ENV);
    Then("i", EMPTY_LOCAL, "t", RevokedRun(), Input(RatifyWith(None, None, true), ENV));
  }

  // ---- N6: counted turns ----

  function TurnsIn(l: Local): int {
    if l.session.None? then 0 else l.session.value.turnCount
  }

  /** An accepted turn, said by this side or heard from the peer. */
  predicate IsTurn(me: string, l: Local, thread: string, i: Input)
    requires Possible(me, l, i.event)
  {
    && (i.event.SayTurn? || (i.event.Incoming? && i.event.msg.Turn?))
    && Step(me, l, thread, i.event, i.env).reply == Done
  }

  lemma DeadlineKeepsTurns(l: Local, now: int)
    ensures TurnsIn(EnsureLive(l, now)) == TurnsIn(l)
  {
  }

  lemma OpeningKeepsTurns(me: string, l: Local, thread: string, e: Event, env: Env)
    requires Possible(me, l, e) && OnOpening(e)
    ensures TurnsIn(Step(me, l, thread, e, env).local) == TurnsIn(l)
  {
  }

  lemma TalkCountsTurns(me: string, l: Local, thread: string, e: Event, env: Env)
    requires OnTalk(e)
    ensures var o := Step(me, l, thread, e, env);
            TurnsIn(o.local) == TurnsIn(l) + if e.SayTurn? && o.reply == Done then 1 else 0
  {
    DeadlineKeepsTurns(l, env.now);
  }

  lemma CareKeepsTurns(me: string, l: Local, thread: string, e: Event, env: Env)
    requires OnCare(e)
    ensures TurnsIn(Step(me, l, thread, e, env).local) == TurnsIn(l)
  {
  }

  lemma BudgetKeepsTurns(me: string, l: Local, thread: string, e: Event, env: Env)
    requires OnBudget(e)
    ensures TurnsIn(Step(me, l, thread, e, env).local) == TurnsIn(l)
  {
  }

  lemma DeliverCountsTurns(me: string, l: Local, thread: string, from: string, msg: Msg, env: Env)
    ensures var o := Deliver(me, l, thread, from, msg, env);
            TurnsIn(o.local) == TurnsIn(l) + if msg.Turn? && o.reply == Done then 1 else 0
  {
  }

  lemma StepCountsTurns(me: string, l: Local, thread: string, i: Input)
    requires Possible(me, l, i.event)
    ensures TurnsIn(After(me, l, thread, i)) == TurnsIn(l) + if IsTurn(me, l, thread, i) then 1 else 0
  {
    var e, env := i.event, i.env;
    if OnOpening(e) {
      OpeningKeepsTurns(me, l, thread, e, env);
    } else if OnTalk(e) {
      TalkCountsTurns(me, l, thread, e, env);
    } else if OnCare(e) {
      CareKeepsTurns(me, l, thread, e, env);
    } else if OnBudget(e) {
      BudgetKeepsTurns(me, l, thread, e, env);
    } else {
      DeadlineKeepsTurns(l, env.now);
      DeliverCountsTurns(me, EnsureLive(l, env.now), thread, e.from, e.msg, env);
    }
  }

  ghost function AcceptedTurns(me: string, l: Local, thread: string, ins: seq<Input>): nat
    requires Feasible(me, l, thread, ins)
    decreases |ins|
  {
    if ins == [] then 0
    else (if IsTurn(me, l, thread, ins[0]) then 1 else 0) + AcceptedTurns(me, After(me, l, thread, ins[0]), thread, ins[1..])
  }

  /** The turn count is the number of turns accepted in either direction, and nothing else moves it. */
  lemma {:induction false} TurnCountIsDerived(me: string, l: Local, thread: string, ins: seq<Input>)
    requires Feasible(me, l, thread, ins)
    ensures TurnsIn(Run(me, l, thread, ins)) == TurnsIn(l) + AcceptedTurns(me, l, thread, ins)
    decreases |ins|
  {
    if ins != [] {
      StepCountsTurns(me, l, thread, ins[0]);
      TurnCountIsDerived(me, After(me, l, thread, ins[0]), thread, ins[1..]);
    }
  }

  // ---- and against the wire ----

  /** A turn envelope that went out or came in. */
  predicate OnTheWire(me: string, l: Local, thread: string, i: Input)
    requires Possible(me, l, i.event)
  {
    if i.event.SayTurn? then Step(me, l, thread, i.event, i.env).sent != [] else i.event.Incoming? && i.event.msg.Turn?
  }

  /** A turn of this side that is counted although its envelope did not go out. */
  predicate Unsent(me: string, l: Local, thread: string, i: Input)
    requires Possible(me, l, i.event)
  {
    var o := Step(me, l, thread, i.event, i.env);
    i.event.SayTurn? && o.reply == Done && o.sent == []
  }

  /** A turn of the peer that is refused, and so not counted. */
  predicate TurnedDown(me: string, l: Local, thread: string, i: Input)
    requires Possible(me, l, i.event)
  {
    i.event.Incoming? && i.event.msg.Turn? && Step(me, l, thread, i.event, i.env).reply != Done
  }

  function Tick(b: bool): int {
    if b then 1 else 0
  }

  lemma StepAgainstWire(me: string, l: Local, thread: string, i: Input)
    requires Possible(me, l, i.event)
    ensures TurnsIn(After(me, l, thread, i)) + Tick(TurnedDown(me, l, thread, i))
            == TurnsIn(l) + Tick(OnTheWire(me, l, thread, i)) + Tick(Unsent(me, l, thread, i))
  {
    StepCountsTurns(me, l, thread, i);
    if i.event.SayTurn? {
      TurnSends(me, l, i.event.wellFormed, i.env);
    }
  }

  lemma TurnSends(me: string, l: Local, wellFormed: bool, env: Env)
    ensures TakeTurn(me, l, wellFormed, env).sent != [] ==> TakeTurn(me, l, wellFormed, env).reply == Done
  {
  }

  /** Turn envelopes on the wire, counted ones that were not, and refused ones, over a run. */
  ghost function WireTurns(me: string, l: Local, thread: string, ins: seq<Input>): (int, int, int)
    requires Feasible(me, l, thread, ins)
    decreases |ins|
  {
    if ins == [] then (0, 0, 0)
    else
      var (wire, unsent, down) := WireTurns(me, After(me, l, thread, ins[0]), thread, ins[1..]);
      (wire + Tick(OnTheWire(me, l, thread, ins[0])), unsent + Tick(Unsent(me, l, thread, ins[0])),
       down + Tick(TurnedDown(me, l, thread, ins[0])))
  }

  /**
   * The rule wants the count of the turn envelopes on the wire. The code counts an own turn whose send failed
   * and not a peer's turn it refuses, so the two agree exactly when these two kinds are equally many.
   */
  lemma {:induction false} CountIsTheWiresIff(me: string, l: Local, thread: string, ins: seq<Input>)
    requires Feasible(me, l, thread, ins)
    ensures var (wire, unsent, down) := WireTurns(me, l, thread, ins);
            && TurnsIn(Run(me, l, thread, ins)) == TurnsIn(l) + wire + unsent - down
            && (TurnsIn(Run(me, l, thread, ins)) == TurnsIn(l) + wire <==> unsent == down)
    decreases |ins|
  {
    hide Step;
    if ins != [] {
      StepAgainstWire(me, l, thread, ins[0]);
      CountIsTheWiresIff(me, After(me, l, thread, ins[0]), thread, ins[1..]);
    }
  }

  /** A run in which they differ: the first turn is said while the relay does not answer. */
  lemma UnsentTurnCounts()
    ensures var say := Input(SayTurn(true), ENV.(sendOk := false));
            && Feasible("i", EMPTY_LOCAL, "t", OPENING) && Feasible("i", EMPTY_LOCAL, "t", OPENING + [say])
            && TurnsIn(Run("i", EMPTY_LOCAL, "t", OPENING + [say])) == 1
            && Step("i", Run("i", EMPTY_LOCAL, "t", OPENING), "t", say.event, say.env).sent == []
  {
    OpeningRuns();
    var say := Input(SayTurn(true), ENV.(sendOk := false));
    UnsentTurnGoes();
    Then("i", EMPTY_LOCAL, "t", OPENING, say);
  }

  lemma UnsentTurnGoes()
    ensures var o := TakeTurn("i", Accepted(), true, ENV.(sendOk := false)); TurnsIn(o.local) == 1 && o.sent == []
  {
  }

  // ---- N7: the deadline is local ----

  ghost predicate ClosedByDeadline(l: Local) {
    && l.session.Some? && l.session.value.status == Closed && l.session.value.rejectReason == Some("deadline_expired")
    && l.session.value.extension.None? && l.budgets == []
  }

  /** Whatever the peer sends or not, the next envelope or the next sweep after the deadline closes a live session. */
  lemma DeadlineCloses(me: string, l: Local, thread: string, from: string, msg: Msg, env: Env)
    requires Inv(me, l) && l.session.Some? && PastDeadline(l.session.value, env.now)
    ensures ClosedByDeadline(Receive(me, l, thread, from, msg, env).local)
    ensures ClosedByDeadline(ExpireSession(me, l, env).local)
  {
    assert ClosedByDeadline(EnsureLive(l, env.now));
  }

  /** After the sweep no session is overdue: none live past its deadline, none pending past its opening. */
  lemma SweepLeavesNothingOverdue(me: string, l: Local, env: Env)
    ensures var m := ExpireSession(me, l, env).local;
            m.session.Some? ==>
              !PastDeadline(m.session.value, env.now) && !(m.session.value.status == Pending && env.now > OpenExpiry(m.session.value))
  {
  }
}

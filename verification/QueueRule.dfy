/** When a human is asked: the items in the approval queue against what their session waits for. */
module QueueRule {
  import opened Options
  import opened SessionTypes
  import opened ThreadSteps
  import opened BudgetSteps
  import opened MachineSteps
  import opened ThreadInvariant
  import opened ThreadRuns
  import opened StepEffects
  import opened NoticeRule
  import opened StatusRule

  // ---- the opening's item is there exactly while the human's word is due ----

  predicate AwaitsVerdict(l: Local) {
    l.session.Some? && l.session.value.status == Pending && l.session.value.role == Recipient
  }

  ghost predicate Asked(l: Local) {
    AwaitsVerdict(l) ==> l.opens != []
  }

  lemma OpeningAsks(me: string, l: Local, thread: string, e: Event, env: Env)
    requires Inv(me, l) && Asked(l) && Possible(me, l, e) && OnOpening(e)
    ensures Asked(Step(me, l, thread, e, env).local)
  {
  }

  lemma TalkAsks(me: string, l: Local, thread: string, e: Event, env: Env)
    requires Asked(l) && OnTalk(e)
    ensures Asked(Step(me, l, thread, e, env).local)
  {
  }

  lemma NotOfOthers(q: seq<Item>, peer: string)
    requires forall i :: i in q ==> i.peer != peer
    ensures NotOf(q, peer) == q
  {
    if q != [] {
      NotOfOthers(q[..|q| - 1], peer);
    }
  }

  lemma RevokeAsks(me: string, l: Local, peer: string)
    requires Inv(me, l) && Asked(l)
    ensures Asked(BondRevoke(me, l, peer))
  {
    if l.session.Some? && AwaitsVerdict(l) && !With(me, l.session, peer) {
      NotOfOthers(l.opens, peer);
    }
  }

  lemma CareAsks(me: string, l: Local, thread: string, e: Event, env: Env)
    requires Inv(me, l) && Asked(l) && OnCare(e)
    ensures Asked(Step(me, l, thread, e, env).local)
  {
    hide BondRevoke;
    if e.RevokeBond? {
      RevokeAsks(me, l, e.peer);
    }
  }

  lemma BudgetAsks(me: string, l: Local, thread: string, e: Event, env: Env)
    requires Asked(l) && OnBudget(e)
    ensures Asked(Step(me, l, thread, e, env).local)
  {
  }

  lemma WordAsks(me: string, l: Local, s: Record, role: Role, msg: Msg, env: Env)
    requires Asked(l) && l.session == Some(s)
    ensures Asked(PeerWord(me, l, s, role, msg, env).local)
  {
    hide SetRunnerReport;
  }

  lemma BudgetWordAsks(me: string, l: Local, from: string, p: Payload, env: Env)
    requires Asked(l)
    ensures Asked(IncomingPropose(me, l, from, p, env).local)
    ensures Asked(IncomingApproved(l, from, p).local) && Asked(IncomingReject(l, from, p).local)
  {
  }

  lemma DeliverAsks(me: string, l: Local, thread: string, from: string, msg: Msg, env: Env)
    requires Inv(me, l) && Asked(l) && from != me
    ensures Asked(Deliver(me, l, thread, from, msg, env).local)
  {
    hide PeerWord, IncomingPropose, IncomingApproved, IncomingReject;
    match msg {
      case BudgetPropose(p) => BudgetWordAsks(me, l, from, p, env);
      case BudgetApproved(p) => BudgetWordAsks(me, l, from, p, env);
      case BudgetReject(p) => BudgetWordAsks(me, l, from, p, env);
      case Turn | Challenge | ReportMsg(_) | SignedMsg(_) =>
        if l.session.Some? && Participant(l.session.value, from).Some? {
          WordAsks(me, l, l.session.value, Participant(l.session.value, from).value, msg, env);
        }
      case _ =>
    }
  }

  lemma HeardAsks(me: string, l: Local, thread: string, from: string, msg: Msg, env: Env)
    requires Inv(me, l) && Asked(l) && from != me
    ensures Asked(Receive(me, l, thread, from, msg, env).local)
  {
    hide Deliver;
    EnsureLiveGood(me, l, env.now);
    DeliverAsks(me, EnsureLive(l, env.now), thread, from, msg, env);
  }

  lemma StepAsks(me: string, l: Local, thread: string, e: Event, env: Env)
    requires Inv(me, l) && Asked(l) && Possible(me, l, e)
    ensures Asked(Step(me, l, thread, e, env).local)
  {
    hide Receive, RatifyBy, HandleOpen, ApproveOpen, RejectOpen, ExpireSession, ResolveOpen, TakeTurn, FileChallenge,
         FileReport, SayNothing, Sign, ResolveRatify, ReadStatus, BondRevoke, ThreadClose, ExtendBudget, ApproveExtend,
         RejectExtend, RetryExtend, Inv, Asked;
    if OnOpening(e) {
      OpeningAsks(me, l, thread, e, env);
    } else if OnTalk(e) {
      TalkAsks(me, l, thread, e, env);
    } else if OnCare(e) {
      CareAsks(me, l, thread, e, env);
    } else if OnBudget(e) {
      BudgetAsks(me, l, thread, e, env);
    } else {
      HeardAsks(me, l, thread, e.from, e.msg, env);
    }
  }

  lemma {:induction false} AskedRuns(me: string, l: Local, thread: string, ins: seq<Input>)
    requires Inv(me, l) && Asked(l) && Feasible(me, l, thread, ins)
    ensures Inv(me, Run(me, l, thread, ins)) && Asked(Run(me, l, thread, ins))
    decreases |ins|
  {
    hide Step, Asked;
    if ins != [] {
      StepAsks(me, l, thread, ins[0].event, ins[0].env);
      StepGood(me, l, thread, ins[0].event, ins[0].env);
      AskedRuns(me, After(me, l, thread, ins[0]), thread, ins[1..]);
    }
  }

  /**
   * After any run the queue holds one opening item, on the session's own terms, exactly while a proposed session
   * waits for this side's human; so that human can always give the verdict, and nobody is asked in vain.
   */
  lemma OpeningItemIff(me: string, thread: string, ins: seq<Input>)
    requires Feasible(me, EMPTY_LOCAL, thread, ins)
    ensures var l := Run(me, EMPTY_LOCAL, thread, ins);
            && (l.opens != [] <==> AwaitsVerdict(l))
            && (AwaitsVerdict(l) ==> l.opens == [OpenItemFor(l.session.value, l.opens[0].id)])
  {
    hide Step;
    assert Asked(EMPTY_LOCAL);
    AskedRuns(me, EMPTY_LOCAL, thread, ins);
  }

  // ---- how long it waits ----

  /** A record starts blank, dated by the clock of its machine, and its opening lasts one hour. */
  ghost predicate Fresh(s: Record, now: int) {
    && s.createdAt == now && s.expiresAt == now + 3_600_000
    && s.turnCount == 0 && s.reports == map[] && s.challenges == {} && s.signHashes == map[] && s.ratified == {}
    && s.artifactHash.None? && s.coSignedHash.None? && s.signatures == map[] && s.extension.None? && s.decided == []
  }

  lemma StartsFresh(me: string, l: Local, thread: string, e: Event, env: Env)
    requires Inv(me, l) && Possible(me, l, e) && l.session.None?
    ensures var m := Step(me, l, thread, e, env).local; m.session.Some? ==> Fresh(m.session.value, env.now)
  {
    StepEffect(me, l, thread, e, env);
    if e.Open? || (e.Incoming? && e.msg.NegoOpen?) {
      OpensFresh(me, l, thread, e, env);
    }
  }

  lemma OpensFresh(me: string, l: Local, thread: string, e: Event, env: Env)
    requires Possible(me, l, e) && l.session.None? && (e.Open? || (e.Incoming? && e.msg.NegoOpen?))
    ensures var m := Step(me, l, thread, e, env).local; m.session.Some? ==> Fresh(m.session.value, env.now)
  {
  }

  /** After any run, whenever it began, the opening of a stored session lasts one hour from when it was stored. */
  lemma {:induction false} OpeningLastsOneHour(me: string, l: Local, thread: string, ins: seq<Input>)
    requires Inv(me, l) && Feasible(me, l, thread, ins)
    requires l.session.Some? ==> l.session.value.expiresAt == l.session.value.createdAt + 3_600_000
    ensures var m := Run(me, l, thread, ins);
            m.session.Some? ==> m.session.value.expiresAt == m.session.value.createdAt + 3_600_000
    decreases |ins|
  {
    hide Step;
    if ins != [] {
      StepGood(me, l, thread, ins[0].event, ins[0].env);
      if l.session.None? {
        StartsFresh(me, l, thread, ins[0].event, ins[0].env);
      }
      OpeningLastsOneHour(me, After(me, l, thread, ins[0]), thread, ins[1..]);
    }
  }

  // ---- the ratification's item ----

  /** This side may still ratify: signed or closed, not revoked, with a hash, and the peer is bonded. */
  predicate AwaitsRatification(me: string, l: Local, env: Env) {
    && l.session.Some?
    && var s := l.session.value;
    && (s.status == Signed || s.status == Closed) && s.rejectReason != Some("bond_revoked")
    && RoleFor(s, me) !in s.ratified && Truthy(s.artifactHash) && PeerFor(s, me) in env.bonds
  }

  /** The events after which the human is asked again, if it has to be. */
  predicate LooksForRatify(e: Event) {
    e.AskStatus? || e.LookForRatify?
  }

  /** Looking at a session whose ratification is due leaves an item in the queue, on the recorded hash if there was none. */
  lemma RatifyItemComesBack(me: string, l: Local, thread: string, e: Event, env: Env)
    requires Inv(me, l) && LooksForRatify(e)
    ensures var m := Step(me, l, thread, e, env).local;
            && (AwaitsRatification(me, l, env) ==> m.ratifies != [])
            && (AwaitsRatification(me, l, env) && l.ratifies == [] ==>
                  m.ratifies[0].kind == Ratify(l.session.value.artifactHash.value) && m.ratifies[0].id == env.freshId)
            && (l.ratifies != [] ==> m.ratifies == l.ratifies)
  {
  }

  /** The human of `m` has an item to ratify with, if it is due, on the recorded hash unless an older one was still queued. */
  ghost predicate AskedToRatify(me: string, l: Local, m: Local, env: Env) {
    AwaitsRatification(me, m, env) ==>
      m.ratifies != [] && (l.ratifies == [] ==> m.ratifies[0].kind == Ratify(m.session.value.artifactHash.value))
  }

  lemma SignAsks(me: string, l: Local, hash: string, env: Env)
    requires Inv(me, l) && StatusIs(Sign(me, l, hash, env).local, Signed) && !StatusIs(l, Signed)
    ensures AskedToRatify(me, l, Sign(me, l, hash, env).local, env)
  {
  }

  lemma RecordedAsks(me: string, l: Local, s: Record, role: Role, hash: string, env: Env)
    requires l.session == Some(s) && s.status != Signed && StatusIs(IncomingSigned(me, l, s, role, hash, env).local, Signed)
    ensures AskedToRatify(me, l, IncomingSigned(me, l, s, role, hash, env).local, env)
  {
  }

  lemma SignatureAsks(me: string, l: Local, thread: string, from: string, hash: string, env: Env)
    requires StatusIs(Receive(me, l, thread, from, SignedMsg(hash), env).local, Signed) && !StatusIs(l, Signed)
    ensures AskedToRatify(me, l, Receive(me, l, thread, from, SignedMsg(hash), env).local, env)
  {
    hide IncomingSigned, AwaitsRatification;
    var k := EnsureLive(l, env.now);
    RecordedAsks(me, k, k.session.value, Participant(k.session.value, from).value, hash, env);
  }

  /** Whichever event makes a session signed, the human of a bonded side is asked for its ratification. */
  lemma SignedAsks(me: string, l: Local, thread: string, e: Event, env: Env)
    requires Inv(me, l) && Possible(me, l, e)
    requires StatusIs(Step(me, l, thread, e, env).local, Signed) && !StatusIs(l, Signed)
    ensures AskedToRatify(me, l, Step(me, l, thread, e, env).local, env)
  {
    hide Receive, RatifyBy, HandleOpen, ApproveOpen, RejectOpen, ExpireSession, ResolveOpen, TakeTurn, FileChallenge,
         FileReport, SayNothing, Sign, ResolveRatify, ReadStatus, BondRevoke, ThreadClose, ExtendBudget, ApproveExtend,
         RejectExtend, RetryExtend, Inv, AskedToRatify, Admits;
    StatusMovesIff(me, l, thread, e, env, Signed);
    if e.SignHash? {
      SignAsks(me, l, e.hash, env);
    } else {
      SignatureAsks(me, l, thread, e.from, e.msg.hash, env);
    }
  }

  // ---- turns and closing ----

  /** A turn refused because the turns are used up never leaves it at that: an extension is under way or queued. */
  lemma ExhaustedTurnAsks(me: string, l: Local, thread: string, e: Event, env: Env)
    requires e == SayTurn(true) || e == SayTurn(false) || (e.Incoming? && e.msg.Turn? && e.from != me)
    requires Step(me, l, thread, e, env).reply == Refused("budget_exhausted")
    ensures var m := Step(me, l, thread, e, env).local;
            && m.session.Some? && m.session.value.turnCount >= m.session.value.terms.budget.maxTurns
            && (m.session.value.extension.Some? || m.budgets != [])
  {
  }

  /** Closing a thread ends its session for good and asks no human any more about what it was waiting for. */
  lemma CloseEnds(me: string, l: Local, reason: Option<string>, env: Env)
    requires Inv(me, l) && l.session.Some?
    ensures var m := ThreadClose(l, reason, env).local;
            && m.session.Some? && Terminal(m.session.value.status) && m.opens == []
            && (!Terminal(l.session.value.status) ==> m.session.value.status == Closed && m.session.value.rejectReason.Some?)
            && (l.session.value.status == Live ==> m.budgets == [] && m.session.value.extension.None?)
            && (l.session.value.status == Signed ==> m.ratifies == [])
  {
  }

  /**
   * The sweep drops the opening item of a session that waits no more and the ratify item of one that is
   * closed or ratified, and only those.
   */
  lemma SweepKeepsWhatIsWanted(me: string, l: Local, env: Env)
    requires Inv(me, l) && Asked(l) && l.session.Some?
    ensures var m := ExpireSession(me, l, env).local;
            && m.session.Some? && (m.opens != [] <==> AwaitsVerdict(m)) && (m.opens != [] ==> m.opens == l.opens)
            && var t := m.session.value;
               m.ratifies == if t.status == Closed || t.role in t.ratified then [] else l.ratifies
  {
  }
}

/**
 * Over all events but the budget extension's: which are accepted, what the peer is told of each, and that
 * what it is told is so. The budget extension has its own protocol.
 */
module NoticeRule {
  import opened Options
  import opened SessionTypes
  import opened ThreadSteps
  import opened BudgetSteps
  import opened MachineSteps
  import opened ThreadInvariant
  import opened StepEffects
  import opened ThreadRuns

  // ---- what is accepted ----

  ghost predicate Queued(q: seq<Item>, id: string) {
    exists i :: i in q && i.id == id
  }

  /** The opening may still be answered. */
  predicate InTime(s: Record, now: int) {
    now <= s.expiresAt && now <= s.terms.budget.deadline
  }

  /** A session one may talk on: signed, or live and within its deadline. */
  predicate MayTalk(l: Local, now: int) {
    && l.session.Some?
    && var s := l.session.value;
    s.status == Signed || (s.status == Live && now <= s.terms.budget.deadline)
  }

  /** A session that has ended, or ends as soon as its deadline is looked at. */
  predicate Over(s: Record, now: int) {
    Terminal(s.status) || PastDeadline(s, now)
  }

  predicate TurnsLeft(s: Record) {
    s.turnCount < s.terms.budget.maxTurns
  }

  /** The hash a ratification is about: its queued item's, else the given one, else the recorded one. */
  function RatifiedHash(l: Local, byItem: Option<string>, given: Option<string>): Option<string>
    requires l.session.Some?
  {
    var item := if byItem.Some? then FindId(l.ratifies, byItem.value) else None;
    if item.Some? && item.value.kind.Ratify? then Some(item.value.kind.artifactHash)
    else if given.Some? then given
    else l.session.value.artifactHash
  }

  /** Nothing keeps the human from signing this hash. */
  ghost predicate MaySign(me: string, l: Local, hash: string, env: Env) {
    MayTalk(l, env.now) && (Gated(me, l.session.value, env) ==> BothChallenged(l.session.value) && AllGreen(l, hash))
  }

  ghost predicate MayRatify(l: Local, byItem: Option<string>, given: Option<string>, viaHuman: bool) {
    && viaHuman && (byItem.Some? ==> Queued(l.ratifies, byItem.value)) && l.session.Some?
    && (l.session.value.status == Signed || l.session.value.status == Closed)
    && Truthy(RatifiedHash(l, byItem, given))
  }

  predicate TestsOf(me: string, l: Local, env: Env) {
    MayTalk(l, env.now) && TestsBonded(me, l.session.value, env)
  }

  /** A message of a participant that is heard. */
  ghost predicate Heeds(s: Record, from: string, msg: Msg, now: int) {
    match msg
    case Malformed => false
    case NegoOpen(_) => s.status != Pending || from == s.initiator
    case OpenApproved => from == s.recipient && !Over(s, now)
    case OpenReject(_) => from == s.recipient && (s.status == OpenRejected || (s.status != Closed && !PastDeadline(s, now)))
    case OpenExpiredMsg => from == s.recipient && s.status != Closed && !PastDeadline(s, now)
    case Turn => (from == s.initiator || from == s.recipient) && s.status == Live && !PastDeadline(s, now) && TurnsLeft(s)
    case RatifiedMsg =>
      (from == s.initiator || from == s.recipient) && (!Over(s, now) || (s.status == Closed && Truthy(s.coSignedHash)))
    case _ => (from == s.initiator || from == s.recipient) && !Over(s, now)
  }

  /** The events of the budget extension. */
  predicate OfBudget(e: Event) {
    OnBudget(e) || (e.Incoming? && Budgetary(e.msg))
  }

  /** When each event is accepted, in terms of the session, the queue and the surroundings alone. */
  ghost predicate Admits(me: string, l: Local, e: Event, env: Env) {
    match e
    case Open(_, terms, allowed) => allowed && env.now <= terms.budget.deadline && env.sendOk
    case ApproveOpenBy(id, viaHuman) => viaHuman && Queued(l.opens, id) && l.session.Some? && InTime(l.session.value, env.now)
    case RejectOpenBy(id, _, viaHuman) => viaHuman && Queued(l.opens, id) && l.session.Some? && InTime(l.session.value, env.now)
    case SayTurn(wellFormed) => MayTalk(l, env.now) && TurnsLeft(l.session.value) && wellFormed
    case SayChallenge => TestsOf(me, l, env)
    case SayReport(_) => TestsOf(me, l, env)
    case SayBadly => false
    case SignHash(hash) => MaySign(me, l, hash, env)
    case RatifyWith(byItem, given, viaHuman) => MayRatify(l, byItem, given, viaHuman)
    case AskStatus => l.session.Some?
    case Incoming(from, msg) => if l.session.None? then msg.NegoOpen? else Heeds(l.session.value, from, msg, env.now)
    case _ => true
  }

  // ---- what the peer is told ----

  function Notice(e: Event): seq<Msg> {
    match e
    case Open(_, terms, _) => [NegoOpen(terms)]
    case ApproveOpenBy(_, _) => [OpenApproved]
    case RejectOpenBy(_, text, _) => [OpenReject(Some(text))]
    case SayTurn(_) => [Turn]
    case SayChallenge => [Challenge]
    case SayReport(report) => [ReportMsg(report)]
    case SignHash(hash) => [SignedMsg(hash)]
    case RatifyWith(_, _, _) => [RatifiedMsg]
    case _ => []
  }

  /** The recipient finds out by this event that an opening was not answered in time, and says so. */
  ghost predicate Lapses(l: Local, e: Event, env: Env) {
    match e
    case ApproveOpenBy(id, viaHuman) => viaHuman && Queued(l.opens, id) && l.session.Some? && !InTime(l.session.value, env.now)
    case RejectOpenBy(id, _, viaHuman) => viaHuman && Queued(l.opens, id) && l.session.Some? && !InTime(l.session.value, env.now)
    case Expire =>
      && l.session.Some? && l.session.value.status == Pending && l.session.value.role == Recipient
      && !InTime(l.session.value, env.now)
    case Incoming(_, NegoOpen(terms)) => l.session.None? && env.now > terms.budget.deadline
    case _ => false
  }

  /** Accepted as ruled, and the peer is told exactly the event's notice or that the opening expired, if the relay takes it. */
  ghost predicate Ruled(me: string, l: Local, e: Event, env: Env, o: Out) {
    && (o.reply == Done <==> Admits(me, l, e, env))
    && o.sent == if !env.sendOk then [] else
                 (if Admits(me, l, e, env) then Notice(e) else []) + (if Lapses(l, e, env) then [OpenExpiredMsg] else [])
  }

  lemma FoundIsQueued(q: seq<Item>, id: string)
    ensures FindId(q, id).Some? <==> Queued(q, id)
  {
  }

  lemma OpenRuled(me: string, l: Local, thread: string, to: string, terms: Terms, allowed: bool, env: Env)
    requires l.session.None?
    ensures Ruled(me, l, Event.Open(to, terms, allowed), env, HandleOpen(me, l, thread, to, terms, allowed, env))
  {
  }

  lemma AnswerRuled(me: string, l: Local, id: string, text: string, viaHuman: bool, env: Env)
    requires Inv(me, l)
    ensures Ruled(me, l, ApproveOpenBy(id, viaHuman), env, ApproveOpen(l, id, viaHuman, env))
    ensures Ruled(me, l, RejectOpenBy(id, text, viaHuman), env, RejectOpen(l, id, text, viaHuman, env))
  {
    FoundIsQueued(l.opens, id);
  }

  lemma SweepRuled(me: string, l: Local, env: Env)
    ensures Ruled(me, l, Event.Expire, env, ExpireSession(me, l, env))
    ensures Ruled(me, l, LookForOpen, env, Quiet(ResolveOpen(l, env), Done))
  {
  }

  lemma OpeningRuled(me: string, l: Local, thread: string, e: Event, env: Env)
    requires Inv(me, l) && Possible(me, l, e) && OnOpening(e)
    ensures Ruled(me, l, e, env, Step(me, l, thread, e, env))
  {
    hide Ruled, HandleOpen, ApproveOpen, RejectOpen, ExpireSession, ResolveOpen;
    match e {
      case Open(to, terms, allowed) => OpenRuled(me, l, thread, to, terms, allowed, env);
      case ApproveOpenBy(id, viaHuman) => AnswerRuled(me, l, id, "", viaHuman, env);
      case RejectOpenBy(id, text, viaHuman) => AnswerRuled(me, l, id, text, viaHuman, env);
      case Expire => SweepRuled(me, l, env);
      case LookForOpen => SweepRuled(me, l, env);
    }
  }

  lemma TurnRuled(me: string, l: Local, wellFormed: bool, env: Env)
    ensures Ruled(me, l, SayTurn(wellFormed), env, TakeTurn(me, l, wellFormed, env))
    ensures Ruled(me, l, SayBadly, env, SayNothing(l, env))
  {
  }

  lemma TestsRuled(me: string, l: Local, report: Report, env: Env)
    ensures Ruled(me, l, SayChallenge, env, FileChallenge(me, l, env))
    ensures Ruled(me, l, SayReport(report), env, FileReport(me, l, report, env))
  {
    var k := EnsureLive(l, env.now);
    if k.session.Some? {
      GatedIff(me, k.session.value, env);
    }
  }

  lemma SignSends(me: string, l: Local, hash: string, env: Env)
    ensures var o := Sign(me, l, hash, env); o.sent == if o.reply == Done then Send(env, SignedMsg(hash)) else []
  {
  }

  lemma SignRuled(me: string, l: Local, hash: string, env: Env)
    requires Inv(me, l)
    ensures Ruled(me, l, SignHash(hash), env, Sign(me, l, hash, env))
  {
    hide Sign;
    SignSends(me, l, hash, env);
    if l.session.Some? {
      SignGate(me, l, hash, env);
    } else {
      SignNeedsSession(me, l, hash, env);
    }
  }

  lemma SignNeedsSession(me: string, l: Local, hash: string, env: Env)
    requires l.session.None?
    ensures Sign(me, l, hash, env).reply != Done
  {
  }

  lemma TalkRuled(me: string, l: Local, thread: string, e: Event, env: Env)
    requires Inv(me, l) && OnTalk(e)
    ensures Ruled(me, l, e, env, Step(me, l, thread, e, env))
  {
    hide Ruled, TakeTurn, FileChallenge, FileReport, SayNothing, Sign;
    match e {
      case SayTurn(wellFormed) => TurnRuled(me, l, wellFormed, env);
      case SayChallenge => TestsRuled(me, l, Report("", false, "", None), env);
      case SayReport(report) => TestsRuled(me, l, report, env);
      case SayBadly => TurnRuled(me, l, false, env);
      case SignHash(hash) => SignRuled(me, l, hash, env);
    }
  }

  lemma RatifyRuled(me: string, l: Local, byItem: Option<string>, given: Option<string>, viaHuman: bool, env: Env)
    ensures Ruled(me, l, RatifyWith(byItem, given, viaHuman), env, RatifyBy(me, l, byItem, given, viaHuman, env))
  {
    if byItem.Some? {
      FoundIsQueued(l.ratifies, byItem.value);
    }
  }

  lemma CareRuled(me: string, l: Local, thread: string, e: Event, env: Env)
    requires OnCare(e)
    ensures Ruled(me, l, e, env, Step(me, l, thread, e, env))
  {
    hide RatifyBy;
    match e {
      case RatifyWith(byItem, given, viaHuman) => RatifyRuled(me, l, byItem, given, viaHuman, env);
      case _ =>
    }
  }

  lemma OpenHeardRuled(me: string, l: Local, thread: string, from: string, msg: Msg, env: Env)
    requires Inv(me, l) && from != me && (msg.NegoOpen? || msg.Malformed?)
    ensures Ruled(me, l, Incoming(from, msg), env, Receive(me, l, thread, from, msg, env))
  {
  }

  lemma AnswerHeardRuled(me: string, l: Local, thread: string, from: string, msg: Msg, env: Env)
    requires Inv(me, l) && from != me && (msg.OpenApproved? || msg.OpenReject? || msg.OpenExpiredMsg?)
    ensures Ruled(me, l, Incoming(from, msg), env, Receive(me, l, thread, from, msg, env))
  {
  }

  lemma WordHeardRuled(me: string, l: Local, thread: string, from: string, msg: Msg, env: Env)
    requires Inv(me, l) && from != me
    requires msg.Turn? || msg.Challenge? || msg.ReportMsg? || msg.SignedMsg? || msg.RatifiedMsg?
    ensures Ruled(me, l, Incoming(from, msg), env, Receive(me, l, thread, from, msg, env))
  {
    hide SetRunnerReport, RecordSign, EnsureRatifyItem, GuardTurnBudget, Finalize;
  }

  lemma HeardRuled(me: string, l: Local, thread: string, from: string, msg: Msg, env: Env)
    requires Inv(me, l) && from != me && !Budgetary(msg)
    ensures Ruled(me, l, Incoming(from, msg), env, Receive(me, l, thread, from, msg, env))
  {
    hide Ruled, Receive;
    match msg {
      case NegoOpen(_) | Malformed => OpenHeardRuled(me, l, thread, from, msg, env);
      case OpenApproved | OpenReject(_) | OpenExpiredMsg => AnswerHeardRuled(me, l, thread, from, msg, env);
      case _ => WordHeardRuled(me, l, thread, from, msg, env);
    }
  }

  /**
   * Over all events: each is accepted exactly when the table admits it, and the peer is then told exactly
   * the event's own notice. It is told unasked only that an opening expired, and nothing if the relay refuses.
   */
  lemma EventsAsRuled(me: string, l: Local, thread: string, e: Event, env: Env)
    requires Inv(me, l) && Possible(me, l, e) && !OfBudget(e)
    ensures var o := Step(me, l, thread, e, env);
            && (o.reply == Done <==> Admits(me, l, e, env))
            && o.sent == if !env.sendOk then [] else
                         (if Admits(me, l, e, env) then Notice(e) else []) + (if Lapses(l, e, env) then [OpenExpiredMsg] else [])
  {
    hide Step, Admits, Notice, Lapses;
    if OnOpening(e) {
      OpeningRuled(me, l, thread, e, env);
    } else if OnTalk(e) {
      TalkRuled(me, l, thread, e, env);
    } else if OnCare(e) {
      CareRuled(me, l, thread, e, env);
    } else {
      ReceivedRuled(me, l, thread, e, env);
    }
  }

  lemma ReceivedRuled(me: string, l: Local, thread: string, e: Event, env: Env)
    requires Inv(me, l) && Possible(me, l, e) && e.Incoming? && !Budgetary(e.msg)
    ensures Ruled(me, l, e, env, Step(me, l, thread, e, env))
  {
    hide Ruled, Receive;
    HeardRuled(me, l, thread, e.from, e.msg, env);
  }

  // ---- what the peer is told is so ----

  /** The record says what this envelope tells. */
  ghost predicate SoIn(me: string, l: Local, m: Local, x: Msg) {
    && m.session.Some?
    && var t := m.session.value;
       match x
       case NegoOpen(terms) => t.status == Pending && t.initiator == me && t.terms == terms
       case OpenApproved => t.status == Live
       case OpenReject(reason) => t.status == OpenRejected && t.rejectReason == reason
       case OpenExpiredMsg => t.status == OpenExpired
       case Turn => l.session.Some? && t.turnCount == l.session.value.turnCount + 1
       case Challenge => RoleFor(t, me) in t.challenges
       case ReportMsg(report) => Slot(t.reports, report.artifactHash, report.runner, RoleFor(t, me)) == Some(report)
       case SignedMsg(hash) =>
         RoleFor(t, me) in t.signHashes && t.signHashes[RoleFor(t, me)] == hash && t.artifactHash == Some(hash)
       case RatifiedMsg => RoleFor(t, me) in t.ratified
       case _ => false
  }

  ghost predicate AllSo(me: string, l: Local, o: Out) {
    forall x :: x in o.sent ==> SoIn(me, l, o.local, x)
  }

  lemma OpeningSaysSo(me: string, l: Local, thread: string, e: Event, env: Env)
    requires Possible(me, l, e) && OnOpening(e)
    ensures AllSo(me, l, Step(me, l, thread, e, env))
  {
  }

  lemma ReportSaysSo(me: string, l: Local, report: Report, env: Env)
    ensures AllSo(me, l, FileReport(me, l, report, env))
  {
  }

  lemma SignSaysSo(me: string, l: Local, hash: string, env: Env)
    ensures AllSo(me, l, Sign(me, l, hash, env))
  {
  }

  lemma TalkSaysSo(me: string, l: Local, thread: string, e: Event, env: Env)
    requires OnTalk(e)
    ensures AllSo(me, l, Step(me, l, thread, e, env))
  {
    hide FileReport, Sign;
    match e {
      case SayReport(report) => ReportSaysSo(me, l, report, env);
      case SignHash(hash) => SignSaysSo(me, l, hash, env);
      case _ =>
    }
  }

  lemma RatifySaysSo(me: string, l: Local, byItem: Option<string>, given: Option<string>, viaHuman: bool, env: Env)
    ensures AllSo(me, l, RatifyBy(me, l, byItem, given, viaHuman, env))
  {
  }

  lemma ExpirySaysSo(me: string, l: Local, thread: string, from: string, terms: Terms, env: Env)
    requires l.session.None?
    ensures AllSo(me, l, Receive(me, l, thread, from, NegoOpen(terms), env))
  {
  }

  /** Whatever a machine sends of its own accord, its record says the same: terms, verdict, turn, report, hash. */
  lemma SaidIsSo(me: string, l: Local, thread: string, e: Event, env: Env, x: Msg)
    requires Inv(me, l) && Possible(me, l, e) && !OfBudget(e) && x in Step(me, l, thread, e, env).sent
    ensures SoIn(me, l, Step(me, l, thread, e, env).local, x)
  {
    hide SoIn, Receive, RatifyBy, HandleOpen, ApproveOpen, RejectOpen, ExpireSession, ResolveOpen, TakeTurn,
         FileChallenge, FileReport, SayNothing, Sign, ResolveRatify, ReadStatus, BondRevoke, ThreadClose, ExtendBudget,
         ApproveExtend, RejectExtend, RetryExtend, Inv;
    EventsAsRuled(me, l, thread, e, env);
    if OnOpening(e) {
      OpeningSaysSo(me, l, thread, e, env);
    } else if OnTalk(e) {
      TalkSaysSo(me, l, thread, e, env);
    } else if e.RatifyWith? {
      RatifySaysSo(me, l, e.byItem, e.given, e.viaHuman, env);
    } else if Lapses(l, e, env) {
      ExpirySaysSo(me, l, thread, e.from, e.msg.terms, env);
    }
  }

  // ---- who has challenged ----

  function ChallengersOf(l: Local): set<Role> {
    if l.session.None? then {} else l.session.value.challenges
  }

  /** The role whose challenge an event brings. */
  ghost function ChallengerOf(me: string, l: Local, e: Event, env: Env): set<Role> {
    if l.session.None? || !Admits(me, l, e, env) then {}
    else if e.SayChallenge? then {RoleFor(l.session.value, me)}
    else if e.Incoming? && e.msg.Challenge? then {if e.from == l.session.value.initiator then Initiator else Recipient}
    else {}
  }

  ghost predicate SameChallengers(l: Local, m: Local) {
    ChallengersOf(m) == ChallengersOf(l)
  }

  lemma OpeningUnchallenged(me: string, l: Local, thread: string, e: Event, env: Env)
    requires Possible(me, l, e) && OnOpening(e)
    ensures SameChallengers(l, Step(me, l, thread, e, env).local)
  {
  }

  lemma SignUnchallenged(me: string, l: Local, hash: string, env: Env)
    ensures SameChallengers(l, Sign(me, l, hash, env).local)
  {
  }

  lemma TalkUnchallenged(me: string, l: Local, thread: string, e: Event, env: Env)
    requires OnTalk(e) && !e.SayChallenge?
    ensures SameChallengers(l, Step(me, l, thread, e, env).local)
  {
    hide Sign, SetRunnerReport;
    if e.SignHash? {
      SignUnchallenged(me, l, e.hash, env);
    }
  }

  lemma CareUnchallenged(me: string, l: Local, thread: string, e: Event, env: Env)
    requires OnCare(e)
    ensures SameChallengers(l, Step(me, l, thread, e, env).local)
  {
  }

  lemma BudgetUnchallenged(me: string, l: Local, thread: string, e: Event, env: Env)
    requires OnBudget(e)
    ensures SameChallengers(l, Step(me, l, thread, e, env).local)
  {
  }

  lemma SignedUnchallenged(me: string, l: Local, s: Record, role: Role, hash: string, env: Env)
    requires l.session == Some(s)
    ensures SameChallengers(l, IncomingSigned(me, l, s, role, hash, env).local)
  {
  }

  lemma DeliverUnchallenged(me: string, l: Local, thread: string, from: string, msg: Msg, env: Env)
    requires !msg.Challenge?
    ensures SameChallengers(l, Deliver(me, l, thread, from, msg, env).local)
  {
    hide IncomingSigned, SetRunnerReport;
    if msg.SignedMsg? && l.session.Some? && Participant(l.session.value, from).Some? {
      SignedUnchallenged(me, l, l.session.value, Participant(l.session.value, from).value, msg.hash, env);
    }
  }

  lemma HeardUnchallenged(me: string, l: Local, thread: string, from: string, msg: Msg, env: Env)
    requires !msg.Challenge?
    ensures SameChallengers(l, Receive(me, l, thread, from, msg, env).local)
  {
    hide Deliver;
    DeliverUnchallenged(me, EnsureLive(l, env.now), thread, from, msg, env);
  }

  lemma OwnChallengeCounts(me: string, l: Local, env: Env)
    ensures ChallengersOf(FileChallenge(me, l, env).local) == ChallengersOf(l) + ChallengerOf(me, l, Event.SayChallenge, env)
  {
  }

  lemma PeerChallengeCounts(me: string, l: Local, thread: string, from: string, env: Env)
    ensures ChallengersOf(Receive(me, l, thread, from, Challenge, env).local)
            == ChallengersOf(l) + ChallengerOf(me, l, Incoming(from, Challenge), env)
  {
  }

  /** Over all events: the roles that have challenged grow by exactly the one whose challenge is accepted. */
  lemma ChallengersGrow(me: string, l: Local, thread: string, e: Event, env: Env)
    requires Inv(me, l) && Possible(me, l, e)
    ensures ChallengersOf(Step(me, l, thread, e, env).local) == ChallengersOf(l) + ChallengerOf(me, l, e, env)
  {
    hide Receive, RatifyBy, HandleOpen, ApproveOpen, RejectOpen, ExpireSession, ResolveOpen, TakeTurn, FileChallenge,
         FileReport, SayNothing, Sign, ResolveRatify, ReadStatus, BondRevoke, ThreadClose, ExtendBudget, ApproveExtend,
         RejectExtend, RetryExtend, Inv, Admits;
    if e.SayChallenge? {
      OwnChallengeCounts(me, l, env);
    } else if e.Incoming? && e.msg.Challenge? {
      PeerChallengeCounts(me, l, thread, e.from, env);
    } else if OnOpening(e) {
      OpeningUnchallenged(me, l, thread, e, env);
    } else if OnTalk(e) {
      TalkUnchallenged(me, l, thread, e, env);
    } else if OnCare(e) {
      CareUnchallenged(me, l, thread, e, env);
    } else if OnBudget(e) {
      BudgetUnchallenged(me, l, thread, e, env);
    } else {
      HeardUnchallenged(me, l, thread, e.from, e.msg, env);
    }
  }
}

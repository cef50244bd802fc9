/** The dispatch over every event one thread of a session machine can meet. */
module MachineSteps {
  import opened Options
  import opened SessionTypes
  import opened ThreadSteps
  import opened BudgetSteps

  datatype Event =
    | Open(to: string, terms: Terms, allowed: bool)
    | ApproveOpenBy(id: string, viaHuman: bool)
    | RejectOpenBy(id: string, text: string, viaHuman: bool)
    | Expire
    | SayTurn(wellFormed: bool)
    | SayChallenge
    | SayReport(report: Report)
    | SayBadly
    | SignHash(hash: string)
    | RatifyWith(byItem: Option<string>, given: Option<string>, viaHuman: bool)
    | LookForOpen
    | LookForRatify
    | AskStatus
    | RevokeBond(peer: string)
    | CloseThread(reason: Option<string>)
    | Extend(newMax: int, proposalId: string)
    | ApproveExtendBy(id: string, viaHuman: bool)
    | RejectExtendBy(id: string, viaHuman: bool, why: Option<string>)
    | Retry
    | Incoming(from: string, msg: Msg)

  /** A wire message other than an opening one, on a stored session whose deadline was looked at. */
  function IncomingSigned(me: string, l: Local, s: Record, role: Role, hash: string, env: Env): Out {
    var l1 := RecordSign(l, s, role, hash);
    var s1 := l1.session.value;
    Quiet(if s1.status == Signed then EnsureRatifyItem(l1, s1, me, env) else l1, Done)
  }

  function IncomingRatified(me: string, l: Local, s: Record, role: Role): Out {
    if s.status == Closed && Truthy(s.coSignedHash) then Quiet(l, Done)
    else if Terminal(s.status) then Quiet(l, Refused("thread_closed"))
    else
      var s1 := s.(ratified := s.ratified + {role});
      if BothRatified(s1) && Truthy(s1.artifactHash) then
        Out(l.(session := Some(Finalize(s1, me, s1.artifactHash.value))), [], Done, true)
      else Quiet(l.(session := Some(s1)), Done)
  }

  /** The answer to an opening is accepted from the recipient only. */
  function FromRecipient(s: Record, from: string): Option<string> {
    if Participant(s, from).None? then Some("not_a_participant")
    else if Participant(s, from).value != Recipient then Some("wrong_role")
    else None
  }

  /** What an answer makes of the opening it answers. */
  function Answered(s: Record, msg: Msg): Record {
    match msg
    case OpenReject(reason) =>
      s.(status := OpenRejected, rejectReason := if reason.Some? then reason else Some(""))
    case OpenExpiredMsg => s.(status := OpenExpired)
    case _ => s.(status := Live)
  }

  predicate AlreadyAnswered(s: Record, msg: Msg) {
    (msg.OpenReject? && s.status == OpenRejected) || (msg.OpenExpiredMsg? && s.status == OpenExpired)
  }

  /** An approval needs a session that has not ended; a refusal only one that is not closed. */
  predicate TooLate(s: Record, msg: Msg) {
    if msg.OpenReject? || msg.OpenExpiredMsg? then s.status == Closed else Terminal(s.status)
  }

  function OpeningAnswer(l: Local, s: Record, from: string, msg: Msg): Out {
    if FromRecipient(s, from).Some? then Quiet(l, Refused(FromRecipient(s, from).value))
    else if AlreadyAnswered(s, msg) then Quiet(l, Done)
    else if TooLate(s, msg) then Quiet(l, Refused("thread_closed"))
    else Quiet(l.(session := Some(Answered(s, msg))), Done)
  }

  /** A peer's turn needs a live session and one turn left; it never queues more than the numberless item. */
  function CountPeerTurn(me: string, l: Local, s: Record, env: Env): Out {
    if s.status != Live then Quiet(l, Refused("session_not_live"))
    else if s.turnCount >= s.terms.budget.maxTurns then
      Quiet(GuardTurnBudget(l, s, me, env), Refused("budget_exhausted"))
    else Quiet(l.(session := Some(s.(turnCount := s.turnCount + 1))), Done)
  }

  /** What a participant says on a session that has not ended, in that participant's own slots. */
  function PeerWord(me: string, l: Local, s: Record, role: Role, msg: Msg, env: Env): Out {
    match msg
    case Challenge => Quiet(l.(session := Some(s.(challenges := s.challenges + {role}))), Done)
    case ReportMsg(r) =>
      Quiet(l.(session := Some(s.(reports := SetRunnerReport(s.reports, r.artifactHash, r.runner, role, r)))), Done)
    case SignedMsg(hash) => IncomingSigned(me, l, s, role, hash, env)
    case _ => CountPeerTurn(me, l, s, env)
  }

  function Negotiation(me: string, l: Local, s: Record, from: string, msg: Msg, env: Env): Out {
    var role := Participant(s, from);
    if role.None? then Quiet(l, Refused("not_a_participant"))
    else if msg.RatifiedMsg? then IncomingRatified(me, l, s, role.value)
    else if Terminal(s.status) then Quiet(l, Refused("thread_closed"))
    else PeerWord(me, l, s, role.value, msg, env)
  }

  function Deliver(me: string, l: Local, thread: string, from: string, msg: Msg, env: Env): Out {
    match msg
    case Malformed => Quiet(l, Refused("invalid_payload"))
    case NegoOpen(terms) => IncomingOpen(me, l, thread, from, terms, env)
    case BudgetPropose(p) => IncomingPropose(me, l, from, p, env)
    case BudgetApproved(p) => IncomingApproved(l, from, p)
    case BudgetReject(p) => IncomingReject(l, from, p)
    case OpenApproved | OpenReject(_) | OpenExpiredMsg =>
      if l.session.None? then Quiet(l, Refused("session_not_found"))
      else OpeningAnswer(l, l.session.value, from, msg)
    case _ =>
      if l.session.None? then Quiet(l, Refused("session_not_found"))
      else Negotiation(me, l, l.session.value, from, msg, env)
  }

  /** The deadline is looked at before anything else, even for a malformed envelope. */
  function Receive(me: string, l: Local, thread: string, from: string, msg: Msg, env: Env): Out {
    Deliver(me, EnsureLive(l, env.now), thread, from, msg, env)
  }

  function SayNothing(l0: Local, env: Env): Out {
    var l := EnsureLive(l0, env.now);
    if l.session.None? then Quiet(l, Refused("session_not_found"))
    else if !LiveOrSigned(l.session.value) then Quiet(l, Refused("session_not_live"))
    else Quiet(l, Refused("invalid_payload"))
  }

  /** A thread is opened under a fresh UUID, and no envelope claims to come from the machine itself. */
  predicate Possible(me: string, l: Local, e: Event) {
    && (e.Open? ==> l.session.None?)
    && (e.Incoming? ==> e.from != me)
  }

  // ---- groups of events ----

  predicate OnOpening(e: Event) {
    e.Open? || e.ApproveOpenBy? || e.RejectOpenBy? || e.Expire? || e.LookForOpen?
  }

  predicate OnTalk(e: Event) {
    e.SayTurn? || e.SayChallenge? || e.SayReport? || e.SayBadly? || e.SignHash?
  }

  predicate OnCare(e: Event) {
    e.RatifyWith? || e.LookForRatify? || e.AskStatus? || e.RevokeBond? || e.CloseThread?
  }

  predicate OnBudget(e: Event) {
    e.Extend? || e.ApproveExtendBy? || e.RejectExtendBy? || e.Retry?
  }

  function Step(me: string, l: Local, thread: string, e: Event, env: Env): Out
    requires Possible(me, l, e)
  {
    match e
    case Open(to, terms, allowed) => HandleOpen(me, l, thread, to, terms, allowed, env)
    case ApproveOpenBy(id, viaHuman) => ApproveOpen(l, id, viaHuman, env)
    case RejectOpenBy(id, text, viaHuman) => RejectOpen(l, id, text, viaHuman, env)
    case Expire => ExpireSession(me, l, env)
    case SayTurn(wellFormed) => TakeTurn(me, l, wellFormed, env)
    case SayChallenge => FileChallenge(me, l, env)
    case SayReport(report) => FileReport(me, l, report, env)
    case SayBadly => SayNothing(l, env)
    case SignHash(hash) => Sign(me, l, hash, env)
    case RatifyWith(byItem, given, viaHuman) => RatifyBy(me, l, byItem, given, viaHuman, env)
    case LookForOpen => Quiet(ResolveOpen(l, env), Done)
    case LookForRatify => Quiet(ResolveRatify(me, l, env), Done)
    case AskStatus => ReadStatus(me, l, env)
    case RevokeBond(peer) => Quiet(BondRevoke(me, l, peer), Done)
    case CloseThread(reason) => ThreadClose(l, reason, env)
    case Extend(newMax, proposalId) => ExtendBudget(me, l, newMax, proposalId, env)
    case ApproveExtendBy(id, viaHuman) => ApproveExtend(me, l, id, viaHuman, env)
    case RejectExtendBy(id, viaHuman, why) => RejectExtend(me, l, id, viaHuman, why, env)
    case Retry => RetryExtend(l, env)
    case Incoming(from, msg) => Receive(me, l, thread, from, msg, env)
  }
}

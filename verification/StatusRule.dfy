/**
 * The status chart of a session: over all events, exactly which one moves it to which status, and what
 * reason it leaves behind.
 */
module StatusRule {
  import opened Options
  import opened SessionTypes
  import opened ThreadSteps
  import opened BudgetSteps
  import opened MachineSteps
  import opened ThreadInvariant
  import opened StepEffects
  import opened NoticeRule

  predicate StatusIs(l: Local, st: Status) {
    l.session.Some? && l.session.value.status == st
  }

  // ---- what moves a session to each status ----

  predicate ToPending(l: Local, e: Event, env: Env) {
    && l.session.None?
    && match e
       case Open(_, terms, allowed) => allowed && env.now <= terms.budget.deadline
       case Incoming(_, NegoOpen(terms)) => env.now <= terms.budget.deadline
       case _ => false
  }

  ghost predicate ToLive(me: string, l: Local, e: Event, env: Env) {
    && (e.ApproveOpenBy? || (e.Incoming? && e.msg.OpenApproved?))
    && Admits(me, l, e, env)
  }

  ghost predicate ToRejected(me: string, l: Local, e: Event, env: Env) {
    && (e.RejectOpenBy? || (e.Incoming? && e.msg.OpenReject?))
    && Admits(me, l, e, env)
  }

  /** An unanswered opening lapses when it is looked at, told to the peer or not, or when the peer says so. */
  ghost predicate ToExpired(me: string, l: Local, e: Event, env: Env) {
    || Lapses(l, e, env)
    || (e.Incoming? && e.msg.OpenExpiredMsg? && Admits(me, l, e, env))
    || (StatusIs(l, Pending) && !InTime(l.session.value, env.now)
        && (e.Expire? || ((e.LookForOpen? || e.AskStatus?) && l.session.value.role == Recipient)))
  }

  /** A signature over a hash on top of one of the other role. */
  ghost predicate ToSigned(me: string, l: Local, e: Event, env: Env) {
    && l.session.Some? && Admits(me, l, e, env)
    && var s := l.session.value;
       match e
       case SignHash(hash) => hash != "" && HasSigned(s, Other(RoleFor(s, me)))
       case Incoming(from, SignedMsg(hash)) => hash != "" && HasSigned(s, Other(if from == s.initiator then Initiator else Recipient))
       case _ => false
  }

  /** The events that look at the deadline first. */
  predicate LooksAtDeadline(l: Local, e: Event) {
    match e
    case ApproveExtendBy(id, viaHuman) =>
      viaHuman && FindId(l.budgets, id).Some? && OfferOf(FindId(l.budgets, id).value).Some?
    case RejectExtendBy(id, viaHuman, _) => viaHuman && FindId(l.budgets, id).Some?
    case Extend(_, _) => true
    case Retry => true
    case Incoming(_, _) => true
    case _ => OnTalk(e) || e.Expire? || e.AskStatus? || e.CloseThread?
  }

  predicate DeadlineCloses(l: Local, e: Event, env: Env) {
    l.session.Some? && PastDeadline(l.session.value, env.now) && LooksAtDeadline(l, e)
  }

  predicate RevokeCloses(me: string, l: Local, e: Event) {
    e.RevokeBond? && l.session.Some? && PeerFor(l.session.value, me) == e.peer && !Terminal(l.session.value.status)
  }

  predicate RequestCloses(l: Local, e: Event, env: Env) {
    e.CloseThread? && l.session.Some? && !Over(l.session.value, env.now)
  }

  /** The second ratification: one role's is accepted while the other's is already there. */
  ghost predicate CoSigns(me: string, l: Local, e: Event, env: Env) {
    && l.session.Some? && Admits(me, l, e, env)
    && var s := l.session.value;
       match e
       case RatifyWith(_, _, _) => Other(s.role) in s.ratified
       case Incoming(from, RatifiedMsg) => s.role in s.ratified && !Over(s, env.now) && Truthy(s.artifactHash)
       case _ => false
  }

  ghost predicate ToClosed(me: string, l: Local, e: Event, env: Env) {
    DeadlineCloses(l, e, env) || RevokeCloses(me, l, e) || RequestCloses(l, e, env) || CoSigns(me, l, e, env)
  }

  ghost predicate Leads(me: string, l: Local, e: Event, env: Env, st: Status) {
    match st
    case Pending => ToPending(l, e, env)
    case Live => ToLive(me, l, e, env)
    case OpenRejected => ToRejected(me, l, e, env)
    case OpenExpired => ToExpired(me, l, e, env)
    case Signed => ToSigned(me, l, e, env)
    case Closed => ToClosed(me, l, e, env)
  }

  /** The reason left behind: that of a refusal or a closing, and otherwise the one already there. */
  ghost function ReasonAfter(me: string, l: Local, e: Event, env: Env): Option<string> {
    var before := if l.session.Some? then l.session.value.rejectReason else None;
    if ToRejected(me, l, e, env) && !StatusIs(l, OpenRejected) then
      if e.RejectOpenBy? then Some(e.text) else Some(if e.msg.reason.Some? then e.msg.reason.value else "")
    else if DeadlineCloses(l, e, env) then Some("deadline_expired")
    else if RevokeCloses(me, l, e) then Some("bond_revoked")
    else if RequestCloses(l, e, env) then
      if e.reason.Some? then e.reason else if before.Some? then before else Some("thread_closed")
    else before
  }

  ghost predicate Charted(me: string, l: Local, e: Event, env: Env, m: Local) {
    && (forall st :: StatusIs(m, st) && !StatusIs(l, st) <==> Leads(me, l, e, env, st) && !StatusIs(l, st))
    && (m.session.Some? ==> m.session.value.rejectReason == ReasonAfter(me, l, e, env))
  }

  // ---- events that move the status by the deadline alone ----

  predicate Passive(e: Event) {
    match e
    case Incoming(_, msg) => Budgetary(msg) || msg.Malformed? || msg.Turn? || msg.Challenge? || msg.ReportMsg?
    case _ => OnBudget(e) || (OnTalk(e) && !e.SignHash?) || e.LookForRatify?
  }

  predicate SameStatus(l: Local, m: Local) {
    if l.session.None? then m.session.None?
    else
      && m.session.Some? && m.session.value.status == l.session.value.status
      && m.session.value.rejectReason == l.session.value.rejectReason
  }

  lemma OnlyDeadline(me: string, l: Local, e: Event, env: Env, m: Local)
    requires Passive(e) && SameStatus(if LooksAtDeadline(l, e) then EnsureLive(l, env.now) else l, m)
    ensures Charted(me, l, e, env, m)
  {
    hide Leads;
    PassiveLeads(me, l, e, env);
  }

  lemma PassiveLeads(me: string, l: Local, e: Event, env: Env)
    requires Passive(e)
    ensures forall st :: Leads(me, l, e, env, st) <==> st == Closed && DeadlineCloses(l, e, env)
    ensures !ToRejected(me, l, e, env) && !RevokeCloses(me, l, e) && !RequestCloses(l, e, env)
  {
    hide Admits, LooksAtDeadline, PastDeadline;
  }

  lemma OpenCharted(me: string, l: Local, thread: string, to: string, terms: Terms, allowed: bool, env: Env)
    requires l.session.None?
    ensures Charted(me, l, Event.Open(to, terms, allowed), env, HandleOpen(me, l, thread, to, terms, allowed, env).local)
  {
  }

  lemma ApproveCharted(me: string, l: Local, id: string, viaHuman: bool, env: Env)
    requires Inv(me, l)
    ensures Charted(me, l, ApproveOpenBy(id, viaHuman), env, ApproveOpen(l, id, viaHuman, env).local)
  {
    FoundIsQueued(l.opens, id);
  }

  lemma RejectCharted(me: string, l: Local, id: string, text: string, viaHuman: bool, env: Env)
    requires Inv(me, l)
    ensures Charted(me, l, RejectOpenBy(id, text, viaHuman), env, RejectOpen(l, id, text, viaHuman, env).local)
  {
    FoundIsQueued(l.opens, id);
  }

  lemma SweepCharted(me: string, l: Local, env: Env)
    requires Inv(me, l)
    ensures Charted(me, l, Event.Expire, env, ExpireSession(me, l, env).local)
  {
  }

  lemma LookOpenCharted(me: string, l: Local, env: Env)
    requires Inv(me, l)
    ensures Charted(me, l, LookForOpen, env, ResolveOpen(l, env))
  {
  }

  lemma OpeningCharted(me: string, l: Local, thread: string, e: Event, env: Env)
    requires Inv(me, l) && Possible(me, l, e) && OnOpening(e)
    ensures Charted(me, l, e, env, Step(me, l, thread, e, env).local)
  {
    hide Charted, HandleOpen, ApproveOpen, RejectOpen, ExpireSession, ResolveOpen;
    match e {
      case Open(to, terms, allowed) => OpenCharted(me, l, thread, to, terms, allowed, env);
      case ApproveOpenBy(id, viaHuman) => ApproveCharted(me, l, id, viaHuman, env);
      case RejectOpenBy(id, text, viaHuman) => RejectCharted(me, l, id, text, viaHuman, env);
      case Expire => SweepCharted(me, l, env);
      case LookForOpen => LookOpenCharted(me, l, env);
    }
  }

  lemma TurnCharted(me: string, l: Local, wellFormed: bool, env: Env)
    ensures Charted(me, l, SayTurn(wellFormed), env, TakeTurn(me, l, wellFormed, env).local)
    ensures Charted(me, l, SayBadly, env, SayNothing(l, env).local)
  {
    hide Charted;
    OnlyDeadline(me, l, SayTurn(wellFormed), env, TakeTurn(me, l, wellFormed, env).local);
    OnlyDeadline(me, l, SayBadly, env, SayNothing(l, env).local);
  }

  lemma TestsCharted(me: string, l: Local, report: Report, env: Env)
    ensures Charted(me, l, SayChallenge, env, FileChallenge(me, l, env).local)
    ensures Charted(me, l, SayReport(report), env, FileReport(me, l, report, env).local)
  {
    hide Charted, SetRunnerReport;
    OnlyDeadline(me, l, SayChallenge, env, FileChallenge(me, l, env).local);
    OnlyDeadline(me, l, SayReport(report), env, FileReport(me, l, report, env).local);
  }

  /** What a recorded signature makes of the status. */
  lemma RecordedStatus(l: Local, s: Record, role: Role, hash: string)
    requires l.session == Some(s)
    ensures var m := RecordSign(l, s, role, hash);
            && m.session.Some? && m.session.value.rejectReason == s.rejectReason
            && m.session.value.status == if hash != "" && HasSigned(s, Other(role)) then Signed else s.status
  {
  }

  lemma ItemKeepsSession(l: Local, s: Record, me: string, env: Env)
    ensures EnsureRatifyItem(l, s, me, env).session == l.session
  {
  }

  lemma SignCharted(me: string, l: Local, hash: string, env: Env)
    requires Inv(me, l)
    ensures Charted(me, l, SignHash(hash), env, Sign(me, l, hash, env).local)
  {
    hide RecordSign, EnsureRatifyItem, CeremonyComplete, GateActive, ProfilesFor, Admits;
    SignRuled(me, l, hash, env);
    if l.session.Some? && Sign(me, l, hash, env).reply == Done {
      var s := l.session.value;
      RecordedStatus(l, s, RoleFor(s, me), hash);
      var l1 := RecordSign(l, s, RoleFor(s, me), hash);
      ItemKeepsSession(l1, l1.session.value, me, env);
    }
  }

  lemma TalkCharted(me: string, l: Local, thread: string, e: Event, env: Env)
    requires Inv(me, l) && OnTalk(e)
    ensures Charted(me, l, e, env, Step(me, l, thread, e, env).local)
  {
    hide Charted, TakeTurn, FileChallenge, FileReport, SayNothing, Sign;
    match e {
      case SayTurn(wellFormed) => TurnCharted(me, l, wellFormed, env);
      case SayChallenge => TestsCharted(me, l, Report("", false, "", None), env);
      case SayReport(report) => TestsCharted(me, l, report, env);
      case SayBadly => TurnCharted(me, l, false, env);
      case SignHash(hash) => SignCharted(me, l, hash, env);
    }
  }

  lemma OwnRatificationTakes(me: string, l: Local, byItem: Option<string>, given: Option<string>, viaHuman: bool, env: Env)
    requires Inv(me, l)
    ensures var m := RatifyBy(me, l, byItem, given, viaHuman, env).local;
            if l.session.None? then m.session.None?
            else
              && m.session.Some? && m.session.value.rejectReason == l.session.value.rejectReason
              && m.session.value.status ==
                 if MayRatify(l, byItem, given, viaHuman) && Other(l.session.value.role) in l.session.value.ratified then Closed
                 else l.session.value.status
  {
    if byItem.Some? {
      FoundIsQueued(l.ratifies, byItem.value);
    }
  }

  lemma RatifyCharted(me: string, l: Local, byItem: Option<string>, given: Option<string>, viaHuman: bool, env: Env)
    requires Inv(me, l)
    ensures Charted(me, l, RatifyWith(byItem, given, viaHuman), env, RatifyBy(me, l, byItem, given, viaHuman, env).local)
  {
    hide RatifyBy, MayRatify;
    OwnRatificationTakes(me, l, byItem, given, viaHuman, env);
  }

  /** A request closes what has not ended, with the reason given, the one already there, or the default. */
  lemma CloseTakes(l: Local, reason: Option<string>, env: Env)
    ensures var k := EnsureLive(l, env.now);
            var m := ThreadClose(l, reason, env).local;
            if k.session.None? || Terminal(k.session.value.status) then SameStatus(k, m)
            else
              && m.session.Some? && m.session.value.status == Closed
              && m.session.value.rejectReason ==
                 if reason.Some? then reason
                 else if k.session.value.rejectReason.Some? then k.session.value.rejectReason
                 else Some("thread_closed")
  {
    hide EnsureLive, WithoutFirst;
  }

  lemma CloseCharted(me: string, l: Local, reason: Option<string>, env: Env)
    requires Inv(me, l)
    ensures Charted(me, l, CloseThread(reason), env, ThreadClose(l, reason, env).local)
  {
    hide ThreadClose, Inv;
    CloseTakes(l, reason, env);
  }

  lemma RevokedSession(me: string, l: Local, peer: string)
    ensures BondRevoke(me, l, peer).session == if With(me, l.session, peer) then Some(Revoked(l.session.value)) else l.session
  {
  }

  lemma RevokeCharted(me: string, l: Local, peer: string, env: Env)
    requires Inv(me, l)
    ensures Charted(me, l, RevokeBond(peer), env, BondRevoke(me, l, peer))
  {
    hide BondRevoke, Inv;
    RevokedSession(me, l, peer);
  }

  lemma AskCharted(me: string, l: Local, env: Env)
    requires Inv(me, l)
    ensures Charted(me, l, AskStatus, env, ReadStatus(me, l, env).local)
  {
    hide EnsureRatifyItem, Admits;
    var m := EnsureLive(l, env.now);
    if m.session.Some? {
      ItemKeepsSession(EnsureOpenItem(m, m.session.value, env), m.session.value, me, env);
    }
  }

  lemma LookCharted(me: string, l: Local, env: Env)
    ensures Charted(me, l, LookForRatify, env, ResolveRatify(me, l, env))
  {
    hide Charted;
    OnlyDeadline(me, l, LookForRatify, env, ResolveRatify(me, l, env));
  }

  lemma CareCharted(me: string, l: Local, thread: string, e: Event, env: Env)
    requires Inv(me, l) && OnCare(e)
    ensures Charted(me, l, e, env, Step(me, l, thread, e, env).local)
  {
    hide Charted, RatifyBy, ResolveRatify, ReadStatus, BondRevoke, ThreadClose;
    match e {
      case RatifyWith(byItem, given, viaHuman) => RatifyCharted(me, l, byItem, given, viaHuman, env);
      case CloseThread(reason) => CloseCharted(me, l, reason, env);
      case RevokeBond(peer) => RevokeCharted(me, l, peer, env);
      case LookForRatify => LookCharted(me, l, env);
      case AskStatus => AskCharted(me, l, env);
    }
  }

  lemma DraftCharted(me: string, l: Local, n: int, p: string, env: Env)
    ensures Charted(me, l, Extend(n, p), env, ExtendBudget(me, l, n, p, env).local)
    ensures Charted(me, l, Retry, env, RetryExtend(l, env).local)
  {
    hide Charted;
    OnlyDeadline(me, l, Extend(n, p), env, ExtendBudget(me, l, n, p, env).local);
    OnlyDeadline(me, l, Retry, env, RetryExtend(l, env).local);
  }

  lemma ApproveExtendCharted(me: string, l: Local, id: string, viaHuman: bool, env: Env)
    ensures Charted(me, l, ApproveExtendBy(id, viaHuman), env, ApproveExtend(me, l, id, viaHuman, env).local)
  {
    hide Charted;
    OnlyDeadline(me, l, ApproveExtendBy(id, viaHuman), env, ApproveExtend(me, l, id, viaHuman, env).local);
  }

  lemma RejectExtendCharted(me: string, l: Local, id: string, viaHuman: bool, why: Option<string>, env: Env)
    ensures Charted(me, l, RejectExtendBy(id, viaHuman, why), env, RejectExtend(me, l, id, viaHuman, why, env).local)
  {
    hide Charted;
    OnlyDeadline(me, l, RejectExtendBy(id, viaHuman, why), env, RejectExtend(me, l, id, viaHuman, why, env).local);
  }

  lemma BudgetCharted(me: string, l: Local, thread: string, e: Event, env: Env)
    requires OnBudget(e)
    ensures Charted(me, l, e, env, Step(me, l, thread, e, env).local)
  {
    hide Charted, ExtendBudget, ApproveExtend, RejectExtend, RetryExtend;
    match e {
      case Extend(n, p) => DraftCharted(me, l, n, p, env);
      case Retry => DraftCharted(me, l, 0, "", env);
      case ApproveExtendBy(id, viaHuman) => ApproveExtendCharted(me, l, id, viaHuman, env);
      case RejectExtendBy(id, viaHuman, why) => RejectExtendCharted(me, l, id, viaHuman, why, env);
    }
  }

  lemma BudgetHeardCharted(me: string, l: Local, thread: string, from: string, msg: Msg, env: Env)
    requires Budgetary(msg)
    ensures Charted(me, l, Incoming(from, msg), env, Receive(me, l, thread, from, msg, env).local)
  {
    hide Charted, IncomingPropose, IncomingApproved, IncomingReject;
    BudgetWordStatus(me, EnsureLive(l, env.now), from, msg.payload, env);
    OnlyDeadline(me, l, Incoming(from, msg), env, Receive(me, l, thread, from, msg, env).local);
  }

  lemma BudgetWordStatus(me: string, l: Local, from: string, p: Payload, env: Env)
    ensures SameStatus(l, IncomingPropose(me, l, from, p, env).local)
    ensures SameStatus(l, IncomingApproved(l, from, p).local)
    ensures SameStatus(l, IncomingReject(l, from, p).local)
  {
  }

  /** An opening makes a new record, pending or already expired, and leaves a stored one alone. */
  lemma OpenTakes(me: string, l: Local, thread: string, from: string, terms: Terms, env: Env)
    ensures var k := EnsureLive(l, env.now);
            var m := Receive(me, l, thread, from, NegoOpen(terms), env).local;
            && m.session.Some?
            && if k.session.Some? then m.session == k.session
               else
                 && m.session.value.rejectReason.None?
                 && m.session.value.status == if env.now > terms.budget.deadline then OpenExpired else Pending
  {
    hide EnsureLive;
  }

  lemma OpenHeardCharted(me: string, l: Local, thread: string, from: string, terms: Terms, env: Env)
    requires Inv(me, l) && from != me
    ensures Charted(me, l, Incoming(from, NegoOpen(terms)), env, Receive(me, l, thread, from, NegoOpen(terms), env).local)
  {
    hide Receive, Inv;
    OpenTakes(me, l, thread, from, terms, env);
  }

  /** An answer to the opening takes effect when it comes from the recipient and not too late. */
  lemma AnswerTakes(me: string, l: Local, thread: string, from: string, msg: Msg, env: Env)
    requires Inv(me, l) && from != me && (msg.OpenApproved? || msg.OpenReject? || msg.OpenExpiredMsg?)
    ensures var k := EnsureLive(l, env.now);
            var m := Receive(me, l, thread, from, msg, env).local;
            if k.session.None? then m.session.None?
            else
              var s := k.session.value;
              if from == s.recipient && !AlreadyAnswered(s, msg) && !TooLate(s, msg) then m.session == Some(Answered(s, msg))
              else m.session == Some(s)
  {
    hide EnsureLive, TooLate, Answered, AlreadyAnswered;
    EnsureLiveGood(me, l, env.now);
  }

  lemma ApprovalHeardCharted(me: string, l: Local, thread: string, from: string, env: Env)
    requires Inv(me, l) && from != me
    ensures Charted(me, l, Incoming(from, OpenApproved), env, Receive(me, l, thread, from, OpenApproved, env).local)
  {
    hide Receive, Inv;
    AnswerTakes(me, l, thread, from, OpenApproved, env);
  }

  lemma RefusalHeardCharted(me: string, l: Local, thread: string, from: string, msg: Msg, env: Env)
    requires Inv(me, l) && from != me && msg.OpenReject?
    ensures Charted(me, l, Incoming(from, msg), env, Receive(me, l, thread, from, msg, env).local)
  {
    hide Receive, Inv;
    AnswerTakes(me, l, thread, from, msg, env);
  }

  lemma ExpiryHeardCharted(me: string, l: Local, thread: string, from: string, env: Env)
    requires Inv(me, l) && from != me
    ensures Charted(me, l, Incoming(from, OpenExpiredMsg), env, Receive(me, l, thread, from, OpenExpiredMsg, env).local)
  {
    hide Receive, Inv;
    AnswerTakes(me, l, thread, from, OpenExpiredMsg, env);
  }

  lemma WordHeardCharted(me: string, l: Local, thread: string, from: string, msg: Msg, env: Env)
    requires msg.Turn? || msg.Challenge? || msg.ReportMsg? || msg.Malformed?
    ensures Charted(me, l, Incoming(from, msg), env, Receive(me, l, thread, from, msg, env).local)
  {
    hide Charted, SetRunnerReport, EnsureLive;
    OnlyDeadline(me, l, Incoming(from, msg), env, Receive(me, l, thread, from, msg, env).local);
  }

  /** A peer's ratification closes the session when it is the second one and a hash is recorded. */
  lemma RatificationTakes(me: string, l: Local, thread: string, from: string, env: Env)
    requires Inv(me, l) && from != me
    ensures var k := EnsureLive(l, env.now);
            var m := Receive(me, l, thread, from, RatifiedMsg, env).local;
            if k.session.None? then m.session.None?
            else
              var s := k.session.value;
              && m.session.Some? && m.session.value.rejectReason == s.rejectReason
              && m.session.value.status ==
                 if (from == s.initiator || from == s.recipient) && !Terminal(s.status)
                    && s.role in s.ratified && Truthy(s.artifactHash)
                 then Closed else s.status
  {
    hide EnsureLive;
    EnsureLiveGood(me, l, env.now);
  }

  lemma RatifiedHeardCharted(me: string, l: Local, thread: string, from: string, env: Env)
    requires Inv(me, l) && from != me
    ensures Charted(me, l, Incoming(from, RatifiedMsg), env, Receive(me, l, thread, from, RatifiedMsg, env).local)
  {
    hide Receive;
    RatificationTakes(me, l, thread, from, env);
  }

  /** A peer's signature makes the session signed when it comes on top of one of the other role. */
  lemma SignatureTakes(me: string, l: Local, thread: string, from: string, hash: string, env: Env)
    ensures var k := EnsureLive(l, env.now);
            var m := Receive(me, l, thread, from, SignedMsg(hash), env).local;
            if k.session.None? then m.session.None?
            else
              var s := k.session.value;
              var role := if from == s.initiator then Initiator else Recipient;
              && m.session.Some? && m.session.value.rejectReason == s.rejectReason
              && m.session.value.status ==
                 if (from == s.initiator || from == s.recipient) && !Terminal(s.status) && hash != "" && HasSigned(s, Other(role))
                 then Signed else s.status
  {
    hide EnsureLive, RecordSign, EnsureRatifyItem, HasSigned;
    var k := EnsureLive(l, env.now);
    if k.session.Some? && Participant(k.session.value, from).Some? {
      var s := k.session.value;
      RecordedStatus(k, s, Participant(s, from).value, hash);
      var l1 := RecordSign(k, s, Participant(s, from).value, hash);
      ItemKeepsSession(l1, l1.session.value, me, env);
    }
  }

  lemma SignedHeardCharted(me: string, l: Local, thread: string, from: string, hash: string, env: Env)
    requires Inv(me, l) && from != me
    ensures Charted(me, l, Incoming(from, SignedMsg(hash)), env, Receive(me, l, thread, from, SignedMsg(hash), env).local)
  {
    hide Receive, Inv, HasSigned;
    SignatureTakes(me, l, thread, from, hash, env);
  }

  lemma HeardCharted(me: string, l: Local, thread: string, e: Event, env: Env)
    requires Inv(me, l) && Possible(me, l, e) && e.Incoming?
    ensures Charted(me, l, e, env, Step(me, l, thread, e, env).local)
  {
    hide Charted, Receive;
    match e.msg {
      case NegoOpen(terms) => OpenHeardCharted(me, l, thread, e.from, terms, env);
      case OpenApproved => ApprovalHeardCharted(me, l, thread, e.from, env);
      case OpenReject(_) => RefusalHeardCharted(me, l, thread, e.from, e.msg, env);
      case OpenExpiredMsg => ExpiryHeardCharted(me, l, thread, e.from, env);
      case BudgetPropose(_) | BudgetApproved(_) | BudgetReject(_) => BudgetHeardCharted(me, l, thread, e.from, e.msg, env);
      case SignedMsg(hash) => SignedHeardCharted(me, l, thread, e.from, hash, env);
      case RatifiedMsg => RatifiedHeardCharted(me, l, thread, e.from, env);
      case _ => WordHeardCharted(me, l, thread, e.from, e.msg, env);
    }
  }

  lemma StepCharted(me: string, l: Local, thread: string, e: Event, env: Env)
    requires Inv(me, l) && Possible(me, l, e)
    ensures Charted(me, l, e, env, Step(me, l, thread, e, env).local)
  {
    hide Charted, Step;
    if OnOpening(e) {
      OpeningCharted(me, l, thread, e, env);
    } else if OnTalk(e) {
      TalkCharted(me, l, thread, e, env);
    } else if OnCare(e) {
      CareCharted(me, l, thread, e, env);
    } else if OnBudget(e) {
      BudgetCharted(me, l, thread, e, env);
    } else {
      HeardCharted(me, l, thread, e, env);
    }
  }

  /**
   * Over all events: a session comes to a status it is not in exactly when the event leads there, so every
   * other event leaves the status alone; and the reason it carries afterwards.
   */
  lemma StatusMovesIff(me: string, l: Local, thread: string, e: Event, env: Env, st: Status)
    requires Inv(me, l) && Possible(me, l, e) && !StatusIs(l, st)
    ensures var m := Step(me, l, thread, e, env).local;
            && (StatusIs(m, st) <==> Leads(me, l, e, env, st))
            && (m.session.Some? ==> m.session.value.rejectReason == ReasonAfter(me, l, e, env))
  {
    hide Step, Leads, ReasonAfter;
    StepCharted(me, l, thread, e, env);
  }
}

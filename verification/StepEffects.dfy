/** How one event of a machine looks from outside: what it may send, and what it leaves alone. */
module StepEffects {
  import opened Options
  import opened SessionTypes
  import opened ThreadSteps
  import opened BudgetSteps
  import opened MachineSteps
  import opened ThreadInvariant

  predicate IsLive(l: Local) {
    l.session.Some? && l.session.value.status == Live
  }

  predicate Running(l: Local) {
    l.session.Some? && LiveOrSigned(l.session.value)
  }

  predicate Unopened(l: Local) {
    l.session.None? || l.session.value.status == Pending
  }

  predicate Approves(e: Event, r: Reply) {
    e.ApproveOpenBy? && r == Done
  }

  /** A human approved this machine's own approval item. */
  predicate Passes(l: Local, e: Event, o: Out) {
    Approves(e, o.reply) && l.session.Some? && l.session.value.status == Pending && l.session.value.role == Recipient
  }

  /** The peer's approval woke an initiator. */
  predicate Woken(l: Local, e: Event) {
    e.Incoming? && e.msg.OpenApproved? && l.session.Some? && l.session.value.role == Initiator
  }

  predicate BeforeOpening(m: Msg) {
    m.RatifiedMsg? || m.NegoOpen? || m.OpenReject? || m.OpenExpiredMsg?
  }

  predicate Budgetary(m: Msg) {
    m.BudgetPropose? || m.BudgetApproved? || m.BudgetReject?
  }

  predicate OnThread(m: Msg, thread: string) {
    Budgetary(m) ==> m.payload.thread == thread
  }

  /** What an event may send and how it may change the status. */
  ghost predicate Tame(l: Local, e: Event, o: Out, thread: string) {
    var m := o.local;
    && (o.sent == [] || (|o.sent| == 1 &&
          var x := o.sent[0];
          && m.session.Some?
          && (x.OpenApproved? ==> Passes(l, e, o))
          && (x.NegoOpen? ==> e.Open? && x.terms == m.session.value.terms)
          && (!Running(l) && !Passes(l, e, o) ==> BeforeOpening(x))
          && (Unopened(m) ==> x.NegoOpen?)
          && OnThread(x, thread)))
    && (Approves(e, o.reply) ==> Passes(l, e, o) && Running(m))
    && ((Running(m) && !Running(l)) || (IsLive(m) && !IsLive(l)) ==> Passes(l, e, o) || Woken(l, e))
    && (l.session.Some? ==> m.session.Some? && (!Running(l) ==> m.session.value.terms == l.session.value.terms))
    && (Unopened(m) ==> Unopened(l))
    && (l.session.None? && m.session.Some? ==> e.Open? || (e.Incoming? && e.msg.NegoOpen?))
  }

  /** The events that move the budget protocol: live, within the deadline, and past the handler's guards. */
  predicate Loud(me: string, l: Local, e: Event, env: Env) {
    && IsLive(l) && !PastDeadline(l.session.value, env.now)
    && var s := l.session.value;
    match e
    case Extend(n, _) => s.extension.None? && !PeerOfferQueued(l, RoleFor(s, me)) && n > s.terms.budget.maxTurns
    case ApproveExtendBy(id, viaHuman) => viaHuman && FindId(l.budgets, id).Some? && FirstOffer(l).Some?
    case RejectExtendBy(id, viaHuman, _) => viaHuman && FindId(l.budgets, id).Some? && FirstOffer(l).Some?
    case Retry => s.extension.Some? && s.extension.value.status != AwaitingPeer && env.sendOk
    case Incoming(from, msg) => Budgetary(msg) && Screen(l, from, msg.payload).None?
    case _ => false
  }

  /** Nothing of the budget extension moved; leaving live may drop what was queued and outstanding. */
  ghost predicate Still(l: Local, o: Out) {
    var m := o.local;
    && (o.sent == [] || (|o.sent| == 1 && !Budgetary(o.sent[0])))
    && (l.session.Some? ==>
          && m.session.Some?
          && m.session.value.decided == l.session.value.decided
          && m.session.value.terms.budget.maxTurns == l.session.value.terms.budget.maxTurns)
    && (FirstOffer(m).None? || FirstOffer(m) == FirstOffer(l))
    && (IsLive(m) ==> if IsLive(l) then m.session.value.extension == l.session.value.extension && FirstOffer(m) == FirstOffer(l)
                      else m.session.value.extension.None? && FirstOffer(m).None?)
    && (l.session.None? && m.session.Some? ==> m.session.value.decided == [] && !IsLive(m))
  }

  ghost predicate Calm(l: Local, e: Event, o: Out, thread: string) {
    Tame(l, e, o, thread) && Still(l, o)
  }

  /** Looking at the deadline first changes nothing about what the rest of a handler may do. */
  lemma AfterLive(l: Local, now: int, e: Event, o: Out, thread: string)
    requires !Approves(e, o.reply) && Keeps(EnsureLive(l, now), o.local)
    ensures Tame(EnsureLive(l, now), e, o, thread) ==> Tame(l, e, o, thread)
    ensures Still(EnsureLive(l, now), o) ==> Still(l, o)
  {
  }

  lemma LiveOnce(l: Local, now: int)
    ensures EnsureLive(EnsureLive(l, now), now) == EnsureLive(l, now)
  {
  }

  // ---- events without any budget effect ----

  lemma OpenCalm(me: string, l: Local, thread: string, to: string, terms: Terms, allowed: bool, env: Env)
    requires Inv(me, l) && l.session.None?
    ensures Calm(l, Event.Open(to, terms, allowed), HandleOpen(me, l, thread, to, terms, allowed, env), thread)
  {
  }

  lemma ApproveOpenCalm(me: string, l: Local, thread: string, id: string, viaHuman: bool, env: Env)
    requires Inv(me, l)
    ensures Calm(l, Event.ApproveOpenBy(id, viaHuman), ApproveOpen(l, id, viaHuman, env), thread)
  {
  }

  lemma RejectOpenCalm(me: string, l: Local, thread: string, id: string, text: string, viaHuman: bool, env: Env)
    requires Inv(me, l)
    ensures Calm(l, Event.RejectOpenBy(id, text, viaHuman), RejectOpen(l, id, text, viaHuman, env), thread)
  {
  }

  lemma ExpireCalm(me: string, l: Local, thread: string, env: Env)
    requires Inv(me, l)
    ensures Calm(l, Event.Expire, ExpireSession(me, l, env), thread)
  {
  }

  lemma FreshTurnCalm(me: string, l: Local, thread: string, wellFormed: bool, env: Env)
    requires Inv(me, l) && EnsureLive(l, env.now) == l
    ensures Calm(l, SayTurn(wellFormed), TakeTurn(me, l, wellFormed, env), thread)
  {
  }

  lemma TurnCalm(me: string, l: Local, thread: string, wellFormed: bool, env: Env)
    requires Inv(me, l)
    ensures Calm(l, SayTurn(wellFormed), TakeTurn(me, l, wellFormed, env), thread)
  {
    var m := EnsureLive(l, env.now);
    EnsureLiveGood(me, l, env.now);
    LiveOnce(l, env.now);
    TakeTurnGood(me, m, wellFormed, env);
    FreshTurnCalm(me, m, thread, wellFormed, env);
    AfterLive(l, env.now, SayTurn(wellFormed), TakeTurn(me, l, wellFormed, env), thread);
  }

  lemma ChallengeStill(me: string, l: Local, env: Env)
    requires Inv(me, l)
    ensures Still(l, FileChallenge(me, l, env))
  {
  }

  lemma ChallengeTame(me: string, l: Local, thread: string, env: Env)
    requires Inv(me, l)
    ensures Tame(l, Event.SayChallenge, FileChallenge(me, l, env), thread)
  {
  }

  lemma ChallengeCalm(me: string, l: Local, thread: string, env: Env)
    requires Inv(me, l)
    ensures Calm(l, Event.SayChallenge, FileChallenge(me, l, env), thread)
  {
    hide FileChallenge;
    ChallengeTame(me, l, thread, env);
    ChallengeStill(me, l, env);
  }

  lemma ReportStill(me: string, l: Local, report: Report, env: Env)
    requires Inv(me, l)
    ensures Still(l, FileReport(me, l, report, env))
  {
  }

  lemma ReportTame(me: string, l: Local, thread: string, report: Report, env: Env)
    requires Inv(me, l)
    ensures Tame(l, Event.SayReport(report), FileReport(me, l, report, env), thread)
  {
  }

  lemma ReportCalm(me: string, l: Local, thread: string, report: Report, env: Env)
    requires Inv(me, l)
    ensures Calm(l, Event.SayReport(report), FileReport(me, l, report, env), thread)
  {
    hide FileReport;
    ReportTame(me, l, thread, report, env);
    ReportStill(me, l, report, env);
  }

  lemma BadlyCalm(me: string, l: Local, thread: string, env: Env)
    requires Inv(me, l)
    ensures Calm(l, Event.SayBadly, SayNothing(l, env), thread)
  {
  }

  /** What recording a sign hash leaves alone. */
  lemma RecordSignFacts(l: Local, s: Record, role: Role, hash: string)
    requires l.session == Some(s)
    ensures var m := RecordSign(l, s, role, hash);
            && m.session.Some? && m.session.value.terms == s.terms && m.session.value.decided == s.decided
            && m.session.value.rejectReason == s.rejectReason
            && (m.session.value.status == s.status || m.session.value.status == Signed)
            && (m.session.value.status == Signed && s.status != Signed ==> role == Initiator || HasSigned(s, Initiator))
            && (m.session.value.status == Signed && s.status != Signed ==> role == Recipient || HasSigned(s, Recipient))
            && (s.status != Live || m.session.value.status == Live ==>
                  m.budgets == l.budgets && m.session.value.extension == s.extension)
            && (m.budgets == l.budgets || m.budgets == [])
  {
  }

  lemma RatifyItemFacts(l: Local, s: Record, me: string, env: Env)
    requires l.session == Some(s)
    ensures var m := EnsureRatifyItem(l, s, me, env); m.session == l.session && m.budgets == l.budgets
  {
  }

  lemma FreshSignCalm(me: string, l: Local, thread: string, hash: string, env: Env)
    requires Inv(me, l) && EnsureLive(l, env.now) == l
    ensures Calm(l, SignHash(hash), Sign(me, l, hash, env), thread)
  {
    if l.session.Some? {
      var s := l.session.value;
      RecordSignFacts(l, s, RoleFor(s, me), hash);
      var l1 := RecordSign(l, s, RoleFor(s, me), hash);
      RatifyItemFacts(l1, l1.session.value, me, env);
    }
  }

  lemma SignCalm(me: string, l: Local, thread: string, hash: string, env: Env)
    requires Inv(me, l)
    ensures Calm(l, SignHash(hash), Sign(me, l, hash, env), thread)
  {
    var m := EnsureLive(l, env.now);
    EnsureLiveGood(me, l, env.now);
    LiveOnce(l, env.now);
    SignGood(me, m, hash, env);
    FreshSignCalm(me, m, thread, hash, env);
    AfterLive(l, env.now, SignHash(hash), Sign(me, l, hash, env), thread);
  }

  /** A ratification touches nothing but the ratifications, the queue and, at the end, the closing. */
  lemma RatifyFacts(me: string, l: Local, s: Record, byItem: Option<string>, given: Option<string>, viaHuman: bool, env: Env)
    requires l.session == Some(s)
    ensures var o := RatifyBy(me, l, byItem, given, viaHuman, env);
            && o.local.session.Some? && o.local.budgets == l.budgets
            && o.local.session.value.terms == s.terms && o.local.session.value.decided == s.decided
            && (o.local.session.value.status == s.status || o.local.session.value.status == Closed)
            && (o.sent == [] || (o.sent == [RatifiedMsg] && (s.status == Signed || s.status == Closed)))
            && (o.local == l || s.status == Signed || s.status == Closed)
  {
  }

  lemma RatifyCalm(me: string, l: Local, thread: string, byItem: Option<string>, given: Option<string>, viaHuman: bool, env: Env)
    requires Inv(me, l)
    ensures Calm(l, RatifyWith(byItem, given, viaHuman), RatifyBy(me, l, byItem, given, viaHuman, env), thread)
  {
    if l.session.Some? {
      RatifyFacts(me, l, l.session.value, byItem, given, viaHuman, env);
    }
  }

  lemma LookForOpenCalm(me: string, l: Local, thread: string, env: Env)
    requires Inv(me, l)
    ensures Calm(l, Event.LookForOpen, Quiet(ResolveOpen(l, env), Done), thread)
  {
  }

  lemma LookForRatifyCalm(me: string, l: Local, thread: string, env: Env)
    requires Inv(me, l)
    ensures Calm(l, Event.LookForRatify, Quiet(ResolveRatify(me, l, env), Done), thread)
  {
  }

  lemma RequeueCalm(me: string, l: Local, thread: string, s: Record, env: Env)
    requires l.session == Some(s)
    ensures Calm(l, Event.AskStatus, Quiet(EnsureRatifyItem(EnsureOpenItem(l, s, env), s, me, env), Done), thread)
  {
  }

  lemma RequeueKeeps(me: string, l: Local, s: Record, env: Env)
    requires l.session == Some(s)
    ensures Keeps(l, EnsureRatifyItem(EnsureOpenItem(l, s, env), s, me, env))
  {
  }

  lemma StatusCalm(me: string, l: Local, thread: string, env: Env)
    requires Inv(me, l)
    ensures Calm(l, Event.AskStatus, ReadStatus(me, l, env), thread)
  {
    var m := EnsureLive(l, env.now);
    if m.session.Some? {
      RequeueCalm(me, m, thread, m.session.value, env);
      StatusGood(me, l, env);
      EnsureLiveGood(me, l, env.now);
      RequeueKeeps(me, m, m.session.value, env);
      AfterLive(l, env.now, Event.AskStatus, ReadStatus(me, l, env), thread);
    }
  }

  lemma RevokeStill(me: string, l: Local, peer: string)
    requires Inv(me, l)
    ensures Still(l, Quiet(BondRevoke(me, l, peer), Done))
  {
  }

  lemma RevokeTame(me: string, l: Local, thread: string, peer: string)
    requires Inv(me, l)
    ensures Tame(l, Event.RevokeBond(peer), Quiet(BondRevoke(me, l, peer), Done), thread)
  {
  }

  lemma RevokeCalm(me: string, l: Local, thread: string, peer: string)
    requires Inv(me, l)
    ensures Calm(l, Event.RevokeBond(peer), Quiet(BondRevoke(me, l, peer), Done), thread)
  {
    hide BondRevoke;
    RevokeTame(me, l, thread, peer);
    RevokeStill(me, l, peer);
  }

  lemma CloseStill(me: string, l: Local, reason: Option<string>, env: Env)
    requires Inv(me, l)
    ensures Still(l, ThreadClose(l, reason, env))
  {
  }

  lemma CloseTame(me: string, l: Local, thread: string, reason: Option<string>, env: Env)
    requires Inv(me, l)
    ensures Tame(l, Event.CloseThread(reason), ThreadClose(l, reason, env), thread)
  {
  }

  lemma CloseCalm(me: string, l: Local, thread: string, reason: Option<string>, env: Env)
    requires Inv(me, l)
    ensures Calm(l, Event.CloseThread(reason), ThreadClose(l, reason, env), thread)
  {
    hide ThreadClose;
    CloseTame(me, l, thread, reason, env);
    CloseStill(me, l, reason, env);
  }

  // ---- the budget events of this side ----

  lemma ExtendTame(me: string, l: Local, thread: string, n: int, p: string, env: Env)
    requires Inv(me, l)
    ensures Tame(l, Extend(n, p), ExtendBudget(me, l, n, p, env), thread)
    ensures !Loud(me, l, Extend(n, p), env) ==> Still(l, ExtendBudget(me, l, n, p, env))
  {
  }

  lemma ApproveStill(me: string, l: Local, id: string, viaHuman: bool, env: Env)
    requires Inv(me, l) && !Loud(me, l, ApproveExtendBy(id, viaHuman), env)
    ensures Still(l, ApproveExtend(me, l, id, viaHuman, env))
  {
  }

  lemma RejectStill(me: string, l: Local, id: string, viaHuman: bool, why: Option<string>, env: Env)
    requires Inv(me, l) && !Loud(me, l, RejectExtendBy(id, viaHuman, why), env)
    ensures Still(l, RejectExtend(me, l, id, viaHuman, why, env))
  {
  }

  /** What an emitting handler sends is a budget envelope of this thread, and it stays live. */
  lemma ApproveExtendTame(me: string, l: Local, thread: string, id: string, viaHuman: bool, env: Env)
    requires Inv(me, l) && (l.session.Some? ==> l.session.value.thread == thread)
    ensures Tame(l, ApproveExtendBy(id, viaHuman), ApproveExtend(me, l, id, viaHuman, env), thread)
  {
    EnsureLiveGood(me, l, env.now);
  }

  lemma RejectExtendTame(me: string, l: Local, thread: string, id: string, viaHuman: bool, why: Option<string>, env: Env)
    requires Inv(me, l) && (l.session.Some? ==> l.session.value.thread == thread)
    ensures Tame(l, RejectExtendBy(id, viaHuman, why), RejectExtend(me, l, id, viaHuman, why, env), thread)
  {
  }

  lemma RetryTame(me: string, l: Local, thread: string, env: Env)
    requires Inv(me, l) && (l.session.Some? ==> l.session.value.thread == thread)
    ensures Tame(l, Event.Retry, RetryExtend(l, env), thread)
    ensures !Loud(me, l, Event.Retry, env) ==> Still(l, RetryExtend(l, env))
  {
  }

  // ---- envelopes, after the deadline was looked at ----

  lemma HearOpenCalm(me: string, l: Local, thread: string, from: string, terms: Terms, env: Env)
    requires Inv(me, l) && from != me
    ensures Calm(l, Incoming(from, NegoOpen(terms)), IncomingOpen(me, l, thread, from, terms, env), thread)
  {
  }

  lemma AnsweredCalm(me: string, l: Local, s: Record, thread: string, from: string, msg: Msg)
    requires Inv(me, l) && l.session == Some(s) && (msg.OpenApproved? || msg.OpenReject? || msg.OpenExpiredMsg?)
    requires FromRecipient(s, from).None? ==> from != me
    requires !TooLate(s, msg)
    ensures FromRecipient(s, from).None? ==>
              Calm(l, Incoming(from, msg), Quiet(l.(session := Some(Answered(s, msg))), Done), thread)
  {
  }

  lemma HearAnswerCalm(me: string, l: Local, s: Record, thread: string, from: string, msg: Msg)
    requires Inv(me, l) && l.session == Some(s) && from != me && (msg.OpenApproved? || msg.OpenReject? || msg.OpenExpiredMsg?)
    ensures Calm(l, Incoming(from, msg), OpeningAnswer(l, s, from, msg), thread)
  {
    if !TooLate(s, msg) && !AlreadyAnswered(s, msg) {
      AnsweredCalm(me, l, s, thread, from, msg);
    }
  }

  lemma HearSignedCalm(me: string, l: Local, s: Record, role: Role, hash: string, env: Env, thread: string, e: Event)
    requires l.session == Some(s) && role != RoleFor(s, me) && !Terminal(s.status) && e.Incoming?
    requires s.status == Pending ==> RoleFor(s, me) !in s.signHashes
    ensures Calm(l, e, IncomingSigned(me, l, s, role, hash, env), thread)
  {
  }

  lemma HearSidelineStill(me: string, l: Local, s: Record, from: string, msg: Msg, env: Env)
    requires l.session == Some(s) && (msg.Turn? || msg.Challenge? || msg.ReportMsg?)
    ensures Still(l, Negotiation(me, l, s, from, msg, env))
  {
  }

  lemma HearSidelineTame(me: string, l: Local, s: Record, thread: string, from: string, msg: Msg, env: Env)
    requires l.session == Some(s) && (msg.Turn? || msg.Challenge? || msg.ReportMsg?)
    ensures Tame(l, Incoming(from, msg), Negotiation(me, l, s, from, msg, env), thread)
  {
  }

  lemma HearSidelineCalm(me: string, l: Local, s: Record, thread: string, from: string, msg: Msg, env: Env)
    requires l.session == Some(s) && (msg.Turn? || msg.Challenge? || msg.ReportMsg?)
    ensures Calm(l, Incoming(from, msg), Negotiation(me, l, s, from, msg, env), thread)
  {
    hide Negotiation;
    HearSidelineTame(me, l, s, thread, from, msg, env);
    HearSidelineStill(me, l, s, from, msg, env);
  }

  lemma HearRatifiedCalm(me: string, l: Local, s: Record, role: Role, thread: string, e: Event)
    requires l.session == Some(s) && role != RoleFor(s, me) && e.Incoming?
    requires s.status == Pending ==> RoleFor(s, me) !in s.ratified
    ensures Calm(l, e, IncomingRatified(me, l, s, role), thread)
  {
  }

  lemma HearTalkCalm(me: string, l: Local, s: Record, thread: string, from: string, msg: Msg, env: Env)
    requires Inv(me, l) && l.session == Some(s) && from != me
    requires msg.Turn? || msg.Challenge? || msg.ReportMsg? || msg.SignedMsg? || msg.RatifiedMsg?
    ensures Calm(l, Incoming(from, msg), Negotiation(me, l, s, from, msg, env), thread)
  {
    if Participant(s, from).Some? {
      var role := Participant(s, from).value;
      if msg.RatifiedMsg? {
        HearRatifiedCalm(me, l, s, role, thread, Incoming(from, msg));
      } else if msg.SignedMsg? && !Terminal(s.status) {
        HearSignedCalm(me, l, s, role, msg.hash, env, thread, Incoming(from, msg));
      } else if !msg.SignedMsg? {
        HearSidelineCalm(me, l, s, thread, from, msg, env);
      }
    }
  }

  lemma HearProposeTame(me: string, l: Local, thread: string, from: string, p: Payload, env: Env)
    requires Inv(me, l) && (l.session.Some? ==> l.session.value.thread == thread)
    ensures Tame(l, Incoming(from, BudgetPropose(p)), IncomingPropose(me, l, from, p, env), thread)
    ensures Screen(l, from, p).Some? ==> Still(l, IncomingPropose(me, l, from, p, env))
  {
  }

  lemma HearVerdictTame(me: string, l: Local, thread: string, from: string, p: Payload)
    requires Inv(me, l)
    ensures Tame(l, Incoming(from, BudgetApproved(p)), IncomingApproved(l, from, p), thread)
    ensures Tame(l, Incoming(from, BudgetReject(p)), IncomingReject(l, from, p), thread)
    ensures Screen(l, from, p).Some? ==> Still(l, IncomingApproved(l, from, p)) && Still(l, IncomingReject(l, from, p))
  {
  }

  lemma DispatchTame(me: string, m: Local, thread: string, from: string, msg: Msg, env: Env)
    requires Inv(me, m) && from != me && (m.session.Some? ==> m.session.value.thread == thread)
    requires EnsureLive(m, env.now) == m
    ensures var o := Receive(me, m, thread, from, msg, env);
            && Tame(m, Incoming(from, msg), o, thread)
            && (Budgetary(msg) ==> Screen(m, from, msg.payload).Some? ==> Still(m, o))
            && (!Budgetary(msg) ==> Still(m, o))
  {
    match msg {
      case Malformed =>
      case NegoOpen(terms) => HearOpenCalm(me, m, thread, from, terms, env);
      case BudgetPropose(p) => HearProposeTame(me, m, thread, from, p, env);
      case BudgetApproved(p) => HearVerdictTame(me, m, thread, from, p);
      case BudgetReject(p) => HearVerdictTame(me, m, thread, from, p);
      case OpenApproved | OpenReject(_) | OpenExpiredMsg =>
        if m.session.Some? { HearAnswerCalm(me, m, m.session.value, thread, from, msg); }
      case _ =>
        if m.session.Some? { HearTalkCalm(me, m, m.session.value, thread, from, msg, env); }
    }
  }

  lemma ReceiveTwice(me: string, l: Local, thread: string, from: string, msg: Msg, env: Env)
    ensures EnsureLive(EnsureLive(l, env.now), env.now) == EnsureLive(l, env.now)
    ensures Receive(me, EnsureLive(l, env.now), thread, from, msg, env) == Receive(me, l, thread, from, msg, env)
  {
  }

  /** What holds after the deadline was looked at holds of the whole handler. */
  lemma HeardWhole(me: string, l: Local, from: string, msg: Msg, env: Env, o: Out, thread: string)
    requires Inv(me, l) && from != me && Good(me, EnsureLive(l, env.now), o.local)
    requires Tame(EnsureLive(l, env.now), Incoming(from, msg), o, thread)
    requires !Loud(me, EnsureLive(l, env.now), Incoming(from, msg), env) ==> Still(EnsureLive(l, env.now), o)
    ensures Tame(l, Incoming(from, msg), o, thread)
    ensures !Loud(me, l, Incoming(from, msg), env) ==> Still(l, o)
  {
    AfterLive(l, env.now, Incoming(from, msg), o, thread);
  }

  lemma HearTame(me: string, l: Local, thread: string, from: string, msg: Msg, env: Env)
    requires Inv(me, l) && from != me && (l.session.Some? ==> l.session.value.thread == thread)
    ensures var o := Receive(me, l, thread, from, msg, env);
            && Tame(l, Incoming(from, msg), o, thread)
            && (!Loud(me, l, Incoming(from, msg), env) ==> Still(l, o))
  {
    hide Deliver;
    var m := EnsureLive(l, env.now);
    EnsureLiveGood(me, l, env.now);
    ReceiveTwice(me, l, thread, from, msg, env);
    ReceiveGood(me, m, thread, from, msg, env);
    DispatchTame(me, m, thread, from, msg, env);
    HeardWhole(me, l, from, msg, env, Receive(me, l, thread, from, msg, env), thread);
  }

  lemma OpeningCalm(me: string, l: Local, thread: string, e: Event, env: Env)
    requires Inv(me, l) && Possible(me, l, e) && OnOpening(e)
    ensures Calm(l, e, Step(me, l, thread, e, env), thread)
  {
    match e {
      case Open(to, terms, allowed) => OpenCalm(me, l, thread, to, terms, allowed, env);
      case ApproveOpenBy(id, viaHuman) => ApproveOpenCalm(me, l, thread, id, viaHuman, env);
      case RejectOpenBy(id, text, viaHuman) => RejectOpenCalm(me, l, thread, id, text, viaHuman, env);
      case Expire => ExpireCalm(me, l, thread, env);
      case LookForOpen => LookForOpenCalm(me, l, thread, env);
    }
  }

  lemma TalkCalm(me: string, l: Local, thread: string, e: Event, env: Env)
    requires Inv(me, l) && OnTalk(e)
    ensures Calm(l, e, Step(me, l, thread, e, env), thread)
  {
    match e {
      case SayTurn(wellFormed) => TurnCalm(me, l, thread, wellFormed, env);
      case SayChallenge => ChallengeCalm(me, l, thread, env);
      case SayReport(report) => ReportCalm(me, l, thread, report, env);
      case SayBadly => BadlyCalm(me, l, thread, env);
      case SignHash(hash) => SignCalm(me, l, thread, hash, env);
    }
  }

  lemma CareCalm(me: string, l: Local, thread: string, e: Event, env: Env)
    requires Inv(me, l) && OnCare(e)
    ensures Calm(l, e, Step(me, l, thread, e, env), thread)
  {
    hide RatifyBy, ResolveRatify, ReadStatus, BondRevoke, ThreadClose;
    match e {
      case RatifyWith(byItem, given, viaHuman) => RatifyCalm(me, l, thread, byItem, given, viaHuman, env);
      case LookForRatify => LookForRatifyCalm(me, l, thread, env);
      case AskStatus => StatusCalm(me, l, thread, env);
      case RevokeBond(peer) => RevokeCalm(me, l, thread, peer);
      case CloseThread(reason) => CloseCalm(me, l, thread, reason, env);
    }
  }

  lemma ApproveStep(me: string, l: Local, thread: string, id: string, viaHuman: bool, env: Env)
    requires Inv(me, l) && (l.session.Some? ==> l.session.value.thread == thread)
    ensures Tame(l, ApproveExtendBy(id, viaHuman), ApproveExtend(me, l, id, viaHuman, env), thread)
    ensures !Loud(me, l, ApproveExtendBy(id, viaHuman), env) ==> Still(l, ApproveExtend(me, l, id, viaHuman, env))
  {
    ApproveExtendTame(me, l, thread, id, viaHuman, env);
    if !Loud(me, l, ApproveExtendBy(id, viaHuman), env) {
      ApproveStill(me, l, id, viaHuman, env);
    }
  }

  lemma RejectStep(me: string, l: Local, thread: string, id: string, viaHuman: bool, why: Option<string>, env: Env)
    requires Inv(me, l) && (l.session.Some? ==> l.session.value.thread == thread)
    ensures Tame(l, RejectExtendBy(id, viaHuman, why), RejectExtend(me, l, id, viaHuman, why, env), thread)
    ensures !Loud(me, l, RejectExtendBy(id, viaHuman, why), env) ==> Still(l, RejectExtend(me, l, id, viaHuman, why, env))
  {
    RejectExtendTame(me, l, thread, id, viaHuman, why, env);
    if !Loud(me, l, RejectExtendBy(id, viaHuman, why), env) {
      RejectStill(me, l, id, viaHuman, why, env);
    }
  }

  lemma BudgetStep(me: string, l: Local, thread: string, e: Event, env: Env)
    requires Inv(me, l) && OnBudget(e) && (l.session.Some? ==> l.session.value.thread == thread)
    ensures Tame(l, e, Step(me, l, thread, e, env), thread)
    ensures !Loud(me, l, e, env) ==> Still(l, Step(me, l, thread, e, env))
  {
    hide ExtendBudget, ApproveExtend, RejectExtend, RetryExtend;
    match e {
      case Extend(n, p) => ExtendTame(me, l, thread, n, p, env);
      case ApproveExtendBy(id, viaHuman) => ApproveStep(me, l, thread, id, viaHuman, env);
      case RejectExtendBy(id, viaHuman, why) => RejectStep(me, l, thread, id, viaHuman, why, env);
      case Retry => RetryTame(me, l, thread, env);
    }
  }

  /** Every event is tame, and unless it is loud it leaves the budget extension alone. */
  lemma StepEffect(me: string, l: Local, thread: string, e: Event, env: Env)
    requires Inv(me, l) && Possible(me, l, e) && (l.session.Some? ==> l.session.value.thread == thread)
    ensures Tame(l, e, Step(me, l, thread, e, env), thread)
    ensures !Loud(me, l, e, env) ==> Still(l, Step(me, l, thread, e, env))
  {
    if OnOpening(e) {
      OpeningCalm(me, l, thread, e, env);
    } else if OnTalk(e) {
      TalkCalm(me, l, thread, e, env);
    } else if OnCare(e) {
      CareCalm(me, l, thread, e, env);
    } else if OnBudget(e) {
      BudgetStep(me, l, thread, e, env);
    } else {
      HearTame(me, l, thread, e.from, e.msg, env);
    }
  }
}

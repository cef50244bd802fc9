/** Whole runs of one machine on one thread, against arbitrary envelopes from any peer. */
module ThreadRuns {
  import opened Options
  import opened SessionTypes
  import opened ThreadSteps
  import opened BudgetSteps
  import opened MachineSteps
  import opened ThreadInvariant

  datatype Input = Input(event: Event, env: Env)

  function After(me: string, l: Local, thread: string, i: Input): Local
    requires Possible(me, l, i.event)
  {
    Step(me, l, thread, i.event, i.env).local
  }

  ghost predicate Feasible(me: string, l: Local, thread: string, ins: seq<Input>)
    decreases |ins|
  {
    ins != [] ==> Possible(me, l, ins[0].event) && Feasible(me, After(me, l, thread, ins[0]), thread, ins[1..])
  }

  ghost function Run(me: string, l: Local, thread: string, ins: seq<Input>): Local
    requires Feasible(me, l, thread, ins)
    decreases |ins|
  {
    if ins == [] then l else Run(me, After(me, l, thread, ins[0]), thread, ins[1..])
  }

  /** The invariant holds after every run, and no run takes back what `Keeps` names. */
  lemma {:induction false} RunKeeps(me: string, l: Local, thread: string, ins: seq<Input>)
    requires Inv(me, l) && Feasible(me, l, thread, ins)
    ensures Inv(me, Run(me, l, thread, ins)) && Keeps(l, Run(me, l, thread, ins))
    decreases |ins|
  {
    if ins != [] {
      var m := After(me, l, thread, ins[0]);
      StepGood(me, l, thread, ins[0].event, ins[0].env);
      RunKeeps(me, m, thread, ins[1..]);
      KeepsTrans(l, m, Run(me, m, thread, ins[1..]));
    }
  }

  /** No run leaves the terminal statuses, and none leaves closed. */
  lemma TerminalAbsorbs(me: string, thread: string, before: seq<Input>, after: seq<Input>)
    requires Feasible(me, EMPTY_LOCAL, thread, before)
    requires Feasible(me, Run(me, EMPTY_LOCAL, thread, before), thread, after)
    ensures var l := Run(me, EMPTY_LOCAL, thread, before);
            var m := Run(me, l, thread, after);
            l.session.Some? && Terminal(l.session.value.status) ==>
              && m.session.Some? && Terminal(m.session.value.status)
              && (l.session.value.status == Closed ==> m.session.value.status == Closed)
              && m.session.value.terms == l.session.value.terms
  {
    RunKeeps(me, EMPTY_LOCAL, thread, before);
    RunKeeps(me, Run(me, EMPTY_LOCAL, thread, before), thread, after);
  }

  /** The budget only rises and the turns never pass it. */
  lemma BudgetRisesAndBoundsTurns(me: string, thread: string, before: seq<Input>, after: seq<Input>)
    requires Feasible(me, EMPTY_LOCAL, thread, before)
    requires Feasible(me, Run(me, EMPTY_LOCAL, thread, before), thread, after)
    ensures var l := Run(me, EMPTY_LOCAL, thread, before);
            var m := Run(me, l, thread, after);
            l.session.Some? ==>
              && m.session.Some?
              && l.session.value.terms.budget.maxTurns <= m.session.value.terms.budget.maxTurns
              && (0 <= m.session.value.terms.budget.maxTurns ==>
                    m.session.value.turnCount <= m.session.value.terms.budget.maxTurns)
              && |m.budgets| <= 1
              && (OwnExtension(m.session.value, me) ==> m.budgets == [])
              && (m.session.value.status == Live && FirstOffer(m).Some? ==>
                    FirstOffer(m).value.newMax > m.session.value.terms.budget.maxTurns)
  {
    RunKeeps(me, EMPTY_LOCAL, thread, before);
    RunKeeps(me, Run(me, EMPTY_LOCAL, thread, before), thread, after);
  }

  /** The terms a session was first stored with stay, except that its turn budget may rise. */
  lemma TermsFrozen(me: string, thread: string, before: seq<Input>, after: seq<Input>)
    requires Feasible(me, EMPTY_LOCAL, thread, before)
    requires Feasible(me, Run(me, EMPTY_LOCAL, thread, before), thread, after)
    ensures var l := Run(me, EMPTY_LOCAL, thread, before);
            var m := Run(me, l, thread, after);
            l.session.Some? ==>
              && m.session.Some? && SameTerms(l.session.value.terms, m.session.value.terms)
              && m.session.value.initiator == l.session.value.initiator
              && m.session.value.recipient == l.session.value.recipient
              && m.session.value.expiresAt == l.session.value.expiresAt
  {
    RunKeeps(me, EMPTY_LOCAL, thread, before);
    RunKeeps(me, Run(me, EMPTY_LOCAL, thread, before), thread, after);
  }

  /** A co-signed record is closed on that very hash, signed by this machine and ratified by both. */
  lemma CoSignSafe(me: string, thread: string, ins: seq<Input>)
    requires Feasible(me, EMPTY_LOCAL, thread, ins)
    ensures var l := Run(me, EMPTY_LOCAL, thread, ins);
            l.session.Some? && l.session.value.coSignedHash.Some? ==>
              var s := l.session.value;
              && s.status == Closed && s.artifactHash == s.coSignedHash
              && me in s.signatures && s.signatures[me] == Signature(me, s.coSignedHash.value)
              && Initiator in s.ratified && Recipient in s.ratified
  {
    RunKeeps(me, EMPTY_LOCAL, thread, ins);
  }

  /** The approval item shows the record's own terms and waits for a session still pending. */
  lemma ApprovalItemShowsTerms(me: string, thread: string, ins: seq<Input>)
    requires Feasible(me, EMPTY_LOCAL, thread, ins)
    ensures var l := Run(me, EMPTY_LOCAL, thread, ins);
            l.opens != [] ==>
              && |l.opens| == 1 && l.session.Some? && l.session.value.status == Pending
              && l.session.value.role == Recipient
              && l.opens[0].kind == SessionOpen(l.session.value.terms, l.session.value.expiresAt)
              && l.opens[0].peer == l.session.value.initiator
  {
    RunKeeps(me, EMPTY_LOCAL, thread, ins);
  }

  // ---- a revoked bond ----

  ghost predicate Barred(l: Local) {
    && l.session.Some? && l.ratifies == []
    && l.session.value.status == Closed
    && l.session.value.rejectReason == Some("bond_revoked")
    && l.session.value.coSignedHash.None?
  }

  lemma RevokeBars(me: string, l: Local, peer: string)
    requires Inv(me, l) && l.session.Some? && PeerFor(l.session.value, me) == peer
    requires !Terminal(l.session.value.status)
    ensures Barred(BondRevoke(me, l, peer))
  {
  }

  /** A direct ratification by thread, the one way past a revoked bond: the peer must have ratified too. */
  ghost predicate RatifiesDirectly(me: string, l: Local, e: Event)
    requires l.session.Some?
  {
    && e.RatifyWith? && e.viaHuman && e.byItem.None?
    && Truthy(if e.given.Some? then e.given else l.session.value.artifactHash)
    && Other(l.session.value.role) in l.session.value.ratified
  }

  lemma BarredQuietly(me: string, l: Local, thread: string, e: Event, env: Env)
    requires Inv(me, l) && Barred(l) && Possible(me, l, e) && (OnOpening(e) || OnTalk(e))
    ensures Barred(Step(me, l, thread, e, env).local)
  {
  }

  lemma BarredCare(me: string, l: Local, thread: string, e: Event, env: Env)
    requires Inv(me, l) && Barred(l) && OnCare(e)
    ensures var m := Step(me, l, thread, e, env).local;
            if RatifiesDirectly(me, l, e) then m.session.Some? && m.session.value.coSignedHash.Some?
            else Barred(m)
  {
  }

  lemma BarredBudget(me: string, l: Local, thread: string, e: Event, env: Env)
    requires Inv(me, l) && Barred(l) && OnBudget(e)
    ensures Barred(Step(me, l, thread, e, env).local)
  {
  }

  lemma BarredHears(me: string, l: Local, thread: string, from: string, msg: Msg, env: Env)
    requires Inv(me, l) && Barred(l) && from != me
    ensures Barred(Receive(me, l, thread, from, msg, env).local)
  {
  }

  /** A barred session is co-signed by exactly one event: a direct ratification after the peer's. */
  lemma BarredStep(me: string, l: Local, thread: string, e: Event, env: Env)
    requires Inv(me, l) && Barred(l) && Possible(me, l, e)
    ensures var m := Step(me, l, thread, e, env).local;
            if RatifiesDirectly(me, l, e) then m.session.Some? && m.session.value.coSignedHash.Some?
            else Barred(m)
  {
    if OnOpening(e) || OnTalk(e) {
      BarredQuietly(me, l, thread, e, env);
    } else if OnCare(e) {
      BarredCare(me, l, thread, e, env);
    } else if OnBudget(e) {
      BarredBudget(me, l, thread, e, env);
    } else {
      BarredHears(me, l, thread, e.from, e.msg, env);
    }
  }

  ghost predicate ByItemOnly(ins: seq<Input>) {
    forall i :: 0 <= i < |ins| && ins[i].event.RatifyWith? ==> ins[i].event.byItem.Some?
  }

  /** Revoked stays revoked when every ratification goes through a queued item. */
  lemma {:induction false} RevokedNeverCoSigned(me: string, l: Local, thread: string, ins: seq<Input>)
    requires Inv(me, l) && Barred(l) && Feasible(me, l, thread, ins) && ByItemOnly(ins)
    ensures Barred(Run(me, l, thread, ins))
    decreases |ins|
  {
    if ins != [] {
      assert !RatifiesDirectly(me, l, ins[0].event);
      BarredStep(me, l, thread, ins[0].event, ins[0].env);
      StepGood(me, l, thread, ins[0].event, ins[0].env);
      RevokedNeverCoSigned(me, After(me, l, thread, ins[0]), thread, ins[1..]);
    }
  }

  // ---- the sign gate and the reports behind it ----

  function Slot(rs: Reports, hash: string, runner: string, role: Role): Option<Report> {
    if hash in rs && runner in rs[hash] && role in rs[hash][runner] then Some(rs[hash][runner][role]) else None
  }

  /** The one slot a report goes to takes it, every other keeps what it had. */
  lemma SetThenGet(rs: Reports, hash: string, runner: string, role: Role, report: Report, h: string, x: string, r: Role)
    ensures Slot(SetRunnerReport(rs, hash, runner, role, report), h, x, r)
            == if h == hash && x == runner && r == role then Some(report) else Slot(rs, h, x, r)
  {
  }

  /** The report an accepted event files, and the role that files it. */
  function Filed(me: string, l: Local, thread: string, i: Input): Option<(Role, Report)>
    requires Possible(me, l, i.event)
  {
    if l.session.None? || Step(me, l, thread, i.event, i.env).reply != Done then None
    else if i.event.SayReport? then Some((RoleFor(l.session.value, me), i.event.report))
    else if i.event.Incoming? && i.event.msg.ReportMsg? && Participant(l.session.value, i.event.from).Some? then
      Some((Participant(l.session.value, i.event.from).value, i.event.msg.report))
    else None
  }

  function Newer(last: Option<Report>, filed: Option<(Role, Report)>, h: string, x: string, r: Role): Option<Report> {
    if filed.Some? && filed.value.0 == r && filed.value.1.artifactHash == h && filed.value.1.runner == x
    then Some(filed.value.1) else last
  }

  /** The last report `r` filed for hash `h` and runner `x`, read off the run alone. */
  ghost function LastFiled(me: string, l: Local, thread: string, ins: seq<Input>, h: string, x: string, r: Role,
                           start: Option<Report>): Option<Report>
    requires Feasible(me, l, thread, ins)
    decreases |ins|
  {
    if ins == [] then start
    else
      LastFiled(me, After(me, l, thread, ins[0]), thread, ins[1..], h, x, r,
                Newer(start, Filed(me, l, thread, ins[0]), h, x, r))
  }

  ghost function SlotOf(l: Local, h: string, x: string, r: Role): Option<Report> {
    if l.session.None? then None else Slot(l.session.value.reports, h, x, r)
  }

  ghost predicate SameReports(l: Local, m: Local) {
    if l.session.Some? then m.session.Some? && m.session.value.reports == l.session.value.reports
    else m.session.Some? ==> m.session.value.reports == map[]
  }

  /** The local role's challenge, signature and ratification are the same in both. */
  ghost predicate SameVoice(l: Local, m: Local) {
    l.session.Some? ==>
      && m.session.Some?
      && var s, t := l.session.value, m.session.value;
      && (s.role in t.challenges <==> s.role in s.challenges)
      && (s.role in t.ratified <==> s.role in s.ratified)
      && (s.role in t.signHashes <==> s.role in s.signHashes)
      && (s.role in s.signHashes ==> t.signHashes[s.role] == s.signHashes[s.role])
  }

  lemma ProposeVoice(me: string, l: Local, from: string, p: Payload, env: Env)
    ensures var m := IncomingPropose(me, l, from, p, env).local; SameReports(l, m) && SameVoice(l, m)
  {
  }

  lemma VerdictVoice(l: Local, from: string, p: Payload)
    ensures var m := IncomingApproved(l, from, p).local; SameReports(l, m) && SameVoice(l, m)
    ensures var m := IncomingReject(l, from, p).local; SameReports(l, m) && SameVoice(l, m)
  {
  }

  lemma OpenVoice(me: string, l: Local, thread: string, from: string, terms: Terms, env: Env)
    ensures var m := IncomingOpen(me, l, thread, from, terms, env).local; SameReports(l, m) && SameVoice(l, m)
  {
  }

  lemma AnswerVoice(l: Local, from: string, msg: Msg)
    requires l.session.Some?
    ensures var m := OpeningAnswer(l, l.session.value, from, msg).local; SameReports(l, m) && SameVoice(l, m)
  {
  }

  lemma SignedVoice(me: string, l: Local, s: Record, role: Role, hash: string, env: Env)
    requires l.session == Some(s) && role != s.role
    ensures var m := IncomingSigned(me, l, s, role, hash, env).local; SameReports(l, m) && SameVoice(l, m)
  {
  }

  lemma RatifiedVoice(me: string, l: Local, s: Record, role: Role)
    requires l.session == Some(s) && role != s.role
    ensures var m := IncomingRatified(me, l, s, role).local; SameReports(l, m) && SameVoice(l, m)
  {
  }

  lemma SidelineVoice(me: string, l: Local, s: Record, role: Role, msg: Msg, env: Env)
    requires l.session == Some(s) && role != s.role && !msg.SignedMsg?
    ensures var m := PeerWord(me, l, s, role, msg, env).local; SameVoice(l, m) && (!msg.ReportMsg? ==> SameReports(l, m))
  {
  }

  lemma NegotiationVoice(me: string, l: Local, from: string, msg: Msg, env: Env)
    requires l.session.Some? && Participant(l.session.value, from) != Some(l.session.value.role)
    ensures var m := Negotiation(me, l, l.session.value, from, msg, env).local;
            SameVoice(l, m) && (!msg.ReportMsg? ==> SameReports(l, m))
  {
    var s := l.session.value;
    var role := Participant(s, from);
    if role.Some? {
      if msg.SignedMsg? {
        SignedVoice(me, l, s, role.value, msg.hash, env);
      } else if msg.RatifiedMsg? {
        RatifiedVoice(me, l, s, role.value);
      } else {
        SidelineVoice(me, l, s, role.value, msg, env);
      }
    }
  }

  lemma NeverOneself(me: string, l: Local, from: string)
    requires Inv(me, l) && l.session.Some? && from != me
    ensures Participant(l.session.value, from) != Some(l.session.value.role)
  {
  }

  lemma EnsureLiveVoice(l: Local, now: int)
    ensures SameReports(l, EnsureLive(l, now)) && SameVoice(l, EnsureLive(l, now))
    ensures l.session.Some? ==> EnsureLive(l, now).session.value.role == l.session.value.role
    ensures l.session.Some? ==> EnsureLive(l, now).session.value.initiator == l.session.value.initiator
    ensures l.session.Some? ==> EnsureLive(l, now).session.value.recipient == l.session.value.recipient
  {
  }

  /** An envelope changes no report unless it is one, and never what the local role said. */
  lemma DispatchVoice(me: string, m: Local, thread: string, from: string, msg: Msg, env: Env)
    requires m.session.Some? ==> Participant(m.session.value, from) != Some(m.session.value.role)
    requires EnsureLive(m, env.now) == m
    ensures var n := Receive(me, m, thread, from, msg, env).local;
            SameVoice(m, n) && (!msg.ReportMsg? ==> SameReports(m, n))
  {
    match msg {
      case Malformed =>
      case NegoOpen(terms) => OpenVoice(me, m, thread, from, terms, env);
      case BudgetPropose(p) => ProposeVoice(me, m, from, p, env);
      case BudgetApproved(p) => VerdictVoice(m, from, p);
      case BudgetReject(p) => VerdictVoice(m, from, p);
      case OpenApproved | OpenReject(_) | OpenExpiredMsg =>
        if m.session.Some? { AnswerVoice(m, from, msg); }
      case _ =>
        if m.session.Some? { NegotiationVoice(me, m, from, msg, env); }
    }
  }

  lemma ReceiveVoice(me: string, l: Local, thread: string, from: string, msg: Msg, env: Env)
    requires Inv(me, l) && from != me
    ensures var m := Receive(me, l, thread, from, msg, env).local;
            SameVoice(l, m) && (!msg.ReportMsg? ==> SameReports(l, m))
  {
    var m := EnsureLive(l, env.now);
    EnsureLiveVoice(l, env.now);
    if l.session.Some? { NeverOneself(me, l, from); }
    DispatchVoice(me, m, thread, from, msg, env);
  }

  lemma AnswerReports(l: Local, id: string, text: string, viaHuman: bool, env: Env)
    ensures SameReports(l, ApproveOpen(l, id, viaHuman, env).local)
    ensures SameReports(l, RejectOpen(l, id, text, viaHuman, env).local)
  {
  }

  lemma OpeningEventsReports(me: string, l: Local, thread: string, e: Event, env: Env)
    requires Possible(me, l, e) && OnOpening(e)
    ensures SameReports(l, Step(me, l, thread, e, env).local)
  {
    match e {
      case ApproveOpenBy(id, viaHuman) => AnswerReports(l, id, "", viaHuman, env);
      case RejectOpenBy(id, text, viaHuman) => AnswerReports(l, id, text, viaHuman, env);
      case Expire => assert SameReports(l, ExpireSession(me, l, env).local);
      case Open(to, terms, allowed) =>
      case LookForOpen => assert SameReports(l, ResolveOpen(l, env));
    }
  }

  lemma TurnReports(me: string, l: Local, wellFormed: bool, env: Env)
    ensures SameReports(l, TakeTurn(me, l, wellFormed, env).local)
  {
  }

  lemma ChallengeReports(me: string, l: Local, env: Env)
    ensures SameReports(l, FileChallenge(me, l, env).local)
  {
  }

  lemma SignReports(me: string, l: Local, hash: string, env: Env)
    ensures SameReports(l, Sign(me, l, hash, env).local)
  {
  }

  lemma TalkEventsReports(me: string, l: Local, thread: string, e: Event, env: Env)
    requires OnTalk(e) && !e.SayReport?
    ensures SameReports(l, Step(me, l, thread, e, env).local)
  {
    match e {
      case SayTurn(wellFormed) => TurnReports(me, l, wellFormed, env);
      case SayChallenge => ChallengeReports(me, l, env);
      case SayBadly => assert SameReports(l, SayNothing(l, env).local);
      case SignHash(hash) => SignReports(me, l, hash, env);
    }
  }

  lemma RatifyReports(me: string, l: Local, byItem: Option<string>, given: Option<string>, viaHuman: bool, env: Env)
    ensures SameReports(l, RatifyBy(me, l, byItem, given, viaHuman, env).local)
  {
  }

  lemma CloseReports(l: Local, reason: Option<string>, env: Env)
    ensures SameReports(l, ThreadClose(l, reason, env).local)
  {
    EnsureLiveVoice(l, env.now);
  }

  lemma RevokeReports(me: string, l: Local, peer: string)
    ensures SameReports(l, BondRevoke(me, l, peer))
  {
  }

  lemma StatusReports(me: string, l: Local, env: Env)
    ensures SameReports(l, ReadStatus(me, l, env).local)
    ensures SameReports(l, ResolveRatify(me, l, env))
  {
    EnsureLiveVoice(l, env.now);
  }

  lemma CareEventsReports(me: string, l: Local, thread: string, e: Event, env: Env)
    requires OnCare(e)
    ensures SameReports(l, Step(me, l, thread, e, env).local)
  {
    hide RatifyBy, ThreadClose, ReadStatus, ResolveRatify, BondRevoke;
    match e {
      case RatifyWith(byItem, given, viaHuman) => RatifyReports(me, l, byItem, given, viaHuman, env);
      case CloseThread(reason) => CloseReports(l, reason, env);
      case RevokeBond(peer) => RevokeReports(me, l, peer);
      case _ => StatusReports(me, l, env);
    }
  }

  lemma ApproveReports(me: string, l: Local, id: string, viaHuman: bool, env: Env)
    ensures SameReports(l, ApproveExtend(me, l, id, viaHuman, env).local)
  {
  }

  lemma RejectReports(me: string, l: Local, id: string, viaHuman: bool, why: Option<string>, env: Env)
    ensures SameReports(l, RejectExtend(me, l, id, viaHuman, why, env).local)
  {
  }

  lemma DraftReports(me: string, l: Local, n: int, p: string, env: Env)
    ensures SameReports(l, ExtendBudget(me, l, n, p, env).local)
  {
  }

  lemma RetryReports(l: Local, env: Env)
    ensures SameReports(l, RetryExtend(l, env).local)
  {
  }

  lemma BudgetEventsReports(me: string, l: Local, thread: string, e: Event, env: Env)
    requires OnBudget(e)
    ensures SameReports(l, Step(me, l, thread, e, env).local)
  {
    hide ExtendBudget, ApproveExtend, RejectExtend, RetryExtend;
    match e {
      case ApproveExtendBy(id, viaHuman) => ApproveReports(me, l, id, viaHuman, env);
      case RejectExtendBy(id, viaHuman, why) => RejectReports(me, l, id, viaHuman, why, env);
      case Extend(n, p) => DraftReports(me, l, n, p, env);
      case Retry => RetryReports(l, env);
    }
  }

  /** Events other than reports leave every report where it is. */
  lemma ReportsUntouched(me: string, l: Local, thread: string, e: Event, env: Env)
    requires Inv(me, l) && Possible(me, l, e) && !e.SayReport? && !(e.Incoming? && e.msg.ReportMsg?)
    ensures SameReports(l, Step(me, l, thread, e, env).local)
  {
    hide Receive, HandleOpen, ApproveOpen, RejectOpen, ExpireSession, ResolveOpen, TakeTurn, FileChallenge,
         FileReport, SayNothing, Sign, RatifyBy, ResolveRatify, ReadStatus, BondRevoke, ThreadClose, ExtendBudget,
         ApproveExtend, RejectExtend, RetryExtend;
    if OnOpening(e) {
      OpeningEventsReports(me, l, thread, e, env);
    } else if OnTalk(e) {
      TalkEventsReports(me, l, thread, e, env);
    } else if OnCare(e) {
      CareEventsReports(me, l, thread, e, env);
    } else if OnBudget(e) {
      BudgetEventsReports(me, l, thread, e, env);
    } else {
      ReceiveVoice(me, l, thread, e.from, e.msg, env);
    }
  }

  /** What a report envelope does: filed whole in its sender's slot when accepted, nothing otherwise. */
  lemma ReportReceived(me: string, l: Local, thread: string, from: string, report: Report, env: Env)
    requires Inv(me, l) && from != me && l.session.Some?
    ensures var o := Receive(me, l, thread, from, ReportMsg(report), env);
            var role := Participant(l.session.value, from);
            && o.local.session.Some?
            && if o.reply != Done then o.local.session.value.reports == l.session.value.reports
               else
                 && role.Some? && role.value != l.session.value.role
                 && o.local.session.value.reports
                    == SetRunnerReport(l.session.value.reports, report.artifactHash, report.runner, role.value, report)
  {
  }

  lemma PeerFiles(me: string, l: Local, thread: string, from: string, report: Report, env: Env, h: string, x: string, r: Role)
    requires Inv(me, l) && from != me
    ensures var o := Receive(me, l, thread, from, ReportMsg(report), env);
            var filed := if l.session.Some? && o.reply == Done && Participant(l.session.value, from).Some?
                         then Some((Participant(l.session.value, from).value, report)) else None;
            SlotOf(o.local, h, x, r) == Newer(SlotOf(l, h, x, r), filed, h, x, r)
  {
    if l.session.Some? {
      ReportReceived(me, l, thread, from, report, env);
      if Participant(l.session.value, from).Some? {
        SetThenGet(l.session.value.reports, report.artifactHash, report.runner, Participant(l.session.value, from).value,
                   report, h, x, r);
      }
    }
  }

  lemma OwnFiles(me: string, l: Local, report: Report, env: Env, h: string, x: string, r: Role)
    ensures var o := FileReport(me, l, report, env);
            var filed := if l.session.Some? && o.reply == Done then Some((RoleFor(l.session.value, me), report)) else None;
            SlotOf(o.local, h, x, r) == Newer(SlotOf(l, h, x, r), filed, h, x, r)
  {
  }

  lemma StepFiles(me: string, l: Local, thread: string, i: Input, h: string, x: string, r: Role)
    requires Inv(me, l) && Possible(me, l, i.event)
    ensures SlotOf(After(me, l, thread, i), h, x, r) == Newer(SlotOf(l, h, x, r), Filed(me, l, thread, i), h, x, r)
  {
    hide Deliver, HandleOpen, ApproveOpen, RejectOpen, ExpireSession, ResolveOpen, TakeTurn, FileChallenge,
         SayNothing, Sign, RatifyBy, ResolveRatify, ReadStatus, BondRevoke, ThreadClose, ExtendBudget, ApproveExtend,
         RejectExtend, RetryExtend;
    if i.event.SayReport? {
      OwnFiles(me, l, i.event.report, i.env, h, x, r);
    } else if i.event.Incoming? && i.event.msg.ReportMsg? {
      PeerFiles(me, l, thread, i.event.from, i.event.msg.report, i.env, h, x, r);
    } else {
      ReportsUntouched(me, l, thread, i.event, i.env);
    }
  }

  /** After any run each report slot holds what its role last filed there. */
  lemma {:induction false} ReportsAreTheLastFiled(me: string, l: Local, thread: string, ins: seq<Input>, h: string, x: string, r: Role)
    requires Inv(me, l) && Feasible(me, l, thread, ins)
    ensures SlotOf(Run(me, l, thread, ins), h, x, r)
            == LastFiled(me, l, thread, ins, h, x, r, SlotOf(l, h, x, r))
    decreases |ins|
  {
    if ins != [] {
      StepFiles(me, l, thread, ins[0], h, x, r);
      StepGood(me, l, thread, ins[0].event, ins[0].env);
      ReportsAreTheLastFiled(me, After(me, l, thread, ins[0]), thread, ins[1..], h, x, r);
    }
  }

  ghost predicate Green(report: Option<Report>) {
    report.Some? && report.value.passed
  }

  /** The bond with the peer includes the acceptance tests. */
  predicate TestsBonded(me: string, s: Record, env: Env) {
    PeerFor(s, me) in env.bonds && ATEST_PROFILE in env.bonds[PeerFor(s, me)].profiles
  }

  /** The bonded profiles and an executable criterion make the gate active. */
  ghost predicate Gated(me: string, s: Record, env: Env) {
    TestsBonded(me, s, env) && exists c :: c in s.terms.acceptance && c.executable
  }

  /** Every runner of an executable criterion has a last report from either role on this hash, and it passed. */
  ghost predicate AllGreen(l: Local, hash: string)
    requires l.session.Some?
  {
    forall c, r: Role :: c in l.session.value.terms.acceptance && c.executable && Truthy(c.runner) ==>
      Green(SlotOf(l, hash, c.runner.value, r))
  }

  lemma GatedIff(me: string, s: Record, env: Env)
    ensures GateActive(s, ProfilesFor(s, me, env)) <==> Gated(me, s, env)
    ensures ATEST_PROFILE in ProfilesFor(s, me, env) <==> TestsBonded(me, s, env)
  {
  }

  /**
   * A sign of `hash` goes through exactly on a live or signed session within its deadline which, if the
   * gate is active, has both challenges and, for every executable runner, a last report from each role
   * on that hash that passed.
   */
  lemma SignGate(me: string, l: Local, hash: string, env: Env)
    requires Inv(me, l) && l.session.Some?
    ensures var s := l.session.value;
            Sign(me, l, hash, env).reply == Done <==>
              && LiveOrSigned(s) && !PastDeadline(s, env.now)
              && (Gated(me, s, env) ==> BothChallenged(s) && AllGreen(l, hash))
  {
    var s := l.session.value;
    GatedIff(me, s, env);
    forall c, r: Role | c in s.terms.acceptance && c.executable && Truthy(c.runner)
      ensures CeremonyComplete(s, ProfilesFor(s, me, env), hash) && GateActive(s, ProfilesFor(s, me, env))
              ==> Green(SlotOf(l, hash, c.runner.value, r))
    {
      assert c.runner.value in RunnersRequired(s.terms.acceptance);
      assert r == Initiator || r == Recipient;
    }
    if AllGreen(l, hash) {
      forall x | x in RunnersRequired(s.terms.acceptance)
        ensures PassedBy(s.reports, hash, x, Initiator) && PassedBy(s.reports, hash, x, Recipient)
      {
        var c :| c in s.terms.acceptance && c.executable && c.runner == Some(x);
        assert Green(SlotOf(l, hash, c.runner.value, Initiator));
        assert Green(SlotOf(l, hash, c.runner.value, Recipient));
      }
    }
  }

  /** No envelope of a peer changes what the local role challenged, signed, ratified or reported. */
  lemma PeerCannotSpeakForUs(me: string, l: Local, thread: string, from: string, msg: Msg, env: Env, h: string, x: string)
    requires Inv(me, l) && from != me && l.session.Some?
    ensures var m := Receive(me, l, thread, from, msg, env).local;
            SameVoice(l, m) && SlotOf(m, h, x, l.session.value.role) == SlotOf(l, h, x, l.session.value.role)
  {
    ReceiveVoice(me, l, thread, from, msg, env);
    if msg.ReportMsg? {
      ReportReceived(me, l, thread, from, msg.report, env);
      var role := Participant(l.session.value, from);
      if role.Some? {
        SetThenGet(l.session.value.reports, msg.report.artifactHash, msg.report.runner, role.value, msg.report,
                   h, x, l.session.value.role);
      }
    }
  }
}

/** What one machine keeps of a thread, whatever its peer sends. */
module ThreadInvariant {
  import opened Options
  import opened SessionTypes
  import opened ThreadSteps
  import opened BudgetSteps
  import opened MachineSteps

  function Max0(n: int): int {
    if n > 0 then n else 0
  }

  predicate Emits(st: ExtStatus) {
    st != AwaitingPeer
  }

  /** An own proposal is being sent or awaited; a peer's one is being answered. */
  ghost predicate ExtensionOk(k: Extension, me: Role, thread: string) {
    && (k.offer.proposer == me <==> k.status.Emitting? || k.status.AwaitingPeer?)
    && (Emits(k.status) <==> k.bytes.Some?)
    && (k.bytes.Some? ==>
          && k.bytes.value.thread == thread
          && k.bytes.value.proposalId == k.offer.proposalId
          && k.bytes.value.newMax == k.offer.newMax)
  }

  /** The budget part: one queued item, none beside an own extension, and only raises in the queue. */
  ghost predicate BudgetOk(s: Record, me: Role, l: Local) {
    && |l.budgets| <= 1
    && (s.extension.Some? ==> ExtensionOk(s.extension.value, me, s.thread))
    && (s.extension.Some? && s.extension.value.offer.proposer == me ==> l.budgets == [])
    && (s.status == Live && FirstOffer(l).Some? ==> FirstOffer(l).value.newMax > s.terms.budget.maxTurns)
    && (s.status == Pending ==> l.budgets == [] && s.extension.None? && s.decided == [] && s.turnCount == 0)
    && (s.status == Signed ==> FirstOffer(l).None? && s.extension.None?)
    && DecidedOnce(s.decided)
    && 0 <= s.turnCount <= Max0(s.terms.budget.maxTurns)
  }

  /** The approval item exists only for a pending recipient session and shows exactly its terms. */
  ghost predicate OpenOk(s: Record, l: Local) {
    l.opens == [] ||
    (|l.opens| == 1 && s.status == Pending && s.role == Recipient && l.opens[0] == OpenItemFor(s, l.opens[0].id))
  }

  /** A co-signed session is closed on the co-signed hash, signed here, and ratified by both humans. */
  ghost predicate CoSignOk(s: Record, me: string) {
    && (s.status == Pending ==> RoleFor(s, me) !in s.signHashes && RoleFor(s, me) !in s.ratified)
    && (s.coSignedHash.Some? ==>
          && s.status == Closed
          && s.coSignedHash == s.artifactHash
          && s.coSignedHash.value != ""
          && me in s.signatures && s.signatures[me] == Signature(me, s.coSignedHash.value)
          && BothRatified(s))
  }

  ghost predicate Inv(me: string, l: Local) {
    if l.session.None? then l == EMPTY_LOCAL
    else
      var s := l.session.value;
      && s.role == RoleFor(s, me) && (me == s.initiator || me == s.recipient)
      && OpenOk(s, l)
      && |l.ratifies| <= 1 && (s.status == Pending ==> l.ratifies == [])
      && BudgetOk(s, s.role, l) && (l.budgets != [] ==> l.budgets[0].peer == PeerFor(s, me))
      && CoSignOk(s, me)
  }

  ghost predicate SameTerms(t: Terms, u: Terms) {
    t.goal == u.goal && t.acceptance == u.acceptance && t.mandate == u.mandate && t.budget.deadline == u.budget.deadline
  }

  /** What no step takes back: the terms, the budget, the decisions, the turns, a terminal status. */
  ghost predicate Keeps(l: Local, m: Local) {
    l.session.Some? ==>
      && m.session.Some?
      && var s, t := l.session.value, m.session.value;
      && t.thread == s.thread && t.initiator == s.initiator && t.recipient == s.recipient && t.role == s.role
      && t.createdAt == s.createdAt && t.expiresAt == s.expiresAt
      && SameTerms(s.terms, t.terms)
      && s.terms.budget.maxTurns <= t.terms.budget.maxTurns
      && s.turnCount <= t.turnCount
      && s.decided <= t.decided
      && (Terminal(s.status) ==> Terminal(t.status) && t.terms == s.terms && t.turnCount == s.turnCount && t.decided == s.decided)
      && (s.status == Closed ==> t.status == Closed)
  }

  ghost predicate Good(me: string, l: Local, m: Local) {
    Inv(me, m) && Keeps(l, m)
  }

  lemma KeepsTrans(l: Local, m: Local, n: Local)
    requires Keeps(l, m) && Keeps(m, n)
    ensures Keeps(l, n)
  {
  }

  // ---- the moves several handlers share ----

  lemma EnsureRatifyGood(me: string, l: Local, s: Record, env: Env)
    requires Inv(me, l) && l.session == Some(s)
    ensures Good(me, l, EnsureRatifyItem(l, s, me, env))
  {
  }

  lemma SignSlotGood(me: string, l: Local, s: Record, role: Role, hash: string)
    requires Inv(me, l) && l.session == Some(s) && !Terminal(s.status)
    requires role == RoleFor(s, me) ==> LiveOrSigned(s)
    ensures Good(me, l, l.(session := Some(s.(signHashes := s.signHashes[role := hash], artifactHash := Some(hash)))))
  {
  }

  lemma RecordSignGood(me: string, l: Local, s: Record, role: Role, hash: string)
    requires Inv(me, l) && l.session == Some(s) && !Terminal(s.status)
    requires role == RoleFor(s, me) ==> LiveOrSigned(s)
    ensures Good(me, l, RecordSign(l, s, role, hash))
  {
    SignSlotGood(me, l, s, role, hash);
  }

  lemma RatifiedGood(me: string, l: Local, s: Record, role: Role, ratifies: seq<Item>)
    requires Inv(me, l) && l.session == Some(s) && (role == RoleFor(s, me) ==> s.status != Pending)
    requires |ratifies| <= 1 && (s.status == Pending ==> ratifies == [])
    ensures Good(me, l, l.(session := Some(s.(ratified := s.ratified + {role})), ratifies := ratifies))
  {
  }

  lemma FinalizeGood(me: string, l: Local, s: Record, hash: string)
    requires Inv(me, l) && l.session == Some(s) && BothRatified(s) && hash != ""
    requires s.status == Closed || !Terminal(s.status)
    ensures Good(me, l, l.(session := Some(Finalize(s, me, hash))))
  {
  }

  lemma EmitGood(me: string, l: Local, s: Record, o: Offer, status: ExtStatus, p: Payload, env: Env)
    requires Inv(me, l) && l.session == Some(s) && s.status == Live && l.budgets == []
    requires status != AwaitingPeer && (o.proposer == s.role <==> status == Emitting)
    requires p.thread == s.thread && p.proposalId == o.proposalId && p.newMax == o.newMax
    ensures Good(me, l, Emit(l, s, o, status, p, env).local)
  {
  }

  /** Taking the item off the queue, deciding its proposal and raising the budget to it. */
  lemma DecideGood(me: string, l: Local, s: Record, p: string, approved: bool, newMax: int)
    requires Inv(me, l) && l.session == Some(s) && s.status == Live && newMax >= s.terms.budget.maxTurns
    ensures Good(me, l, l.(session := Some(SetMax(s, newMax).(decided := AppendDecided(s.decided, p, approved))), budgets := []))
  {
  }

  // ---- the handlers ----

  lemma EnsureLiveGood(me: string, l: Local, now: int)
    requires Inv(me, l)
    ensures Good(me, l, EnsureLive(l, now))
  {
  }

  lemma OpenGood(me: string, l: Local, thread: string, to: string, terms: Terms, allowed: bool, env: Env)
    requires Inv(me, l) && l.session.None?
    ensures Good(me, l, HandleOpen(me, l, thread, to, terms, allowed, env).local)
  {
  }

  lemma IncomingOpenGood(me: string, l: Local, thread: string, from: string, terms: Terms, env: Env)
    requires Inv(me, l) && from != me
    ensures Good(me, l, IncomingOpen(me, l, thread, from, terms, env).local)
  {
  }

  lemma ApproveOpenGood(me: string, l: Local, id: string, viaHuman: bool, env: Env)
    requires Inv(me, l)
    ensures Good(me, l, ApproveOpen(l, id, viaHuman, env).local)
  {
  }

  lemma RejectOpenGood(me: string, l: Local, id: string, text: string, viaHuman: bool, env: Env)
    requires Inv(me, l)
    ensures Good(me, l, RejectOpen(l, id, text, viaHuman, env).local)
  {
  }

  lemma ExpireGood(me: string, l: Local, env: Env)
    requires Inv(me, l)
    ensures Good(me, l, ExpireSession(me, l, env).local)
  {
  }

  lemma SignGood(me: string, l: Local, hash: string, env: Env)
    requires Inv(me, l)
    ensures Good(me, l, Sign(me, l, hash, env).local)
  {
    EnsureLiveGood(me, l, env.now);
    var m := EnsureLive(l, env.now);
    var out := Sign(me, l, hash, env).local;
    if out != m {
      var s := m.session.value;
      RecordSignGood(me, m, s, RoleFor(s, me), hash);
      var m1 := RecordSign(m, s, RoleFor(s, me), hash);
      EnsureRatifyGood(me, m1, m1.session.value, env);
      KeepsTrans(m, m1, out);
      KeepsTrans(l, m, out);
    }
  }

  lemma RatifyGood(me: string, l: Local, byItem: Option<string>, given: Option<string>, viaHuman: bool, env: Env)
    requires Inv(me, l)
    ensures Good(me, l, RatifyBy(me, l, byItem, given, viaHuman, env).local)
  {
    var out := RatifyBy(me, l, byItem, given, viaHuman, env).local;
    if out != l {
      var s := l.session.value;
      var role := RoleFor(s, me);
      RatifiedGood(me, l, s, role, WithoutFirst(l.ratifies));
      var l1 := l.(session := Some(s.(ratified := s.ratified + {role})), ratifies := WithoutFirst(l.ratifies));
      if out != l1 {
        FinalizeGood(me, l1, l1.session.value, out.session.value.artifactHash.value);
        KeepsTrans(l, l1, out);
      }
    }
  }

  lemma StatusGood(me: string, l: Local, env: Env)
    requires Inv(me, l)
    ensures Good(me, l, ReadStatus(me, l, env).local)
  {
    EnsureLiveGood(me, l, env.now);
  }

  lemma LookForOpenGood(me: string, l: Local, env: Env)
    requires Inv(me, l)
    ensures Good(me, l, ResolveOpen(l, env))
  {
  }

  lemma LookForRatifyGood(me: string, l: Local, env: Env)
    requires Inv(me, l)
    ensures Good(me, l, ResolveRatify(me, l, env))
  {
  }

  lemma SeverGood(me: string, l: Local, peer: string)
    requires Inv(me, l) && (With(me, l.session, peer) ==> l.session.value.status != Live && l.session.value.status != Pending)
    ensures Good(me, l, Sever(me, l, peer))
  {
  }

  lemma RevokeGood(me: string, l: Local, peer: string)
    requires Inv(me, l)
    ensures Good(me, l, BondRevoke(me, l, peer))
  {
    if With(me, l.session, peer) {
      assert BondRevoke(me, l, peer) == Local(Some(Revoked(l.session.value)), [], [], []);
    } else {
      SeverGood(me, l, peer);
    }
  }

  lemma CloseGood(me: string, l: Local, reason: Option<string>, env: Env)
    requires Inv(me, l)
    ensures Good(me, l, ThreadClose(l, reason, env).local)
  {
    EnsureLiveGood(me, l, env.now);
  }

  lemma ExtendGood(me: string, l: Local, n: int, p: string, env: Env)
    requires Inv(me, l)
    ensures Good(me, l, ExtendBudget(me, l, n, p, env).local)
  {
    EnsureLiveGood(me, l, env.now);
  }

  lemma ApproveExtendGood(me: string, l: Local, id: string, viaHuman: bool, env: Env)
    requires Inv(me, l)
    ensures Good(me, l, ApproveExtend(me, l, id, viaHuman, env).local)
  {
    EnsureLiveGood(me, l, env.now);
    var m := EnsureLive(l, env.now);
    var out := ApproveExtend(me, l, id, viaHuman, env).local;
    if out != l && out != m {
      var s, o := m.session.value, OfferOf(FindId(l.budgets, id).value).value;
      var p := PayloadFor(s, o, None);
      assert l.budgets[0].id == id;
      if o.proposer == RoleFor(s, me) {
        EmitGood(me, m.(budgets := []), s, o, Emitting, p, env);
      } else {
        DecideGood(me, m, s, o.proposalId, true, o.newMax);
        var m1 := m.(session := Some(SetMax(s, o.newMax).(decided := AppendDecided(s.decided, o.proposalId, true))), budgets := []);
        EmitGood(me, m1, m1.session.value, o, ApprovedEmitting, p, env);
        KeepsTrans(m, m1, out);
      }
      KeepsTrans(l, m, out);
    }
  }

  lemma RefuseOfferGood(me: string, m: Local, s: Record, o: Offer, why: Option<string>, env: Env)
    requires Inv(me, m) && m.session == Some(s) && s.status == Live && o.proposer != s.role
    ensures var m1 := m.(session := Some(s.(decided := AppendDecided(s.decided, o.proposalId, false))), budgets := []);
            Good(me, m, Emit(m1, m1.session.value, o, RejectedEmitting, PayloadFor(s, o, why), env).local)
  {
    DecideGood(me, m, s, o.proposalId, false, s.terms.budget.maxTurns);
    var m1 := m.(session := Some(s.(decided := AppendDecided(s.decided, o.proposalId, false))), budgets := []);
    EmitGood(me, m1, m1.session.value, o, RejectedEmitting, PayloadFor(s, o, why), env);
    KeepsTrans(m, m1, Emit(m1, m1.session.value, o, RejectedEmitting, PayloadFor(s, o, why), env).local);
  }

  lemma RejectExtendGood(me: string, l: Local, id: string, viaHuman: bool, why: Option<string>, env: Env)
    requires Inv(me, l)
    ensures Good(me, l, RejectExtend(me, l, id, viaHuman, why, env).local)
  {
    EnsureLiveGood(me, l, env.now);
    var m := EnsureLive(l, env.now);
    var out := RejectExtend(me, l, id, viaHuman, why, env).local;
    if out != l && out != m && out != m.(budgets := []) {
      var s, o := m.session.value, OfferOf(FindId(l.budgets, id).value).value;
      assert l.budgets[0].id == id;
      RefuseOfferGood(me, m, s, o, if why.Some? then why else Some("rejected"), env);
      KeepsTrans(l, m, out);
    }
  }

  lemma RetryGood(me: string, l: Local, env: Env)
    requires Inv(me, l)
    ensures Good(me, l, RetryExtend(l, env).local)
  {
    EnsureLiveGood(me, l, env.now);
  }

  lemma QueuePeerGood(me: string, l: Local, s: Record, p: Payload, env: Env)
    requires Inv(me, l) && l.session == Some(s) && s.status == Live && p.newMax > s.terms.budget.maxTurns
    requires !OwnExtension(s, me)
    ensures Good(me, l, QueuePeerOffer(l, s, me, p, Other(s.role), env))
  {
  }

  lemma DecidedGood(me: string, l: Local, s: Record, p: string, approved: bool)
    requires Inv(me, l) && l.session == Some(s) && s.status == Live
    ensures Good(me, l, l.(session := Some(s.(decided := AppendDecided(s.decided, p, approved)))))
    ensures Good(me, l, l.(session := Some(s.(extension := None, decided := AppendDecided(s.decided, p, approved)))))
  {
  }

  lemma ProposeGood(me: string, l: Local, from: string, p: Payload, env: Env)
    requires Inv(me, l) && from != me
    ensures Good(me, l, IncomingPropose(me, l, from, p, env).local)
  {
    var out := IncomingPropose(me, l, from, p, env).local;
    if out != l {
      var s := l.session.value;
      if !OwnExtension(s, me) {
        QueuePeerGood(me, l, s, p, env);
      } else if s.initiator == me {
        DecidedGood(me, l, s, p.proposalId, false);
      } else {
        DecidedGood(me, l, s, s.extension.value.offer.proposalId, false);
        var s1 := s.(extension := None, decided := AppendDecided(s.decided, s.extension.value.offer.proposalId, false));
        QueuePeerGood(me, l.(session := Some(s1)), s1, p, env);
        KeepsTrans(l, l.(session := Some(s1)), out);
      }
    }
  }

  /** An awaited extension that is approved leaves the queue empty, so raising the budget outdates nothing. */
  lemma RaisedGood(me: string, l: Local, s: Record, p: Payload)
    requires Inv(me, l) && l.session == Some(s) && s.status == Live && p.newMax > s.terms.budget.maxTurns
    requires s.extension.Some? && s.extension.value.status.AwaitingPeer?
    ensures Good(me, l, l.(session := Some(SetMax(s, p.newMax).(
                        extension := None, decided := AppendDecided(s.decided, p.proposalId, true)))))
  {
  }

  lemma ApprovedGood(me: string, l: Local, from: string, p: Payload)
    requires Inv(me, l) && from != me
    ensures Good(me, l, IncomingApproved(l, from, p).local)
  {
    if IncomingApproved(l, from, p).local != l {
      RaisedGood(me, l, l.session.value, p);
    }
  }

  lemma RejectGood(me: string, l: Local, from: string, p: Payload)
    requires Inv(me, l) && from != me
    ensures Good(me, l, IncomingReject(l, from, p).local)
  {
    if IncomingReject(l, from, p).local != l {
      DecidedGood(me, l, l.session.value, p.proposalId, false);
    }
  }

  /** A peer can only wake a session whose own role is the initiator's, and so has no approval item. */
  lemma WakeGood(me: string, l: Local, s: Record)
    requires Inv(me, l) && l.session == Some(s) && s.role == Initiator && !Terminal(s.status)
    ensures Good(me, l, l.(session := Some(s.(status := Live))))
  {
  }

  lemma TurnAwayGood(me: string, l: Local, s: Record, status: Status, reason: Option<string>)
    requires Inv(me, l) && l.session == Some(s) && s.role == Initiator && s.status != Closed
    requires status == OpenRejected || status == OpenExpired
    ensures Good(me, l, l.(session := Some(s.(status := status, rejectReason := reason))))
  {
  }

  lemma AnswerGood(me: string, l: Local, s: Record, from: string, msg: Msg)
    requires Inv(me, l) && l.session == Some(s) && from != me
    ensures Good(me, l, OpeningAnswer(l, s, from, msg).local)
  {
    var out := OpeningAnswer(l, s, from, msg).local;
    if out != l {
      if msg.OpenReject? || msg.OpenExpiredMsg? {
        TurnAwayGood(me, l, s, out.session.value.status, out.session.value.rejectReason);
      } else {
        WakeGood(me, l, s);
      }
    }
  }

  lemma SidelineGood(me: string, l: Local, s: Record, challenges: set<Role>, reports: Reports)
    requires Inv(me, l) && l.session == Some(s)
    ensures Good(me, l, l.(session := Some(s.(challenges := challenges, reports := reports))))
  {
  }

  lemma ChallengeGood(me: string, l: Local, env: Env)
    requires Inv(me, l)
    ensures Good(me, l, FileChallenge(me, l, env).local)
  {
    EnsureLiveGood(me, l, env.now);
    var m := EnsureLive(l, env.now);
    if m.session.Some? {
      var s := m.session.value;
      SidelineGood(me, m, s, s.challenges + {RoleFor(s, me)}, s.reports);
      KeepsTrans(l, m, FileChallenge(me, l, env).local);
    }
  }

  lemma ReportGood(me: string, l: Local, report: Report, env: Env)
    requires Inv(me, l)
    ensures Good(me, l, FileReport(me, l, report, env).local)
  {
    EnsureLiveGood(me, l, env.now);
    var m := EnsureLive(l, env.now);
    if m.session.Some? {
      var s := m.session.value;
      SidelineGood(me, m, s, s.challenges,
                   SetRunnerReport(s.reports, report.artifactHash, report.runner, RoleFor(s, me), report));
      KeepsTrans(l, m, FileReport(me, l, report, env).local);
    }
  }

  /** Counting one turn, or queueing the numberless item when there is none left. */
  lemma CountTurnGood(me: string, l: Local, s: Record, env: Env)
    requires Inv(me, l) && l.session == Some(s) && LiveOrSigned(s)
    ensures Good(me, l, GuardTurnBudget(l, s, me, env))
    ensures s.turnCount < s.terms.budget.maxTurns ==> Good(me, l, l.(session := Some(s.(turnCount := s.turnCount + 1))))
  {
  }

  lemma TakeTurnGood(me: string, l: Local, wellFormed: bool, env: Env)
    requires Inv(me, l)
    ensures Good(me, l, TakeTurn(me, l, wellFormed, env).local)
  {
    EnsureLiveGood(me, l, env.now);
    var m := EnsureLive(l, env.now);
    var out := TakeTurn(me, l, wellFormed, env).local;
    if out != m {
      CountTurnGood(me, m, m.session.value, env);
      KeepsTrans(l, m, out);
    }
  }

  lemma IncomingSignedGood(me: string, l: Local, s: Record, role: Role, hash: string, env: Env)
    requires Inv(me, l) && l.session == Some(s) && role != RoleFor(s, me) && !Terminal(s.status)
    ensures Good(me, l, IncomingSigned(me, l, s, role, hash, env).local)
  {
    var l1 := RecordSign(l, s, role, hash);
    RecordSignGood(me, l, s, role, hash);
    EnsureRatifyGood(me, l1, l1.session.value, env);
    KeepsTrans(l, l1, IncomingSigned(me, l, s, role, hash, env).local);
  }

  lemma IncomingRatifiedGood(me: string, l: Local, s: Record, role: Role)
    requires Inv(me, l) && l.session == Some(s) && role != RoleFor(s, me)
    ensures Good(me, l, IncomingRatified(me, l, s, role).local)
  {
    var out := IncomingRatified(me, l, s, role).local;
    if out != l {
      RatifiedGood(me, l, s, role, l.ratifies);
      var l1 := l.(session := Some(s.(ratified := s.ratified + {role})));
      if out != l1 {
        FinalizeGood(me, l1, l1.session.value, s.artifactHash.value);
        KeepsTrans(l, l1, out);
      }
    }
  }

  lemma PeerTurnGood(me: string, l: Local, s: Record, env: Env)
    requires Inv(me, l) && l.session == Some(s)
    ensures Good(me, l, CountPeerTurn(me, l, s, env).local)
  {
    if s.status == Live {
      CountTurnGood(me, l, s, env);
    }
  }

  lemma PeerWordGood(me: string, l: Local, s: Record, role: Role, msg: Msg, env: Env)
    requires Inv(me, l) && l.session == Some(s) && role != RoleFor(s, me) && !Terminal(s.status)
    ensures Good(me, l, PeerWord(me, l, s, role, msg, env).local)
  {
    match msg {
      case Challenge => SidelineGood(me, l, s, s.challenges + {role}, s.reports);
      case ReportMsg(r) => SidelineGood(me, l, s, s.challenges, SetRunnerReport(s.reports, r.artifactHash, r.runner, role, r));
      case SignedMsg(hash) => IncomingSignedGood(me, l, s, role, hash, env);
      case _ => PeerTurnGood(me, l, s, env);
    }
  }

  lemma NegotiationGood(me: string, l: Local, s: Record, from: string, msg: Msg, env: Env)
    requires Inv(me, l) && l.session == Some(s) && from != me
    ensures Good(me, l, Negotiation(me, l, s, from, msg, env).local)
  {
    if Participant(s, from).Some? {
      if msg.RatifiedMsg? {
        IncomingRatifiedGood(me, l, s, Participant(s, from).value);
      } else if !Terminal(s.status) {
        PeerWordGood(me, l, s, Participant(s, from).value, msg, env);
      }
    }
  }

  lemma BudgetEnvelopeGood(me: string, l: Local, thread: string, from: string, msg: Msg, env: Env)
    requires Inv(me, l) && from != me && (msg.BudgetPropose? || msg.BudgetApproved? || msg.BudgetReject?)
    ensures Good(me, l, Deliver(me, l, thread, from, msg, env).local)
  {
    match msg {
      case BudgetPropose(p) => ProposeGood(me, l, from, p, env);
      case BudgetApproved(p) => ApprovedGood(me, l, from, p);
      case BudgetReject(p) => RejectGood(me, l, from, p);
    }
  }

  lemma DeliverGood(me: string, l: Local, thread: string, from: string, msg: Msg, env: Env)
    requires Inv(me, l) && from != me
    ensures Good(me, l, Deliver(me, l, thread, from, msg, env).local)
  {
    match msg {
      case NegoOpen(terms) => IncomingOpenGood(me, l, thread, from, terms, env);
      case BudgetPropose(_) | BudgetApproved(_) | BudgetReject(_) => BudgetEnvelopeGood(me, l, thread, from, msg, env);
      case Malformed =>
      case OpenApproved | OpenReject(_) | OpenExpiredMsg =>
        if l.session.Some? {
          AnswerGood(me, l, l.session.value, from, msg);
        }
      case _ =>
        if l.session.Some? {
          NegotiationGood(me, l, l.session.value, from, msg, env);
        }
    }
  }

  lemma ReceiveGood(me: string, l: Local, thread: string, from: string, msg: Msg, env: Env)
    requires Inv(me, l) && from != me
    ensures Good(me, l, Receive(me, l, thread, from, msg, env).local)
  {
    var m := EnsureLive(l, env.now);
    EnsureLiveGood(me, l, env.now);
    DeliverGood(me, m, thread, from, msg, env);
    KeepsTrans(l, m, Receive(me, l, thread, from, msg, env).local);
  }

  lemma OpeningGood(me: string, l: Local, thread: string, e: Event, env: Env)
    requires Inv(me, l) && Possible(me, l, e) && OnOpening(e)
    ensures Good(me, l, Step(me, l, thread, e, env).local)
  {
    match e {
      case Open(to, terms, allowed) => OpenGood(me, l, thread, to, terms, allowed, env);
      case ApproveOpenBy(id, viaHuman) => ApproveOpenGood(me, l, id, viaHuman, env);
      case RejectOpenBy(id, text, viaHuman) => RejectOpenGood(me, l, id, text, viaHuman, env);
      case Expire => ExpireGood(me, l, env);
      case LookForOpen => LookForOpenGood(me, l, env);
    }
  }

  lemma TalkGood(me: string, l: Local, thread: string, e: Event, env: Env)
    requires Inv(me, l) && OnTalk(e)
    ensures Good(me, l, Step(me, l, thread, e, env).local)
  {
    match e {
      case SayTurn(wellFormed) => TakeTurnGood(me, l, wellFormed, env);
      case SayChallenge => ChallengeGood(me, l, env);
      case SayReport(report) => ReportGood(me, l, report, env);
      case SayBadly => EnsureLiveGood(me, l, env.now);
      case SignHash(hash) => SignGood(me, l, hash, env);
    }
  }

  lemma CareGood(me: string, l: Local, thread: string, e: Event, env: Env)
    requires Inv(me, l) && OnCare(e)
    ensures Good(me, l, Step(me, l, thread, e, env).local)
  {
    match e {
      case RatifyWith(byItem, given, viaHuman) => RatifyGood(me, l, byItem, given, viaHuman, env);
      case LookForRatify => LookForRatifyGood(me, l, env);
      case AskStatus => StatusGood(me, l, env);
      case RevokeBond(peer) => RevokeGood(me, l, peer);
      case CloseThread(reason) => CloseGood(me, l, reason, env);
    }
  }

  lemma BudgetGood(me: string, l: Local, thread: string, e: Event, env: Env)
    requires Inv(me, l) && OnBudget(e)
    ensures Good(me, l, Step(me, l, thread, e, env).local)
  {
    hide ExtendBudget, ApproveExtend, RejectExtend, RetryExtend;
    match e {
      case Extend(newMax, proposalId) => ExtendGood(me, l, newMax, proposalId, env);
      case ApproveExtendBy(id, viaHuman) => ApproveExtendGood(me, l, id, viaHuman, env);
      case RejectExtendBy(id, viaHuman, why) => RejectExtendGood(me, l, id, viaHuman, why, env);
      case Retry => RetryGood(me, l, env);
    }
  }

  /** Every event keeps the invariant, and takes back nothing that `Keeps` names. */
  lemma StepGood(me: string, l: Local, thread: string, e: Event, env: Env)
    requires Inv(me, l) && Possible(me, l, e)
    ensures Good(me, l, Step(me, l, thread, e, env).local)
  {
    if OnOpening(e) {
      OpeningGood(me, l, thread, e, env);
    } else if OnTalk(e) {
      TalkGood(me, l, thread, e, env);
    } else if OnCare(e) {
      CareGood(me, l, thread, e, env);
    } else if OnBudget(e) {
      BudgetGood(me, l, thread, e, env);
    } else {
      ReceiveGood(me, l, thread, e.from, e.msg, env);
    }
  }
}

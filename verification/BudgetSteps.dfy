/** The handlers of the budget extension, one thread at a time. */
module BudgetSteps {
  import opened Options
  import opened SessionTypes
  import opened ThreadSteps

  function PeerOfferQueued(l: Local, myRole: Role): bool {
    FirstOffer(l).Some? && FirstOffer(l).value.proposer != myRole
  }

  function ExtendBudget(me: string, l0: Local, newMax: int, proposalId: string, env: Env): Out {
    var l := EnsureLive(l0, env.now);
    if l.session.None? then Quiet(l, Refused("session_not_found"))
    else
      var s := l.session.value;
      var myRole := RoleFor(s, me);
      if s.status != Live then Quiet(l, Refused("session_not_live"))
      else if s.extension.Some? || PeerOfferQueued(l, myRole) then Quiet(l, Refused("extension_outstanding"))
      else if newMax <= s.terms.budget.maxTurns then Quiet(l, Refused("invalid_payload"))
      else
        Quiet(l.(budgets := [BudgetItem(s, me, env.freshId, Some(Offer(proposalId, newMax, myRole)))]), Done)
  }

  function PayloadFor(s: Record, o: Offer, reason: Option<string>): Payload {
    Payload(s.thread, o.proposalId, o.newMax, reason)
  }

  function BudgetMsg(status: ExtStatus, p: Payload): Msg
    requires status != AwaitingPeer
  {
    match status
    case Emitting => BudgetPropose(p)
    case ApprovedEmitting => BudgetApproved(p)
    case RejectedEmitting => BudgetReject(p)
  }

  /** After the envelope went out: a proposal waits for its answer, an answer is finished. */
  function AfterEmit(o: Offer, status: ExtStatus): Option<Extension> {
    if status == Emitting then Some(Extension(o, AwaitingPeer, None)) else None
  }

  /** Stores the built envelope, tries to send it, and moves on only if that worked. */
  function Emit(l: Local, s: Record, o: Offer, status: ExtStatus, p: Payload, env: Env): Out
    requires status != AwaitingPeer
  {
    var ext := if env.sendOk then AfterEmit(o, status) else Some(Extension(o, status, Some(p)));
    Out(l.(session := Some(s.(extension := ext))), Send(env, BudgetMsg(status, p)),
        if env.sendOk then Done else Noted("emit_pending"), false)
  }

  function SetMax(s: Record, n: int): Record {
    s.(terms := s.terms.(budget := s.terms.budget.(maxTurns := n)))
  }

  function ApproveExtend(me: string, l0: Local, id: string, viaHuman: bool, env: Env): Out {
    var item := FindId(l0.budgets, id);
    if !viaHuman then Quiet(l0, Refused("human_required"))
    else if item.None? then Quiet(l0, Refused("pending_not_found"))
    else if OfferOf(item.value).None? then Quiet(l0, Refused("proposal_required"))
    else
      var l := EnsureLive(l0, env.now);
      var o := OfferOf(item.value).value;
      if l.session.None? then Quiet(l, Refused("session_not_found"))
      else
        var s := l.session.value;
        var l1 := l.(budgets := WithoutId(l.budgets, id));
        if s.status != Live then Quiet(l, Refused("session_not_live"))
        else if o.proposer == RoleFor(s, me) then
          Emit(l1, s, o, Emitting, PayloadFor(s, o, None), env)
        else
          var raised := SetMax(s, o.newMax).(decided := AppendDecided(s.decided, o.proposalId, true));
          Emit(l1, raised, o, ApprovedEmitting, PayloadFor(s, o, None), env)
  }

  function RejectExtend(me: string, l0: Local, id: string, viaHuman: bool, reason: Option<string>, env: Env): Out {
    var item := FindId(l0.budgets, id);
    if !viaHuman then Quiet(l0, Refused("human_required"))
    else if item.None? then Quiet(l0, Refused("pending_not_found"))
    else
      var l := EnsureLive(l0, env.now);
      if l.session.None? then Quiet(l, Refused("session_not_found"))
      else
        var s := l.session.value;
        var l1 := l.(budgets := WithoutId(l.budgets, id));
        if s.status != Live then Quiet(l, Refused("session_not_live"))
        else if OfferOf(item.value).None? || OfferOf(item.value).value.proposer == RoleFor(s, me) then Quiet(l1, Done)
        else
          var o := OfferOf(item.value).value;
          var why := if reason.Some? then reason else Some("rejected");
          Emit(l1, s.(decided := AppendDecided(s.decided, o.proposalId, false)), o, RejectedEmitting,
               PayloadFor(s, o, why), env)
  }

  /** Sends the stored envelope again; a failed send leaves everything as it was. */
  function RetryExtend(l0: Local, env: Env): Out {
    var l := EnsureLive(l0, env.now);
    if l.session.None? then Quiet(l, Refused("session_not_found"))
    else
      var s := l.session.value;
      if s.status != Live then Quiet(l, Refused("session_not_live"))
      else if s.extension.None? || s.extension.value.bytes.None? || s.extension.value.status == AwaitingPeer then
        Quiet(l, Refused("invalid_payload"))
      else if !env.sendOk then Quiet(l, Refused("relay_unavailable"))
      else
        var k := s.extension.value;
        Out(l.(session := Some(s.(extension := AfterEmit(k.offer, k.status)))),
            [BudgetMsg(k.status, k.bytes.value)], Done, false)
  }

  // ---- incoming ----

  /** The checks the three incoming budget handlers share; the answer is the sender's role. */
  function Screen(l: Local, from: string, p: Payload): Option<string> {
    if l.session.None? then Some("session_not_found")
    else if l.session.value.status != Live then Some("session_not_live")
    else if p.thread != l.session.value.thread then Some("invalid_payload")
    else if Participant(l.session.value, from).None? then Some("not_a_participant")
    else None
  }

  function QueuePeerOffer(l: Local, s: Record, me: string, p: Payload, peerRole: Role, env: Env): Local {
    l.(session := Some(s),
       budgets := [BudgetItem(s, me, env.freshId, Some(Offer(p.proposalId, p.newMax, peerRole)))])
  }

  predicate OwnExtension(s: Record, me: string) {
    s.extension.Some? && s.extension.value.offer.proposer == RoleFor(s, me)
  }

  /** What becomes of a new proposal: crossing an own one, the initiator's wins; else it is queued. */
  function Raced(me: string, l: Local, s: Record, p: Payload, peerRole: Role, mine: bool, env: Env): Out {
    if OwnExtension(s, me) then
      if s.initiator == me then
        Out(l.(session := Some(s.(decided := AppendDecided(s.decided, p.proposalId, false)))),
            Send(env, BudgetReject(Payload(s.thread, p.proposalId, p.newMax, Some("superseded")))),
            Noted("initiator_wins"), false)
      else
        var cleared := s.(extension := None,
                          decided := AppendDecided(s.decided, s.extension.value.offer.proposalId, false));
        Quiet(QueuePeerOffer(l, cleared, me, p, peerRole, env), Noted("superseded"))
    else if mine then
      Quiet(QueuePeerOffer(l, s, me, p, peerRole, env), Noted("superseded"))
    else Quiet(QueuePeerOffer(l, s, me, p, peerRole, env), Noted("pending"))
  }

  /** A proposal that is stale or known is dropped; the others race and queue. */
  function Considered(me: string, l: Local, s: Record, p: Payload, peerRole: Role, env: Env): Out {
    var queued := FirstOffer(l);
    if p.newMax <= s.terms.budget.maxTurns then Quiet(l, Noted("dropped"))
    else if Knows(s.decided, p.proposalId) then Quiet(l, Noted("dropped"))
    else if queued.Some? && queued.value.proposalId == p.proposalId && queued.value.newMax == p.newMax then
      Quiet(l, Noted("noop"))
    else if s.extension.Some? && s.extension.value.offer.proposalId == p.proposalId
            && s.extension.value.status == AwaitingPeer then
      Quiet(l, Noted("noop"))
    else Raced(me, l, s, p, peerRole, queued.Some? && queued.value.proposer == RoleFor(s, me), env)
  }

  function IncomingPropose(me: string, l: Local, from: string, p: Payload, env: Env): Out {
    if Screen(l, from, p).Some? then Quiet(l, Refused(Screen(l, from, p).value))
    else Considered(me, l, l.session.value, p, Participant(l.session.value, from).value, env)
  }

  function IncomingApproved(l: Local, from: string, p: Payload): Out {
    if Screen(l, from, p).Some? then Quiet(l, Refused(Screen(l, from, p).value))
    else
      var s := l.session.value;
      if s.terms.budget.maxTurns >= p.newMax then Quiet(l, Noted("dropped"))
      else if s.extension.None? || s.extension.value.offer.proposalId != p.proposalId then Quiet(l, Noted("dropped"))
      else if s.extension.value.status != AwaitingPeer then Quiet(l, Noted("dropped"))
      else
        Quiet(l.(session := Some(SetMax(s, p.newMax).(extension := None,
                                   decided := AppendDecided(s.decided, p.proposalId, true)))), Done)
  }

  function IncomingReject(l: Local, from: string, p: Payload): Out {
    if Screen(l, from, p).Some? then Quiet(l, Refused(Screen(l, from, p).value))
    else
      var s := l.session.value;
      if s.extension.None? || s.extension.value.offer.proposalId != p.proposalId then Quiet(l, Noted("dropped"))
      else
        Quiet(l.(session := Some(s.(extension := None,
                                   decided := AppendDecided(s.decided, p.proposalId, false)))), Done)
  }
}

/** What the human is answered when it extends the turn budget, and what the envelopes of the extension carry. */
module BudgetReplies {
  import opened Options
  import opened SessionTypes
  import opened ThreadSteps
  import opened BudgetSteps
  import opened MachineSteps
  import opened ThreadInvariant
  import opened StepEffects
  import opened NoticeRule

  /** Live and within the deadline. */
  predicate LiveNow(l: Local, now: int) {
    l.session.Some? && l.session.value.status == Live && now <= l.session.value.terms.budget.deadline
  }

  /** A draft is accepted for more turns than there are, with nothing outstanding and no offer of the peer to answer. */
  predicate MayExtend(l: Local, n: int, now: int) {
    && LiveNow(l, now)
    && var s := l.session.value;
    s.extension.None? && n > s.terms.budget.maxTurns && (FirstOffer(l).Some? ==> FirstOffer(l).value.proposer == s.role)
  }

  lemma ExtendAnswered(me: string, l: Local, n: int, p: string, env: Env)
    requires Inv(me, l)
    ensures var o := ExtendBudget(me, l, n, p, env);
            && (o.reply == Done <==> MayExtend(l, n, env.now)) && o.sent == []
            && (o.reply == Done ==>
                  && o.local.session == l.session && |o.local.budgets| == 1 && o.local.budgets[0].id == env.freshId
                  && FirstOffer(o.local) == Some(Offer(p, n, l.session.value.role)))
            && (o.reply != Done ==> o.local == EnsureLive(l, env.now))
  {
  }

  /** The human's word on a queued item with a number, in time. */
  ghost predicate Answerable(l: Local, id: string, viaHuman: bool, now: int) {
    viaHuman && Queued(l.budgets, id) && LiveNow(l, now)
  }

  /** The envelope that still has to be sent. */
  function Unsent(l: Local): Option<Payload> {
    if l.session.Some? && l.session.value.extension.Some? then l.session.value.extension.value.bytes else None
  }

  /** The answer to a send: done, or still to be sent. */
  function SendReply(env: Env): Reply {
    if env.sendOk then Done else Noted("emit_pending")
  }

  /**
   * An approved number is proposed if it is one's own and agreed to if it is the peer's; until it is sent
   * it stays to be sent.
   */
  lemma ApprovalAnswered(me: string, l: Local, id: string, viaHuman: bool, env: Env)
    requires Inv(me, l)
    ensures var o := ApproveExtend(me, l, id, viaHuman, env);
            if Answerable(l, id, viaHuman, env.now) && FirstOffer(l).Some? then
              var s, offer := l.session.value, FirstOffer(l).value;
              var p := Payload(s.thread, offer.proposalId, offer.newMax, None);
              var msg := if offer.proposer == s.role then BudgetPropose(p) else BudgetApproved(p);
              && o.reply == SendReply(env) && o.sent == (if env.sendOk then [msg] else []) && o.local.budgets == []
              && (!env.sendOk ==> Unsent(o.local) == Some(p))
            else o.reply.Refused? && o.sent == []
  {
    FoundIsQueued(l.budgets, id);
  }

  /**
   * A rejection drops a draft or a numberless item, and tells the peer of an offer of its own, with the
   * reason given or "rejected".
   */
  lemma RejectionAnswered(me: string, l: Local, id: string, viaHuman: bool, why: Option<string>, env: Env)
    requires Inv(me, l)
    ensures var o := RejectExtend(me, l, id, viaHuman, why, env);
            if !Answerable(l, id, viaHuman, env.now) then o.reply.Refused? && o.sent == []
            else if FirstOffer(l).None? || FirstOffer(l).value.proposer == l.session.value.role then
              o == Out(l.(budgets := []), [], Done, false)
            else
              var s, offer := l.session.value, FirstOffer(l).value;
              var p := Payload(s.thread, offer.proposalId, offer.newMax, Some(if why.Some? then why.value else "rejected"));
              && o.reply == SendReply(env) && o.sent == (if env.sendOk then [BudgetReject(p)] else []) && o.local.budgets == []
              && (!env.sendOk ==> Unsent(o.local) == Some(p))
  {
    FoundIsQueued(l.budgets, id);
  }

  /** A retry sends the very envelope that did not go out, once the relay takes it; until then nothing changes. */
  lemma RetryAnswered(me: string, l: Local, env: Env)
    requires Inv(me, l)
    ensures var o := RetryExtend(l, env);
            var due := LiveNow(l, env.now) && Unsent(l).Some?;
            && (o.reply == Done <==> due && env.sendOk)
            && (o.reply == Done ==> o.sent == [BudgetMsg(l.session.value.extension.value.status, Unsent(l).value)])
            && (due && !env.sendOk ==> o == Out(l, [], Refused("relay_unavailable"), false))
            && (!due ==> o.reply.Refused? && o.sent == [])
  {
  }
}

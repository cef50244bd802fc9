/** One machine seen as one side of the budget protocol: each event is a step of it or changes nothing. */
module BudgetRefinement {
  import opened Options
  import opened SessionTypes
  import opened ThreadSteps
  import opened BudgetSteps
  import opened MachineSteps
  import opened ThreadInvariant
  import opened StepEffects
  import P = BudgetProtocol

  function AskOf(x: Option<Extension>): Option<P.Ask> {
    if x.None? then None else Some(P.Ask(x.value.offer, x.value.status))
  }

  function Verdicts(ds: seq<Decided>): map<string, bool> {
    if ds == [] then map[] else P.Judge(Verdicts(ds[..|ds| - 1]), ds[|ds| - 1].proposalId, ds[|ds| - 1].approved)
  }

  lemma {:induction false} VerdictsKnow(ds: seq<Decided>, p: string)
    ensures p in Verdicts(ds) <==> Knows(ds, p)
  {
    if ds != [] {
      VerdictsKnow(ds[..|ds| - 1], p);
      if Knows(ds, p) {
        var d :| d in ds && d.proposalId == p;
        assert d in ds[..|ds| - 1] || d == ds[|ds| - 1];
      }
    }
  }

  lemma VerdictsAppend(ds: seq<Decided>, p: string, approved: bool)
    ensures Verdicts(AppendDecided(ds, p, approved)) == P.Judge(Verdicts(ds), p, approved)
  {
    VerdictsKnow(ds, p);
    var r := ds + [Decided(p, approved)];
    assert r[..|r| - 1] == ds;
  }

  /** With each id decided once, the verdict map says exactly what the list says. */
  lemma {:induction false} VerdictsExact(ds: seq<Decided>, p: string, approved: bool)
    requires DecidedOnce(ds)
    ensures Decided(p, approved) in ds <==> p in Verdicts(ds) && Verdicts(ds)[p] == approved
  {
    if ds != [] {
      var rest, last := ds[..|ds| - 1], ds[|ds| - 1];
      VerdictsExact(rest, p, approved);
      VerdictsKnow(rest, last.proposalId);
      assert ds == rest + [last];
    }
  }

  function View(l: Local): P.Side
    requires l.session.Some?
  {
    var s := l.session.value;
    P.Side(s.role, s.terms.budget.maxTurns, AskOf(s.extension), FirstOffer(l), Verdicts(s.decided))
  }

  function BudgetPart(m: Msg): seq<P.BMsg> {
    match m
    case BudgetPropose(p) => [P.Propose(p.proposalId, p.newMax)]
    case BudgetApproved(p) => [P.Approve(p.proposalId, p.newMax)]
    case BudgetReject(p) => [P.Reject(p.proposalId)]
    case _ => []
  }

  function BudgetMsgs(ch: seq<Msg>): seq<P.BMsg> {
    if ch == [] then [] else BudgetPart(ch[0]) + BudgetMsgs(ch[1..])
  }

  lemma Associate(a: seq<P.BMsg>, b: seq<P.BMsg>, c: seq<P.BMsg>)
    ensures (a + b) + c == a + (b + c)
  {
  }

  lemma {:induction false} BudgetMsgsAppend(ch: seq<Msg>, more: seq<Msg>)
    ensures BudgetMsgs(ch + more) == BudgetMsgs(ch) + BudgetMsgs(more)
  {
    hide BudgetPart;
    if ch == [] {
      assert ch + more == more;
    } else {
      BudgetMsgsAppend(ch[1..], more);
      assert (ch + more)[1..] == ch[1..] + more;
      Associate(BudgetPart(ch[0]), BudgetMsgs(ch[1..]), BudgetMsgs(more));
    }
  }

  lemma LoudExtend(me: string, l: Local, n: int, p: string, env: Env)
    requires Inv(me, l) && Loud(me, l, Extend(n, p), env)
    ensures var o := ExtendBudget(me, l, n, p, env);
            && P.CanDraft(View(l), n) && View(o.local) == P.Draft(View(l), p, n)
            && o.sent == [] && IsLive(o.local)
  {
  }

  lemma LoudEmit(me: string, l: Local, id: string, env: Env)
    requires Inv(me, l) && Loud(me, l, ApproveExtendBy(id, true), env) && !P.PeerOffer(View(l))
    ensures var o := ApproveExtend(me, l, id, true, env);
            var act := P.EmitDraft(View(l), env.sendOk);
            IsLive(o.local) && View(o.local) == act.side && BudgetMsgs(o.sent) == act.sent
  {
  }

  lemma LoudApprovePeer(me: string, l: Local, id: string, env: Env)
    requires Inv(me, l) && Loud(me, l, ApproveExtendBy(id, true), env) && P.PeerOffer(View(l))
    ensures var o := ApproveExtend(me, l, id, true, env);
            var act := P.ApproveOffer(View(l), env.sendOk);
            IsLive(o.local) && View(o.local) == act.side && BudgetMsgs(o.sent) == act.sent
  {
    VerdictsAppend(l.session.value.decided, FirstOffer(l).value.proposalId, true);
  }

  lemma LoudApprove(me: string, l: Local, id: string, env: Env)
    requires Inv(me, l) && Loud(me, l, ApproveExtendBy(id, true), env)
    ensures var o := ApproveExtend(me, l, id, true, env);
            && IsLive(o.local)
            && var act := if P.PeerOffer(View(l)) then P.ApproveOffer(View(l), env.sendOk) else P.EmitDraft(View(l), env.sendOk);
            View(o.local) == act.side && BudgetMsgs(o.sent) == act.sent
  {
    if P.PeerOffer(View(l)) {
      LoudApprovePeer(me, l, id, env);
    } else {
      LoudEmit(me, l, id, env);
    }
  }

  lemma LoudRejectOwn(me: string, l: Local, id: string, why: Option<string>, env: Env)
    requires Inv(me, l) && Loud(me, l, RejectExtendBy(id, true, why), env) && !P.PeerOffer(View(l))
    ensures var o := RejectExtend(me, l, id, true, why, env);
            IsLive(o.local) && View(o.local) == P.DropDraft(View(l)) && o.sent == []
  {
    hide Verdicts, AppendDecided;
  }

  lemma LoudRejectPeer(me: string, l: Local, id: string, why: Option<string>, env: Env)
    requires Inv(me, l) && Loud(me, l, RejectExtendBy(id, true, why), env) && P.PeerOffer(View(l))
    ensures var o := RejectExtend(me, l, id, true, why, env);
            var act := P.RejectOffer(View(l), env.sendOk);
            IsLive(o.local) && View(o.local) == act.side && BudgetMsgs(o.sent) == act.sent
  {
    VerdictsAppend(l.session.value.decided, FirstOffer(l).value.proposalId, false);
  }

  lemma LoudReject(me: string, l: Local, id: string, why: Option<string>, env: Env)
    requires Inv(me, l) && Loud(me, l, RejectExtendBy(id, true, why), env)
    ensures var o := RejectExtend(me, l, id, true, why, env);
            && IsLive(o.local)
            && var act := if P.PeerOffer(View(l)) then P.RejectOffer(View(l), env.sendOk) else P.Act(P.DropDraft(View(l)), []);
            View(o.local) == act.side && BudgetMsgs(o.sent) == act.sent
  {
    hide RejectExtend;
    if P.PeerOffer(View(l)) {
      LoudRejectPeer(me, l, id, why, env);
    } else {
      LoudRejectOwn(me, l, id, why, env);
    }
  }

  lemma LoudRetry(me: string, l: Local, env: Env)
    requires Inv(me, l) && Loud(me, l, Event.Retry, env)
    ensures var o := RetryExtend(l, env);
            IsLive(o.local) && View(o.local) == P.Retry(View(l)).side && BudgetMsgs(o.sent) == P.Retry(View(l)).sent
  {
  }

  lemma LoudProposeWon(me: string, l: Local, from: string, p: Payload, env: Env)
    requires Inv(me, l) && from != me && Loud(me, l, Incoming(from, BudgetPropose(p)), env)
    requires !P.Ignores(View(l), p.proposalId, p.newMax) && P.OwnAsk(View(l)) && l.session.value.role == Initiator
    ensures var o := IncomingPropose(me, l, from, p, env);
            var act := P.OnPropose(View(l), p.proposalId, p.newMax, env.sendOk);
            IsLive(o.local) && View(o.local) == act.side && BudgetMsgs(o.sent) == act.sent
  {
    VerdictsKnow(l.session.value.decided, p.proposalId);
    VerdictsAppend(l.session.value.decided, p.proposalId, false);
  }

  lemma LoudProposeLost(me: string, l: Local, from: string, p: Payload, env: Env)
    requires Inv(me, l) && from != me && Loud(me, l, Incoming(from, BudgetPropose(p)), env)
    requires !P.Ignores(View(l), p.proposalId, p.newMax) && P.OwnAsk(View(l)) && l.session.value.role == Recipient
    ensures var o := IncomingPropose(me, l, from, p, env);
            var act := P.OnPropose(View(l), p.proposalId, p.newMax, env.sendOk);
            IsLive(o.local) && View(o.local) == act.side && o.sent == [] && act.sent == []
  {
    VerdictsKnow(l.session.value.decided, p.proposalId);
    VerdictsAppend(l.session.value.decided, l.session.value.extension.value.offer.proposalId, false);
  }

  lemma LoudProposeIgnored(me: string, l: Local, from: string, p: Payload, env: Env)
    requires Inv(me, l) && from != me && Loud(me, l, Incoming(from, BudgetPropose(p)), env)
    requires P.Ignores(View(l), p.proposalId, p.newMax)
    ensures var o := IncomingPropose(me, l, from, p, env); o.local == l && o.sent == []
  {
    VerdictsKnow(l.session.value.decided, p.proposalId);
  }

  lemma LoudProposeQueued(me: string, l: Local, from: string, p: Payload, env: Env)
    requires Inv(me, l) && from != me && Loud(me, l, Incoming(from, BudgetPropose(p)), env)
    requires !P.Ignores(View(l), p.proposalId, p.newMax) && !P.OwnAsk(View(l))
    ensures var o := IncomingPropose(me, l, from, p, env);
            var act := P.OnPropose(View(l), p.proposalId, p.newMax, env.sendOk);
            IsLive(o.local) && View(o.local) == act.side && o.sent == [] && act.sent == []
  {
    VerdictsKnow(l.session.value.decided, p.proposalId);
  }

  lemma LoudPropose(me: string, l: Local, from: string, p: Payload, env: Env)
    requires Inv(me, l) && from != me && Loud(me, l, Incoming(from, BudgetPropose(p)), env)
    ensures var o := IncomingPropose(me, l, from, p, env);
            var act := P.OnPropose(View(l), p.proposalId, p.newMax, env.sendOk);
            IsLive(o.local) && View(o.local) == act.side && BudgetMsgs(o.sent) == act.sent
  {
    if P.Ignores(View(l), p.proposalId, p.newMax) {
      LoudProposeIgnored(me, l, from, p, env);
    } else if !P.OwnAsk(View(l)) {
      LoudProposeQueued(me, l, from, p, env);
    } else if l.session.value.role == Initiator {
      LoudProposeWon(me, l, from, p, env);
    } else {
      LoudProposeLost(me, l, from, p, env);
    }
  }

  lemma LoudApproved(me: string, l: Local, from: string, p: Payload, env: Env)
    requires Inv(me, l) && from != me && Loud(me, l, Incoming(from, BudgetApproved(p)), env)
    ensures var o := IncomingApproved(l, from, p);
            IsLive(o.local) && View(o.local) == P.OnApprove(View(l), p.proposalId, p.newMax) && o.sent == []
  {
    VerdictsAppend(l.session.value.decided, p.proposalId, true);
  }

  lemma LoudRejected(me: string, l: Local, from: string, p: Payload, env: Env)
    requires Inv(me, l) && from != me && Loud(me, l, Incoming(from, BudgetReject(p)), env)
    ensures var o := IncomingReject(l, from, p);
            IsLive(o.local) && View(o.local) == P.OnReject(View(l), p.proposalId) && o.sent == []
  {
    VerdictsAppend(l.session.value.decided, p.proposalId, false);
  }
}

/** Every step of the budget protocol keeps `Both`. */
module BudgetProofs {
  import opened Options
  import opened SessionTypes
  import opened BudgetProtocol

  lemma BothDraft(x: Side, y: Side, xy: seq<BMsg>, yx: seq<BMsg>, ids: map<string, Role>, p: string, n: int)
    requires Both(x, y, xy, yx, ids) && CanDraft(x, n) && p !in ids
    ensures Both(Draft(x, p, n), y, xy, yx, ids[p := x.role])
  {
    var x' := Draft(x, p, n);
    var ids' := ids[p := x.role];
    assert SideOk(x', ids');
    assert SideOk(y, ids');
    assert Half(x', y, xy, yx, ids');
    assert Half(y, x', yx, xy, ids');
  }

  lemma BothDrop(x: Side, y: Side, xy: seq<BMsg>, yx: seq<BMsg>, ids: map<string, Role>)
    requires Both(x, y, xy, yx, ids) && x.offer.Some? && !PeerOffer(x)
    ensures Both(DropDraft(x), y, xy, yx, ids)
  {
  }

  lemma BothEmitHalf(x: Side, y: Side, xy: seq<BMsg>, yx: seq<BMsg>, ids: map<string, Role>, ok: bool)
    requires Both(x, y, xy, yx, ids) && x.offer.Some? && !PeerOffer(x)
    ensures var x', xy' := EmitDraft(x, ok).side, xy + EmitDraft(x, ok).sent; Half(x', y, xy', yx, ids)
  {
  }

  lemma BothEmit(x: Side, y: Side, xy: seq<BMsg>, yx: seq<BMsg>, ids: map<string, Role>, ok: bool)
    requires Both(x, y, xy, yx, ids) && x.offer.Some? && !PeerOffer(x)
    ensures Both(EmitDraft(x, ok).side, y, xy + EmitDraft(x, ok).sent, yx, ids)
  {
    var x', xy' := EmitDraft(x, ok).side, xy + EmitDraft(x, ok).sent;
    BothEmitHalf(x, y, xy, yx, ids, ok);
    assert Half(y, x', yx, xy', ids);
  }

  lemma BothApproveHalf(x: Side, y: Side, xy: seq<BMsg>, yx: seq<BMsg>, ids: map<string, Role>, ok: bool)
    requires Both(x, y, xy, yx, ids) && PeerOffer(x)
    ensures var x', xy' := ApproveOffer(x, ok).side, xy + ApproveOffer(x, ok).sent; Half(x', y, xy', yx, ids)
  {
  }

  lemma BothApprove(x: Side, y: Side, xy: seq<BMsg>, yx: seq<BMsg>, ids: map<string, Role>, ok: bool)
    requires Both(x, y, xy, yx, ids) && PeerOffer(x)
    ensures Both(ApproveOffer(x, ok).side, y, xy + ApproveOffer(x, ok).sent, yx, ids)
  {
    var x', xy' := ApproveOffer(x, ok).side, xy + ApproveOffer(x, ok).sent;
    assert SideOk(x', ids);
    BothApproveHalf(x, y, xy, yx, ids, ok);
    assert Half(y, x', yx, xy', ids);
  }

  lemma BothRejectHalf(x: Side, y: Side, xy: seq<BMsg>, yx: seq<BMsg>, ids: map<string, Role>, ok: bool)
    requires Both(x, y, xy, yx, ids) && PeerOffer(x)
    ensures var x', xy' := RejectOffer(x, ok).side, xy + RejectOffer(x, ok).sent; Half(x', y, xy', yx, ids)
  {
  }

  lemma BothReject(x: Side, y: Side, xy: seq<BMsg>, yx: seq<BMsg>, ids: map<string, Role>, ok: bool)
    requires Both(x, y, xy, yx, ids) && PeerOffer(x)
    ensures Both(RejectOffer(x, ok).side, y, xy + RejectOffer(x, ok).sent, yx, ids)
  {
    var x', xy' := RejectOffer(x, ok).side, xy + RejectOffer(x, ok).sent;
    assert SideOk(x', ids);
    BothRejectHalf(x, y, xy, yx, ids, ok);
    assert Half(y, x', yx, xy', ids);
  }

  lemma BothRetryProposeHalf(x: Side, y: Side, xy: seq<BMsg>, yx: seq<BMsg>, ids: map<string, Role>)
    requires Both(x, y, xy, yx, ids) && x.ask.Some? && x.ask.value.status == Emitting
    ensures var x', xy' := Retry(x).side, xy + Retry(x).sent; Half(x', y, xy', yx, ids)
  {
  }

  lemma BothRetryPropose(x: Side, y: Side, xy: seq<BMsg>, yx: seq<BMsg>, ids: map<string, Role>)
    requires Both(x, y, xy, yx, ids) && x.ask.Some? && x.ask.value.status == Emitting
    ensures Both(Retry(x).side, y, xy + Retry(x).sent, yx, ids)
  {
    var x', xy' := Retry(x).side, xy + Retry(x).sent;
    BothRetryProposeHalf(x, y, xy, yx, ids);
    assert Half(y, x', yx, xy', ids);
  }

  lemma BothRetryAnswerHalf(x: Side, y: Side, xy: seq<BMsg>, yx: seq<BMsg>, ids: map<string, Role>)
    requires Both(x, y, xy, yx, ids) && x.ask.Some? && !OwnAsk(x)
    ensures var x', xy' := Retry(x).side, xy + Retry(x).sent; Half(x', y, xy', yx, ids)
  {
  }

  lemma BothRetryAnswer(x: Side, y: Side, xy: seq<BMsg>, yx: seq<BMsg>, ids: map<string, Role>)
    requires Both(x, y, xy, yx, ids) && x.ask.Some? && !OwnAsk(x)
    ensures Both(Retry(x).side, y, xy + Retry(x).sent, yx, ids)
  {
    var x', xy' := Retry(x).side, xy + Retry(x).sent;
    BothRetryAnswerHalf(x, y, xy, yx, ids);
    assert Half(y, x', yx, xy', ids);
  }

  lemma BothRetry(x: Side, y: Side, xy: seq<BMsg>, yx: seq<BMsg>, ids: map<string, Role>)
    requires Both(x, y, xy, yx, ids) && x.ask.Some? && x.ask.value.status != AwaitingPeer
    ensures Both(Retry(x).side, y, xy + Retry(x).sent, yx, ids)
  {
    if OwnAsk(x) {
      BothRetryPropose(x, y, xy, yx, ids);
    } else {
      BothRetryAnswer(x, y, xy, yx, ids);
    }
  }

  /** A proposal that is ignored had already lost the race. */
  lemma BothIgnored(x: Side, y: Side, xy: seq<BMsg>, yx: seq<BMsg>, ids: map<string, Role>)
    requires Both(x, y, xy, yx, ids) && yx != [] && yx[0].Propose? && Ignores(x, yx[0].p, yx[0].n)
    ensures Both(x, y, xy, yx[1..], ids)
  {
  }

  /** Sending the rejection of a proposal already rejected disturbs nothing. */
  lemma BothAppendReject(x: Side, y: Side, xy: seq<BMsg>, yx: seq<BMsg>, ids: map<string, Role>, p: string)
    requires Both(x, y, xy, yx, ids) && Rejected(x, p) && p in ids && ids[p] == y.role
    requires x.ask.None? || OwnAsk(x)
    ensures Both(x, y, xy + [Reject(p)], yx, ids)
  {
  }

  lemma RejectedOnArrivalHalf(x: Side, y: Side, xy: seq<BMsg>, yx: seq<BMsg>, ids: map<string, Role>)
    requires Both(x, y, xy, yx, ids) && yx != [] && yx[0].Propose? && yx[0].p !in x.verdicts
    requires OwnAsk(x) && x.role == Initiator
    ensures Half(x.(verdicts := x.verdicts[yx[0].p := false]), y, xy, yx[1..], ids)
  {
  }

  lemma BothRejectedOnArrival(x: Side, y: Side, xy: seq<BMsg>, yx: seq<BMsg>, ids: map<string, Role>)
    requires Both(x, y, xy, yx, ids) && yx != [] && yx[0].Propose? && yx[0].p !in x.verdicts
    requires OwnAsk(x) && x.role == Initiator
    ensures Both(x.(verdicts := x.verdicts[yx[0].p := false]), y, xy, yx[1..], ids)
  {
    var x' := x.(verdicts := x.verdicts[yx[0].p := false]);
    RejectedOnArrivalHalf(x, y, xy, yx, ids);
    assert Half(y, x', yx[1..], xy, ids);
  }

  lemma BothInitiatorWins(x: Side, y: Side, xy: seq<BMsg>, yx: seq<BMsg>, ids: map<string, Role>, ok: bool)
    requires Both(x, y, xy, yx, ids) && yx != [] && yx[0].Propose? && !Ignores(x, yx[0].p, yx[0].n)
    requires OwnAsk(x) && x.role == Initiator
    ensures var r := OnPropose(x, yx[0].p, yx[0].n, ok); Both(r.side, y, xy + r.sent, yx[1..], ids)
  {
    var x' := OnPropose(x, yx[0].p, yx[0].n, ok).side;
    BothRejectedOnArrival(x, y, xy, yx, ids);
    if ok {
      BothAppendReject(x', y, xy, yx[1..], ids, yx[0].p);
    } else {
      assert xy + [] == xy;
    }
  }

  lemma BothSuperseded(x: Side, y: Side, xy: seq<BMsg>, yx: seq<BMsg>, ids: map<string, Role>, ok: bool)
    requires Both(x, y, xy, yx, ids) && yx != [] && yx[0].Propose? && !Ignores(x, yx[0].p, yx[0].n)
    requires OwnAsk(x) && x.role == Recipient
    ensures var r := OnPropose(x, yx[0].p, yx[0].n, ok); Both(r.side, y, xy + r.sent, yx[1..], ids)
  {
  }

  lemma BothQueued(x: Side, y: Side, xy: seq<BMsg>, yx: seq<BMsg>, ids: map<string, Role>, ok: bool)
    requires Both(x, y, xy, yx, ids) && yx != [] && yx[0].Propose? && !Ignores(x, yx[0].p, yx[0].n)
    requires !OwnAsk(x)
    ensures var r := OnPropose(x, yx[0].p, yx[0].n, ok); Both(r.side, y, xy + r.sent, yx[1..], ids)
  {
  }

  lemma BothOnPropose(x: Side, y: Side, xy: seq<BMsg>, yx: seq<BMsg>, ids: map<string, Role>, ok: bool)
    requires Both(x, y, xy, yx, ids) && yx != [] && yx[0].Propose?
    ensures var r := OnPropose(x, yx[0].p, yx[0].n, ok); Both(r.side, y, xy + r.sent, yx[1..], ids)
  {
    if Ignores(x, yx[0].p, yx[0].n) {
      BothIgnored(x, y, xy, yx, ids);
      assert xy + [] == xy;
    } else if !OwnAsk(x) {
      BothQueued(x, y, xy, yx, ids, ok);
    } else if x.role == Initiator {
      BothInitiatorWins(x, y, xy, yx, ids, ok);
    } else {
      BothSuperseded(x, y, xy, yx, ids, ok);
    }
  }

  lemma OnApproveHalf(x: Side, y: Side, xy: seq<BMsg>, yx: seq<BMsg>, ids: map<string, Role>)
    requires Both(x, y, xy, yx, ids) && yx != [] && yx[0].Approve?
    ensures Half(OnApprove(x, yx[0].p, yx[0].n), y, xy, yx[1..], ids)
  {
  }

  lemma BothOnApprove(x: Side, y: Side, xy: seq<BMsg>, yx: seq<BMsg>, ids: map<string, Role>)
    requires Both(x, y, xy, yx, ids) && yx != [] && yx[0].Approve?
    ensures Both(OnApprove(x, yx[0].p, yx[0].n), y, xy, yx[1..], ids)
  {
    var x' := OnApprove(x, yx[0].p, yx[0].n);
    assert SideOk(x', ids);
    OnApproveHalf(x, y, xy, yx, ids);
    assert Half(y, x', yx[1..], xy, ids);
  }

  lemma BothRejectTaken(x: Side, y: Side, xy: seq<BMsg>, yx: seq<BMsg>, ids: map<string, Role>)
    requires Both(x, y, xy, yx, ids) && yx != [] && yx[0].Reject?
    requires x.ask.Some? && x.ask.value.offer.proposalId == yx[0].p
    ensures Both(OnReject(x, yx[0].p), y, xy, yx[1..], ids)
  {
    assert Awaits(x, yx[0].p, x.ask.value.offer.newMax);
    var x' := OnReject(x, yx[0].p);
    assert Half(x', y, xy, yx[1..], ids);
    assert Half(y, x', yx[1..], xy, ids);
  }

  lemma BothRejectDropped(x: Side, y: Side, xy: seq<BMsg>, yx: seq<BMsg>, ids: map<string, Role>)
    requires Both(x, y, xy, yx, ids) && yx != [] && yx[0].Reject?
    requires x.ask.None? || x.ask.value.offer.proposalId != yx[0].p
    ensures Both(x, y, xy, yx[1..], ids)
  {
  }

  lemma BothOnReject(x: Side, y: Side, xy: seq<BMsg>, yx: seq<BMsg>, ids: map<string, Role>)
    requires Both(x, y, xy, yx, ids) && yx != [] && yx[0].Reject?
    ensures Both(OnReject(x, yx[0].p), y, xy, yx[1..], ids)
  {
    if x.ask.None? || x.ask.value.offer.proposalId != yx[0].p {
      BothRejectDropped(x, y, xy, yx, ids);
    } else {
      BothRejectTaken(x, y, xy, yx, ids);
    }
  }

  // ---- the protocol gets somewhere ----

  ghost predicate Idle(x: Side, p: string) {
    x.ask.None? && x.offer.None? && Undecided(x, p)
  }

  /** Left alone, a proposal that the other side's human approves raises both budgets to its number. */
  lemma UndisturbedRaise(x: Side, y: Side, p: string, n: int)
    requires y.role == Other(x.role) && x.max == y.max < n && Idle(x, p) && Idle(y, p)
    ensures var proposed := EmitDraft(Draft(x, p, n), true);
            var queued := OnPropose(y, p, n, true).side;
            && proposed.sent == [Propose(p, n)] && PeerOffer(queued)
            && var approved := ApproveOffer(queued, true);
            && approved.sent == [Approve(p, n)]
            && var done := OnApprove(proposed.side, p, n);
            && done.max == n && approved.side.max == n && Approved(done, p) && Approved(approved.side, p)
            && done.ask.None? && done.offer.None? && approved.side.ask.None? && approved.side.offer.None?
  {
  }

  /**
   * Two proposals that cross: the initiator rejects the recipient's and keeps its own, the recipient gives
   * its own up and queues the initiator's, and both record the recipient's as rejected.
   */
  lemma CrossingRaceSettles(x: Side, y: Side, p: string, n: int, q: string, m: int)
    requires x.role == Initiator && y.role == Recipient && x.max == y.max && x.max < n && x.max < m && p != q
    requires Idle(x, p) && Idle(x, q) && Idle(y, p) && Idle(y, q)
    ensures var mine, theirs := EmitDraft(Draft(x, p, n), true).side, EmitDraft(Draft(y, q, m), true).side;
            var won, lost := OnPropose(mine, q, m, true), OnPropose(theirs, p, n, true);
            && won.side.ask == mine.ask && won.sent == [Reject(q)] && Rejected(won.side, q)
            && lost.side.ask.None? && lost.sent == [] && Rejected(lost.side, q)
            && lost.side.offer == Some(Offer(p, n, Initiator))
            && OnReject(lost.side, q) == lost.side
  {
  }

  /** And one it rejects leaves both budgets alone, nothing outstanding, and the rejection recorded on both sides. */
  lemma UndisturbedReject(x: Side, y: Side, p: string, n: int)
    requires y.role == Other(x.role) && x.max == y.max < n && Idle(x, p) && Idle(y, p)
    ensures var proposed := EmitDraft(Draft(x, p, n), true);
            var queued := OnPropose(y, p, n, true).side;
            && proposed.sent == [Propose(p, n)] && PeerOffer(queued)
            && var rejected := RejectOffer(queued, true);
            && rejected.sent == [Reject(p)]
            && var done := OnReject(proposed.side, p);
            && done.max == x.max && rejected.side.max == y.max && Rejected(done, p) && Rejected(rejected.side, p)
            && done.ask.None? && done.offer.None? && rejected.side.ask.None? && rejected.side.offer.None?
  {
  }

  /** A send that failed and goes through on a retry leaves what a send that went through at once would have left. */
  lemma RetryIsALateSend(x: Side)
    requires x.offer.Some?
    ensures !PeerOffer(x) ==>
              var failed := EmitDraft(x, false);
              failed.sent == [] && failed.side.ask.Some? && failed.side.ask.value.status != AwaitingPeer
              && Retry(failed.side) == EmitDraft(x, true)
    ensures PeerOffer(x) ==>
              var approved, rejected := ApproveOffer(x, false), RejectOffer(x, false);
              && approved.sent == [] && approved.side.ask.Some? && approved.side.ask.value.status != AwaitingPeer
              && Retry(approved.side) == ApproveOffer(x, true)
              && rejected.sent == [] && rejected.side.ask.Some? && rejected.side.ask.value.status != AwaitingPeer
              && Retry(rejected.side) == RejectOffer(x, true)
  {
  }

  /**
   * A proposal not heard of before, for more turns, is never left lying: the initiator with an own one out
   * refuses it, and everybody else queues it for the human, whatever was queued or outstanding of its own.
   */
  lemma NewProposalIsTakenUp(x: Side, p: string, n: int, ok: bool)
    requires n > x.max && Undecided(x, p) && !OfferIs(x, p) && (x.ask.Some? ==> x.ask.value.offer.proposalId != p)
    ensures var act := OnPropose(x, p, n, ok);
            if OwnAsk(x) && x.role == Initiator then
              act.side.ask == x.ask && Rejected(act.side, p) && act.sent == (if ok then [Reject(p)] else [])
            else
              act.side.offer == Some(Offer(p, n, Other(x.role))) && !OwnAsk(act.side) && act.sent == []
  {
  }

  /** A draft of one's own that the human turns down is as if it had never been drafted. */
  lemma DroppedDraftIsGone(x: Side, p: string, n: int)
    requires CanDraft(x, n) && x.offer.None?
    ensures DropDraft(Draft(x, p, n)) == x
  {
  }
}

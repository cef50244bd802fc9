/**
 * The budget-extension agreement protocol on its own: two sides joined by two FIFO channels, and
 * nothing of a session but the turn budget, the outstanding extension, the numbered queue item and
 * the decisions. `BudgetAgreement` shows that every honest run of two session machines is a run of this.
 */
module BudgetProtocol {
  import opened Options
  import opened SessionTypes

  datatype BMsg = Propose(p: string, n: int) | Approve(p: string, n: int) | Reject(p: string)

  datatype Ask = Ask(offer: Offer, status: ExtStatus)

  datatype Side = Side(role: Role, max: int, ask: Option<Ask>, offer: Option<Offer>, verdicts: map<string, bool>)

  datatype Act = Act(side: Side, sent: seq<BMsg>)

  /** `ids` records which side made up each proposal id. */
  datatype Duo = Duo(a: Side, b: Side, ab: seq<BMsg>, ba: seq<BMsg>, ids: map<string, Role>)

  /** The first verdict on a proposal stands. */
  function Judge(v: map<string, bool>, p: string, approved: bool): map<string, bool> {
    if p in v then v else v[p := approved]
  }

  function If(ok: bool, m: BMsg): seq<BMsg> {
    if ok then [m] else []
  }

  // ---- the steps of one side ----

  predicate OwnAsk(x: Side) {
    x.ask.Some? && x.ask.value.offer.proposer == x.role
  }

  predicate PeerOffer(x: Side) {
    x.offer.Some? && x.offer.value.proposer != x.role
  }

  predicate CanDraft(x: Side, n: int) {
    x.ask.None? && !PeerOffer(x) && n > x.max
  }

  function Draft(x: Side, p: string, n: int): Side
    requires CanDraft(x, n)
  {
    x.(offer := Some(Offer(p, n, x.role)))
  }

  function DropDraft(x: Side): Side
    requires x.offer.Some? && !PeerOffer(x)
  {
    x.(offer := None)
  }

  function EmitDraft(x: Side, ok: bool): Act
    requires x.offer.Some? && !PeerOffer(x)
  {
    var o := x.offer.value;
    Act(x.(offer := None, ask := Some(Ask(o, if ok then AwaitingPeer else Emitting))),
        If(ok, Propose(o.proposalId, o.newMax)))
  }

  function ApproveOffer(x: Side, ok: bool): Act
    requires PeerOffer(x)
  {
    var o := x.offer.value;
    Act(x.(offer := None, max := o.newMax, verdicts := Judge(x.verdicts, o.proposalId, true),
           ask := if ok then None else Some(Ask(o, ApprovedEmitting))),
        If(ok, Approve(o.proposalId, o.newMax)))
  }

  function RejectOffer(x: Side, ok: bool): Act
    requires PeerOffer(x)
  {
    var o := x.offer.value;
    Act(x.(offer := None, verdicts := Judge(x.verdicts, o.proposalId, false),
           ask := if ok then None else Some(Ask(o, RejectedEmitting))),
        If(ok, Reject(o.proposalId)))
  }

  /** A retry that goes through; one that fails changes nothing. */
  function Retry(x: Side): Act
    requires x.ask.Some? && x.ask.value.status != AwaitingPeer
  {
    var k := x.ask.value;
    match k.status
    case Emitting => Act(x.(ask := Some(k.(status := AwaitingPeer))), [Propose(k.offer.proposalId, k.offer.newMax)])
    case ApprovedEmitting => Act(x.(ask := None), [Approve(k.offer.proposalId, k.offer.newMax)])
    case RejectedEmitting => Act(x.(ask := None), [Reject(k.offer.proposalId)])
  }

  predicate Ignores(x: Side, p: string, n: int) {
    || n <= x.max
    || p in x.verdicts
    || (x.offer.Some? && x.offer.value.proposalId == p && x.offer.value.newMax == n)
    || (x.ask.Some? && x.ask.value.offer.proposalId == p && x.ask.value.status == AwaitingPeer)
  }

  function OnPropose(x: Side, p: string, n: int, ok: bool): Act {
    if Ignores(x, p, n) then Act(x, [])
    else if OwnAsk(x) && x.role == Initiator then
      Act(x.(verdicts := Judge(x.verdicts, p, false)), If(ok, Reject(p)))
    else if OwnAsk(x) then
      Act(x.(ask := None, verdicts := Judge(x.verdicts, x.ask.value.offer.proposalId, false),
             offer := Some(Offer(p, n, Other(x.role)))), [])
    else Act(x.(offer := Some(Offer(p, n, Other(x.role)))), [])
  }

  function OnApprove(x: Side, p: string, n: int): Side {
    if x.max >= n || x.ask.None? || x.ask.value.offer.proposalId != p || x.ask.value.status != AwaitingPeer then x
    else x.(max := n, ask := None, verdicts := Judge(x.verdicts, p, true))
  }

  function OnReject(x: Side, p: string): Side {
    if x.ask.None? || x.ask.value.offer.proposalId != p then x
    else x.(ask := None, verdicts := Judge(x.verdicts, p, false))
  }

  // ---- what every reachable pair keeps ----

  ghost predicate Approved(x: Side, p: string) { p in x.verdicts && x.verdicts[p] }
  ghost predicate Rejected(x: Side, p: string) { p in x.verdicts && !x.verdicts[p] }
  ghost predicate Undecided(x: Side, p: string) { p !in x.verdicts }

  ghost predicate OfferIs(x: Side, p: string) { x.offer.Some? && x.offer.value.proposalId == p }

  /** `y` has sent its own proposal `p` for `n` turns and waits for the answer. */
  ghost predicate Awaits(y: Side, p: string, n: int) {
    y.ask == Some(Ask(Offer(p, n, y.role), AwaitingPeer))
  }

  ghost predicate Proposed(ch: seq<BMsg>, p: string) {
    exists i :: 0 <= i < |ch| && ch[i].Propose? && ch[i].p == p
  }

  ghost predicate Answers(m: BMsg, p: string) {
    !m.Propose? && m.p == p
  }

  /** What holds of one side alone. */
  ghost predicate SideOk(x: Side, ids: map<string, Role>) {
    && (forall p :: p in x.verdicts ==> p in ids)
    && (x.ask.Some? ==>
          && x.offer.None?
          && x.ask.value.offer.proposalId in ids
          && ids[x.ask.value.offer.proposalId] == x.ask.value.offer.proposer
          && (OwnAsk(x) <==> x.ask.value.status.Emitting? || x.ask.value.status.AwaitingPeer?))
    && (OwnAsk(x) ==> x.ask.value.offer.newMax > x.max && Undecided(x, x.ask.value.offer.proposalId))
    && (x.offer.Some? ==>
          && x.offer.value.newMax > x.max
          && x.offer.value.proposalId in ids
          && ids[x.offer.value.proposalId] == x.offer.value.proposer
          && Undecided(x, x.offer.value.proposalId))
  }

  /** The proposal `p` is still unknown to `x`: nothing about it was ever sent to it. */
  ghost predicate Unseen(x: Side, yx: seq<BMsg>, p: string) {
    Undecided(x, p) && !Proposed(yx, p) && !OfferIs(x, p)
  }

  /**
   * A proposal of the recipient that lost the crossing race and is still under way to the initiator,
   * which is bound to meet it with its own extension outstanding.
   */
  ghost predicate Stale(x: Side, y: Side, yx: seq<BMsg>, i: nat)
    requires i < |yx|
  {
    && x.role == Initiator
    && Rejected(y, yx[i].p)
    && OwnAsk(x) && x.ask.value.status == AwaitingPeer
    && forall j {:trigger yx[j]} :: 0 <= j < |yx| && Answers(yx[j], x.ask.value.offer.proposalId) ==> i < j
  }

  /** `y` proposes, `x` responds: what `y` holds of its own proposal. */
  ghost predicate ProposerOk(x: Side, y: Side, xy: seq<BMsg>, yx: seq<BMsg>) {
    && (y.offer.Some? && !PeerOffer(y) ==> Unseen(x, yx, y.offer.value.proposalId))
    && (OwnAsk(y) ==>
          var o := y.ask.value.offer;
          if y.ask.value.status == Emitting then Unseen(x, yx, o.proposalId)
          else
            && (Undecided(x, o.proposalId) ==> Propose(o.proposalId, o.newMax) in yx || x.offer == Some(o))
            && (Approved(x, o.proposalId) ==>
                  && (Approve(o.proposalId, o.newMax) in xy || x.ask == Some(Ask(o, ApprovedEmitting)))
                  && x.max == o.newMax))
  }

  /** What `x` holds of a proposal of `y`. */
  ghost predicate ResponderOk(x: Side, y: Side, xy: seq<BMsg>) {
    && (PeerOffer(x) ==> Awaits(y, x.offer.value.proposalId, x.offer.value.newMax))
    && (x.ask.Some? && !OwnAsk(x) ==>
          var o := x.ask.value.offer;
          && Awaits(y, o.proposalId, o.newMax)
          && (forall i :: 0 <= i < |xy| ==> !Answers(xy[i], o.proposalId))
          && (x.ask.value.status == ApprovedEmitting ==> Approved(x, o.proposalId))
          && (x.ask.value.status == RejectedEmitting ==> Rejected(x, o.proposalId)))
  }

  /** What the proposals under way from `y` to `x` say. */
  ghost predicate ProposalsOk(x: Side, y: Side, yx: seq<BMsg>, ids: map<string, Role>) {
    && (forall i :: 0 <= i < |yx| && yx[i].Propose? ==>
          && yx[i].p in ids && ids[yx[i].p] == y.role
          && Undecided(x, yx[i].p) && !OfferIs(x, yx[i].p)
          && (Awaits(y, yx[i].p, yx[i].n) || Stale(x, y, yx, i)))
    && (forall i, j :: 0 <= i < j < |yx| && yx[i].Propose? && yx[j].Propose? ==> yx[i].p != yx[j].p)
  }

  /** What the answers under way from `x` to `y` say. */
  ghost predicate AnswersOk(x: Side, y: Side, xy: seq<BMsg>, ids: map<string, Role>) {
    && (forall i :: 0 <= i < |xy| && !xy[i].Propose? ==> xy[i].p in ids && ids[xy[i].p] == y.role)
    && (forall i :: 0 <= i < |xy| && xy[i].Approve? ==> Awaits(y, xy[i].p, xy[i].n) && Approved(x, xy[i].p))
    && (forall i :: 0 <= i < |xy| && xy[i].Reject? ==> Rejected(x, xy[i].p))
    && (forall i, j :: 0 <= i < j < |xy| && xy[i].Approve? ==> !xy[j].Approve?)
    && (x.role == Initiator ==>
          forall i, j :: 0 <= i < j < |xy| && xy[j].Approve? ==> !xy[i].Propose?)
  }

  ghost predicate Half(x: Side, y: Side, xy: seq<BMsg>, yx: seq<BMsg>, ids: map<string, Role>) {
    && ProposerOk(x, y, xy, yx)
    && ResponderOk(x, y, xy)
    && ProposalsOk(x, y, yx, ids)
    && AnswersOk(x, y, xy, ids)
  }

  /** `x` has already raised its budget by a proposal that `y` still waits on. */
  ghost predicate Leads(x: Side, y: Side) {
    OwnAsk(y) && y.ask.value.status == AwaitingPeer && Approved(x, y.ask.value.offer.proposalId)
  }

  ghost predicate Consistent(x: Side, y: Side) {
    && (forall p :: Approved(x, p) ==> !Rejected(y, p))
    && (forall p :: Approved(y, p) ==> !Rejected(x, p))
  }

  ghost predicate Both(x: Side, y: Side, xy: seq<BMsg>, yx: seq<BMsg>, ids: map<string, Role>) {
    && y.role == Other(x.role)
    && SideOk(x, ids) && SideOk(y, ids)
    && Half(x, y, xy, yx, ids) && Half(y, x, yx, xy, ids)
    && Consistent(x, y)
    && (x.max == y.max || Leads(x, y) || Leads(y, x))
  }
}

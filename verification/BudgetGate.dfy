/**
 * Both humans stand behind every raise of the turn budget: in the linked pair a proposal is approved
 * on either side only after the proposer's human let it go out and the other side's human approved it.
 */
module BudgetGate {
  import opened Options
  import opened SessionTypes
  import opened ThreadSteps
  import opened BudgetSteps
  import opened MachineSteps
  import opened ThreadInvariant
  import opened StepEffects
  import opened TwoParty
  import opened OpeningProofs
  import opened BudgetRefinement
  import opened BudgetAgreement
  import opened TwoPartyTheorems
  import P = BudgetProtocol

  /** The human approvals given so far: whose, and for which proposal. */
  type Seals = set<(Role, string)>

  predicate BothSealed(k: Seals, p: string) {
    (Initiator, p) in k && (Recipient, p) in k
  }

  /** One side of the protocol: what is under way was let go by its proposer, what is approved by both. */
  ghost predicate SideSealed(x: P.Side, k: Seals) {
    && (x.ask.Some? ==>
          && (x.ask.value.offer.proposer, x.ask.value.offer.proposalId) in k
          && (x.ask.value.status == ApprovedEmitting ==> BothSealed(k, x.ask.value.offer.proposalId)))
    && (P.PeerOffer(x) ==> (x.offer.value.proposer, x.offer.value.proposalId) in k)
    && (forall p :: P.Approved(x, p) ==> BothSealed(k, p))
  }

  ghost predicate MsgSealed(m: P.BMsg, from: Role, k: Seals) {
    match m
    case Propose(p, _) => (from, p) in k
    case Approve(p, _) => BothSealed(k, p)
    case Reject(_) => true
  }

  ghost predicate AllSealed(ch: seq<P.BMsg>, from: Role, k: Seals) {
    forall m :: m in ch ==> MsgSealed(m, from, k)
  }

  // ---- the protocol's steps ----

  lemma DraftSealed(x: P.Side, p: string, n: int, k: Seals)
    requires SideSealed(x, k) && P.CanDraft(x, n)
    ensures SideSealed(P.Draft(x, p, n), k)
  {
  }

  lemma EmitSealed(x: P.Side, ok: bool, k: Seals)
    requires SideSealed(x, k) && x.offer.Some? && !P.PeerOffer(x)
    ensures var k' := k + {(x.role, x.offer.value.proposalId)};
            SideSealed(P.EmitDraft(x, ok).side, k') && AllSealed(P.EmitDraft(x, ok).sent, x.role, k')
  {
    assert forall q :: P.Approved(P.EmitDraft(x, ok).side, q) ==> P.Approved(x, q);
  }

  lemma ApproveSealed(x: P.Side, ok: bool, k: Seals)
    requires SideSealed(x, k) && P.PeerOffer(x)
    ensures var k' := k + {(x.role, x.offer.value.proposalId)};
            SideSealed(P.ApproveOffer(x, ok).side, k') && AllSealed(P.ApproveOffer(x, ok).sent, x.role, k')
  {
    var p := x.offer.value.proposalId;
    var k' := k + {(x.role, p)};
    if x.role == Initiator {
      assert BothSealed(k', p);
    } else {
      assert BothSealed(k', p);
    }
    assert forall q :: P.Approved(P.ApproveOffer(x, ok).side, q) ==> P.Approved(x, q) || q == p;
  }

  lemma RejectSealed(x: P.Side, ok: bool, k: Seals)
    requires SideSealed(x, k) && P.PeerOffer(x)
    ensures SideSealed(P.RejectOffer(x, ok).side, k) && AllSealed(P.RejectOffer(x, ok).sent, x.role, k)
  {
  }

  lemma DropSealed(x: P.Side, k: Seals)
    requires SideSealed(x, k) && x.offer.Some? && !P.PeerOffer(x)
    ensures SideSealed(P.DropDraft(x), k)
  {
  }

  lemma RetrySealed(x: P.Side, k: Seals)
    requires SideSealed(x, k) && x.ask.Some? && x.ask.value.status != AwaitingPeer
    requires P.OwnAsk(x) <==> x.ask.value.status.Emitting? || x.ask.value.status.AwaitingPeer?
    ensures SideSealed(P.Retry(x).side, k) && AllSealed(P.Retry(x).sent, x.role, k)
  {
  }

  lemma OnProposeSealed(x: P.Side, p: string, n: int, ok: bool, k: Seals)
    requires SideSealed(x, k) && (Other(x.role), p) in k
    ensures SideSealed(P.OnPropose(x, p, n, ok).side, k) && AllSealed(P.OnPropose(x, p, n, ok).sent, x.role, k)
  {
  }

  lemma OnAnswerSealed(x: P.Side, p: string, n: int, k: Seals)
    requires SideSealed(x, k)
    ensures BothSealed(k, p) ==> SideSealed(P.OnApprove(x, p, n), k)
    ensures SideSealed(P.OnReject(x, p), k)
  {
  }

  // ---- one machine ----

  /** The same of a thread; an extension counts only while the session is live. */
  ghost predicate LocalSealed(l: Local, k: Seals) {
    l.session.Some? ==>
      && (IsLive(l) ==> SideSealed(View(l), k))
      && (P.PeerOffer(View(l)) ==> (FirstOffer(l).value.proposer, FirstOffer(l).value.proposalId) in k)
      && (forall p :: P.Approved(View(l), p) ==> BothSealed(k, p))
  }

  ghost predicate ChannelSealed(ch: seq<Msg>, from: Role, k: Seals) {
    AllSealed(BudgetMsgs(ch), from, k)
  }

  /** The approval an event gives, if it gives one. */
  function Seal(me: string, l: Local, e: Event, env: Env): Seals {
    if e.ApproveExtendBy? && Loud(me, l, e, env) && FirstOffer(l).Some? && l.session.Some? then
      {(l.session.value.role, FirstOffer(l).value.proposalId)}
    else {}
  }

  lemma SealedStays(l: Local, k: Seals, k': Seals)
    requires LocalSealed(l, k) && k <= k'
    ensures LocalSealed(l, k')
  {
  }

  lemma StillSealed(l: Local, o: Out, k: Seals)
    requires LocalSealed(l, k) && Still(l, o) && (l.session.None? ==> l == EMPTY_LOCAL)
    requires l.session.Some? && o.local.session.Some? ==> o.local.session.value.role == l.session.value.role
    ensures LocalSealed(o.local, k) && BudgetMsgs(o.sent) == []
  {
  }

  lemma LoudApproveSealed(me: string, l: Local, id: string, env: Env, k: Seals)
    requires Inv(me, l) && Loud(me, l, ApproveExtendBy(id, true), env) && LocalSealed(l, k)
    ensures var o := ApproveExtend(me, l, id, true, env);
            var k' := k + {(l.session.value.role, FirstOffer(l).value.proposalId)};
            LocalSealed(o.local, k') && AllSealed(BudgetMsgs(o.sent), l.session.value.role, k')
  {
    LoudApprove(me, l, id, env);
    if P.PeerOffer(View(l)) { ApproveSealed(View(l), env.sendOk, k); } else { EmitSealed(View(l), env.sendOk, k); }
  }

  lemma LoudRejectSealed(me: string, l: Local, id: string, why: Option<string>, env: Env, k: Seals)
    requires Inv(me, l) && Loud(me, l, RejectExtendBy(id, true, why), env) && LocalSealed(l, k)
    ensures var o := RejectExtend(me, l, id, true, why, env);
            LocalSealed(o.local, k) && AllSealed(BudgetMsgs(o.sent), l.session.value.role, k)
  {
    LoudReject(me, l, id, why, env);
    if P.PeerOffer(View(l)) { RejectSealed(View(l), env.sendOk, k); } else { DropSealed(View(l), k); }
  }

  lemma LoudExtendSealed(me: string, l: Local, n: int, p: string, env: Env, k: Seals)
    requires Inv(me, l) && Loud(me, l, Extend(n, p), env) && LocalSealed(l, k)
    ensures var o := ExtendBudget(me, l, n, p, env);
            LocalSealed(o.local, k) && AllSealed(BudgetMsgs(o.sent), l.session.value.role, k)
  {
    LoudExtend(me, l, n, p, env);
    DraftSealed(View(l), p, n, k);
  }

  lemma LoudRetrySealed(me: string, l: Local, env: Env, k: Seals)
    requires Inv(me, l) && Loud(me, l, Event.Retry, env) && LocalSealed(l, k)
    ensures var o := RetryExtend(l, env);
            LocalSealed(o.local, k) && AllSealed(BudgetMsgs(o.sent), l.session.value.role, k)
  {
    LoudRetry(me, l, env);
    RetrySealed(View(l), k);
  }

  lemma LoudActSealed(me: string, l: Local, thread: string, e: Event, env: Env, k: Seals)
    requires Inv(me, l) && Possible(me, l, e) && !e.Incoming? && Loud(me, l, e, env) && LocalSealed(l, k)
    ensures var o := Step(me, l, thread, e, env);
            var k' := k + Seal(me, l, e, env);
            LocalSealed(o.local, k') && AllSealed(BudgetMsgs(o.sent), l.session.value.role, k')
  {
    assert k + {} == k;
    match e {
      case Extend(n, p) => LoudExtendSealed(me, l, n, p, env, k);
      case ApproveExtendBy(id, _) => LoudApproveSealed(me, l, id, env, k);
      case RejectExtendBy(id, _, why) => LoudRejectSealed(me, l, id, why, env, k);
      case Retry => LoudRetrySealed(me, l, env, k);
    }
  }

  lemma LoudHearSealed(me: string, l: Local, thread: string, from: string, msg: Msg, env: Env, k: Seals)
    requires Inv(me, l) && from != me && Loud(me, l, Incoming(from, msg), env) && LocalSealed(l, k)
    requires AllSealed(BudgetPart(msg), Other(l.session.value.role), k)
    ensures var o := Receive(me, l, thread, from, msg, env);
            LocalSealed(o.local, k) && AllSealed(BudgetMsgs(o.sent), l.session.value.role, k)
  {
    var x := View(l);
    assert forall m :: m in BudgetPart(msg) ==> MsgSealed(m, Other(x.role), k);
    match msg {
      case BudgetPropose(p) =>
        LoudPropose(me, l, from, p, env);
        assert BudgetPart(msg)[0] in BudgetPart(msg);
        OnProposeSealed(x, p.proposalId, p.newMax, env.sendOk, k);
      case BudgetApproved(p) =>
        LoudApproved(me, l, from, p, env);
        assert BudgetPart(msg)[0] in BudgetPart(msg);
        OnAnswerSealed(x, p.proposalId, p.newMax, k);
      case BudgetReject(p) =>
        LoudRejected(me, l, from, p, env);
        OnAnswerSealed(x, p.proposalId, p.newMax, k);
    }
  }

  // ---- the linked pair ----

  ghost predicate PairSealed(s: Sys, k: Seals) {
    && LocalSealed(s.a, k) && LocalSealed(s.b, k)
    && ChannelSealed(s.ab, Initiator, k) && ChannelSealed(s.ba, Recipient, k)
  }

  function SealOf(w: World, s: Sys, mv: Move): Seals {
    match mv
    case Act(Initiator, e, env) => Seal(w.alice, s.a, e, env)
    case Act(Recipient, e, env) => Seal(w.bob, s.b, e, env)
    case Deliver(_, _) => {}
  }

  /** The human approvals of a whole run. */
  ghost function SealsOf(w: World, s: Sys, mvs: seq<Move>): Seals
    requires w.alice != w.bob && Legal(w, s, mvs)
    decreases |mvs|
  {
    if mvs == [] then {} else SealOf(w, s, mvs[0]) + SealsOf(w, Next(w, s, mvs[0]), mvs[1..])
  }

  lemma ChannelGrows(ch: seq<Msg>, sent: seq<Msg>, from: Role, k: Seals, k': Seals)
    requires ChannelSealed(ch, from, k) && k <= k' && AllSealed(BudgetMsgs(sent), from, k')
    ensures ChannelSealed(ch + sent, from, k')
  {
    BudgetMsgsAppend(ch, sent);
  }

  lemma ChannelHead(ch: seq<Msg>, from: Role, k: Seals)
    requires ch != [] && ChannelSealed(ch, from, k)
    ensures AllSealed(BudgetPart(ch[0]), from, k) && ChannelSealed(ch[1..], from, k)
  {
  }

  lemma ActSealed(w: World, me: string, l: Local, e: Event, env: Env, k: Seals)
    requires w.alice != w.bob && Inv(me, l) && OfPair(w, l) && Possible(me, l, e) && !e.Incoming?
    requires me == w.alice && e.Open? ==> e.to == w.bob
    requires me == w.alice || (me == w.bob && !e.Open?)
    requires LocalSealed(l, k)
    ensures var o := Step(me, l, w.thread, e, env);
            var k' := k + Seal(me, l, e, env);
            LocalSealed(o.local, k') && AllSealed(BudgetMsgs(o.sent), if me == w.alice then Initiator else Recipient, k')
  {
    TookStep(w, me, l, e, env);
    if Loud(me, l, e, env) {
      LoudActSealed(me, l, w.thread, e, env, k);
    } else {
      StillActSealed(w, me, l, e, env, k, Step(me, l, w.thread, e, env));
    }
  }

  lemma StillActSealed(w: World, me: string, l: Local, e: Event, env: Env, k: Seals, o: Out)
    requires w.alice != w.bob && Inv(me, l) && OfPair(w, l) && Took(w, me, l, e, o) && !Loud(me, l, e, env) && Still(l, o)
    requires LocalSealed(l, k)
    ensures LocalSealed(o.local, k + Seal(me, l, e, env)) && BudgetMsgs(o.sent) == []
  {
    StillSealed(l, o, k);
    assert k + {} == k;
  }

  lemma HearSealed(w: World, me: string, l: Local, from: string, msg: Msg, env: Env, k: Seals)
    requires w.alice != w.bob && Inv(me, l) && OfPair(w, l)
    requires (me == w.alice && from == w.bob && !msg.NegoOpen?) || (me == w.bob && from == w.alice)
    requires LocalSealed(l, k) && AllSealed(BudgetPart(msg), if me == w.alice then Recipient else Initiator, k)
    ensures var o := Receive(me, l, w.thread, from, msg, env);
            LocalSealed(o.local, k) && AllSealed(BudgetMsgs(o.sent), if me == w.alice then Initiator else Recipient, k)
  {
    TookStep(w, me, l, Incoming(from, msg), env);
    if Loud(me, l, Incoming(from, msg), env) {
      LoudHearSealed(me, l, w.thread, from, msg, env, k);
    } else {
      StillSealed(l, Receive(me, l, w.thread, from, msg, env), k);
    }
  }

  lemma AliceActsSealed(w: World, s: Sys, e: Event, env: Env, k: Seals, o: Out, used: set<string>)
    requires Opened(w, s) && Enabled(w, s, TwoParty.Act(Initiator, e, env)) && PairSealed(s, k)
    requires o == Step(w.alice, s.a, w.thread, e, env)
    ensures PairSealed(s.(a := o.local, ab := s.ab + o.sent, used := used), k + Seal(w.alice, s.a, e, env))
  {
    var k' := k + Seal(w.alice, s.a, e, env);
    ActSealed(w, w.alice, s.a, e, env, k);
    SealedStays(s.b, k, k');
    ChannelGrows(s.ab, o.sent, Initiator, k, k');
    ChannelGrows(s.ba, [], Recipient, k, k');
    assert s.ba + [] == s.ba;
  }

  lemma BobActsSealed(w: World, s: Sys, e: Event, env: Env, k: Seals, o: Out, used: set<string>, gate: bool)
    requires Opened(w, s) && Enabled(w, s, TwoParty.Act(Recipient, e, env)) && PairSealed(s, k)
    requires o == Step(w.bob, s.b, w.thread, e, env)
    ensures PairSealed(s.(b := o.local, ba := s.ba + o.sent, used := used, gate := gate), k + Seal(w.bob, s.b, e, env))
  {
    var k' := k + Seal(w.bob, s.b, e, env);
    ActSealed(w, w.bob, s.b, e, env, k);
    SealedStays(s.a, k, k');
    ChannelGrows(s.ba, o.sent, Recipient, k, k');
    ChannelGrows(s.ab, [], Initiator, k, k');
    assert s.ab + [] == s.ab;
  }

  lemma AliceHearsSealed(w: World, s: Sys, env: Env, k: Seals, o: Out)
    requires Opened(w, s) && s.ba != [] && PairSealed(s, k)
    requires o == Receive(w.alice, s.a, w.thread, w.bob, s.ba[0], env)
    ensures PairSealed(s.(a := o.local, ab := s.ab + o.sent, ba := s.ba[1..]), k)
  {
    ChannelHead(s.ba, Recipient, k);
    HearSealed(w, w.alice, s.a, w.bob, s.ba[0], env, k);
    ChannelGrows(s.ab, o.sent, Initiator, k, k);
  }

  lemma BobHearsSealed(w: World, s: Sys, env: Env, k: Seals, o: Out)
    requires Opened(w, s) && s.ab != [] && PairSealed(s, k)
    requires o == Receive(w.bob, s.b, w.thread, w.alice, s.ab[0], env)
    ensures PairSealed(s.(b := o.local, ba := s.ba + o.sent, ab := s.ab[1..]), k)
  {
    ChannelHead(s.ab, Initiator, k);
    HearSealed(w, w.bob, s.b, w.alice, s.ab[0], env, k);
    ChannelGrows(s.ba, o.sent, Recipient, k, k);
  }

  lemma PairStep(w: World, s: Sys, mv: Move, k: Seals)
    requires Opened(w, s) && Enabled(w, s, mv) && PairSealed(s, k)
    ensures PairSealed(Next(w, s, mv), k + SealOf(w, s, mv))
  {
    hide Receive, HandleOpen, ApproveOpen, RejectOpen, ExpireSession, ResolveOpen, TakeTurn, FileChallenge,
         FileReport, SayNothing, Sign, RatifyBy, ResolveRatify, ReadStatus, BondRevoke, ThreadClose, ExtendBudget,
         ApproveExtend, RejectExtend, RetryExtend;
    match mv {
      case Act(Initiator, e, env) => AliceActsSealed(w, s, e, env, k, AliceDoes(w, s, e, env), Used(s, e));
      case Act(Recipient, e, env) =>
        var o := BobDoes(w, s, e, env);
        BobActsSealed(w, s, e, env, k, o, Used(s, e), s.gate || Approves(e, o.reply));
      case Deliver(Initiator, env) =>
        AliceHearsSealed(w, s, env, k, AliceDoes(w, s, Incoming(w.bob, s.ba[0]), env));
        assert k + {} == k;
      case Deliver(Recipient, env) =>
        BobHearsSealed(w, s, env, k, BobDoes(w, s, Incoming(w.alice, s.ab[0]), env));
        assert k + {} == k;
    }
  }

  lemma SealsAdd(k: Seals, a: Seals, b: Seals)
    ensures (k + a) + b == k + (a + b) && k + {} == k
  {
  }

  lemma {:induction false} PairRuns(w: World, s: Sys, mvs: seq<Move>, k: Seals)
    requires Opened(w, s) && Legal(w, s, mvs) && PairSealed(s, k)
    ensures PairSealed(Play(w, s, mvs), k + SealsOf(w, s, mvs))
    decreases |mvs|
  {
    if mvs == [] {
      SealsAdd(k, {}, {});
    } else {
      var t := Next(w, s, mvs[0]);
      PairStep(w, s, mvs[0], k);
      OpenedStep(w, s, mvs[0]);
      PairRuns(w, t, mvs[1..], k + SealOf(w, s, mvs[0]));
      SealsAdd(k, SealOf(w, s, mvs[0]), SealsOf(w, t, mvs[1..]));
    }
  }

  // ---- what the seals are ----

  /** This move is that human's approval of the proposal at the head of that side's queue. */
  predicate Gives(s: Sys, mv: Move, r: Role, p: string) {
    && mv.Act? && mv.who == r && mv.event.ApproveExtendBy? && mv.event.viaHuman
    && var l := if r == Initiator then s.a else s.b;
       FirstOffer(l).Some? && FirstOffer(l).value.proposalId == p && l.budgets[0].id == mv.event.id
  }

  /** Some move of the run is that human's approval of that proposal. */
  ghost predicate HumanApproved(w: World, s: Sys, mvs: seq<Move>, r: Role, p: string)
    requires w.alice != w.bob && Legal(w, s, mvs)
    decreases |mvs|
  {
    mvs != [] && (Gives(s, mvs[0], r, p) || HumanApproved(w, Next(w, s, mvs[0]), mvs[1..], r, p))
  }

  lemma SealIsHuman(w: World, s: Sys, mv: Move, r: Role, p: string)
    requires Opened(w, s) && (r, p) in SealOf(w, s, mv)
    ensures Gives(s, mv, r, p)
  {
  }

  lemma {:induction false} SealsAreHuman(w: World, s: Sys, mvs: seq<Move>, r: Role, p: string)
    requires Opened(w, s) && Legal(w, s, mvs) && (r, p) in SealsOf(w, s, mvs)
    ensures HumanApproved(w, s, mvs, r, p)
    decreases |mvs|
  {
    if (r, p) in SealOf(w, s, mvs[0]) {
      SealIsHuman(w, s, mvs[0], r, p);
    } else {
      OpenedStep(w, s, mvs[0]);
      SealsAreHuman(w, Next(w, s, mvs[0]), mvs[1..], r, p);
    }
  }

  /** An approved proposal was approved by both humans, on whichever side it is recorded. */
  lemma ApprovedMeansBothHumans(w: World, mvs: seq<Move>, p: string)
    requires w.alice != w.bob && Legal(w, START, mvs)
    ensures var s := Play(w, START, mvs);
            (s.a.session.Some? && Decided(p, true) in s.a.session.value.decided)
            || (s.b.session.Some? && Decided(p, true) in s.b.session.value.decided) ==>
              HumanApproved(w, START, mvs, Initiator, p) && HumanApproved(w, START, mvs, Recipient, p)
  {
    var d := StartRel(w);
    PairRuns(w, START, mvs, {});
    OpenedRuns(w, START, mvs);
    var s := Play(w, START, mvs);
    if s.a.session.Some? && Decided(p, true) in s.a.session.value.decided {
      VerdictsExact(s.a.session.value.decided, p, true);
      assert P.Approved(View(s.a), p);
      SealsAreHuman(w, START, mvs, Initiator, p);
      SealsAreHuman(w, START, mvs, Recipient, p);
    }
    if s.b.session.Some? && Decided(p, true) in s.b.session.value.decided {
      VerdictsExact(s.b.session.value.decided, p, true);
      assert P.Approved(View(s.b), p);
      SealsAreHuman(w, START, mvs, Initiator, p);
      SealsAreHuman(w, START, mvs, Recipient, p);
    }
  }

  // ---- every raise is such an approval ----

  /** `m` has a larger budget than `l`. */
  ghost predicate Rises(l: Local, m: Local) {
    l.session.Some? && m.session.Some? && m.session.value.terms.budget.maxTurns > l.session.value.terms.budget.maxTurns
  }

  /** Some proposal undecided before is approved now. */
  ghost predicate ApprovesOne(x: P.Side, y: P.Side) {
    exists p :: P.Undecided(x, p) && P.Approved(y, p)
  }

  lemma OfferRises(x: P.Side, ids: map<string, Role>, ok: bool)
    requires P.SideOk(x, ids) && P.PeerOffer(x)
    ensures ApprovesOne(x, P.ApproveOffer(x, ok).side)
  {
  }

  lemma AnswerRises(x: P.Side, ids: map<string, Role>, p: string, n: int)
    requires P.SideOk(x, ids) && P.OnApprove(x, p, n).max != x.max
    ensures ApprovesOne(x, P.OnApprove(x, p, n))
  {
  }

  lemma LoudActRises(me: string, l: Local, thread: string, e: Event, env: Env, ids: map<string, Role>)
    requires Inv(me, l) && Possible(me, l, e) && !e.Incoming? && Loud(me, l, e, env) && P.SideOk(View(l), ids)
    ensures var m := Step(me, l, thread, e, env).local;
            Rises(l, m) ==> ApprovesOne(View(l), View(m))
  {
    var x := View(l);
    match e {
      case Extend(n, p) => LoudExtend(me, l, n, p, env);
      case ApproveExtendBy(id, _) =>
        LoudApprove(me, l, id, env);
        if P.PeerOffer(x) { OfferRises(x, ids, env.sendOk); }
      case RejectExtendBy(id, _, why) => LoudReject(me, l, id, why, env);
      case Retry => LoudRetry(me, l, env);
    }
  }

  lemma HearVerdictRises(me: string, l: Local, from: string, p: Payload, env: Env, ids: map<string, Role>)
    requires Inv(me, l) && from != me && Loud(me, l, Incoming(from, BudgetApproved(p)), env) && P.SideOk(View(l), ids)
    ensures var m := IncomingApproved(l, from, p).local; Rises(l, m) ==> ApprovesOne(View(l), View(m))
  {
    hide P.SideOk;
    LoudApproved(me, l, from, p, env);
    if P.OnApprove(View(l), p.proposalId, p.newMax).max != View(l).max {
      AnswerRises(View(l), ids, p.proposalId, p.newMax);
    }
  }

  lemma HearOtherRises(me: string, l: Local, thread: string, from: string, msg: Msg, env: Env)
    requires Inv(me, l) && from != me && Loud(me, l, Incoming(from, msg), env) && !msg.BudgetApproved?
    ensures !Rises(l, Receive(me, l, thread, from, msg, env).local)
  {
    match msg {
      case BudgetPropose(p) => LoudPropose(me, l, from, p, env);
      case BudgetReject(p) => LoudRejected(me, l, from, p, env);
    }
  }

  lemma LoudHearRises(me: string, l: Local, thread: string, from: string, msg: Msg, env: Env, ids: map<string, Role>)
    requires Inv(me, l) && from != me && Loud(me, l, Incoming(from, msg), env) && P.SideOk(View(l), ids)
    ensures var m := Receive(me, l, thread, from, msg, env).local;
            Rises(l, m) ==> ApprovesOne(View(l), View(m))
  {
    hide P.SideOk, IncomingApproved;
    if msg.BudgetApproved? {
      HearVerdictRises(me, l, from, msg.payload, env, ids);
    } else {
      HearOtherRises(me, l, thread, from, msg, env);
    }
  }

  lemma MachineRises(w: World, me: string, l: Local, e: Event, env: Env, ids: map<string, Role>)
    requires w.alice != w.bob && Inv(me, l) && OfPair(w, l) && Possible(me, l, e)
    requires me == w.alice && e.Open? ==> e.to == w.bob
    requires me == w.alice || (me == w.bob && !e.Open?)
    requires e.Incoming? && e.msg.NegoOpen? ==> me == w.bob && e.from == w.alice
    requires IsLive(l) ==> P.SideOk(View(l), ids)
    ensures var m := Step(me, l, w.thread, e, env).local;
            Rises(l, m) ==> ApprovesOne(View(l), View(m))
  {
    TookStep(w, me, l, e, env);
    if Loud(me, l, e, env) {
      if e.Incoming? {
        LoudHearRises(me, l, w.thread, e.from, e.msg, env, ids);
      } else {
        LoudActRises(me, l, w.thread, e, env, ids);
      }
    }
  }

  lemma SideRises(w: World, s: Sys, d: P.Duo, mv: Move)
    requires Rel(w, s, d) && Enabled(w, s, mv)
    ensures Rises(s.a, Next(w, s, mv).a) ==> ApprovesOne(View(s.a), View(Next(w, s, mv).a))
    ensures Rises(s.b, Next(w, s, mv).b) ==> ApprovesOne(View(s.b), View(Next(w, s, mv).b))
  {
    match mv {
      case Act(Initiator, e, env) => MachineRises(w, w.alice, s.a, e, env, d.ids);
      case Act(Recipient, e, env) => MachineRises(w, w.bob, s.b, e, env, d.ids);
      case Deliver(Initiator, env) => MachineRises(w, w.alice, s.a, Incoming(w.bob, s.ba[0]), env, d.ids);
      case Deliver(Recipient, env) => MachineRises(w, w.bob, s.b, Incoming(w.alice, s.ab[0]), env, d.ids);
    }
  }

  lemma {:induction false} OneMore(w: World, s: Sys, mvs: seq<Move>, mv: Move)
    requires w.alice != w.bob && Legal(w, s, mvs) && Enabled(w, Play(w, s, mvs), mv)
    ensures Legal(w, s, mvs + [mv]) && Play(w, s, mvs + [mv]) == Next(w, Play(w, s, mvs), mv)
    decreases |mvs|
  {
    if mvs == [] {
      assert mvs + [mv] == [mv] && [mv][1..] == [];
    } else {
      OneMore(w, Next(w, s, mvs[0]), mvs[1..], mv);
      assert (mvs + [mv])[1..] == mvs[1..] + [mv];
    }
  }

  /** The raise of `l` to `m` records a new approved proposal behind which both humans stand. */
  ghost predicate GatedRaise(w: World, mvs: seq<Move>, l: Local, m: Local)
    requires w.alice != w.bob && Legal(w, START, mvs) && l.session.Some? && m.session.Some?
  {
    exists p ::
      && Decided(p, true) in m.session.value.decided && !Knows(l.session.value.decided, p)
      && HumanApproved(w, START, mvs, Initiator, p) && HumanApproved(w, START, mvs, Recipient, p)
  }

  lemma RaiseIsGated(w: World, mvs: seq<Move>, l: Local, m: Local)
    requires w.alice != w.bob && Legal(w, START, mvs) && Rises(l, m) && ApprovesOne(View(l), View(m))
    requires m == Play(w, START, mvs).a || m == Play(w, START, mvs).b
    requires DecidedOnce(m.session.value.decided)
    ensures GatedRaise(w, mvs, l, m)
  {
    var p :| P.Undecided(View(l), p) && P.Approved(View(m), p);
    VerdictsKnow(l.session.value.decided, p);
    VerdictsExact(m.session.value.decided, p, true);
    ApprovedMeansBothHumans(w, mvs, p);
  }

  /**
   * Whenever a side's turn budget rises, it is by a proposal new to it that the proposer's human let go
   * and the other side's human approved, both earlier in the run or by this very move.
   */
  lemma NoRaiseWithoutBothHumans(w: World, mvs: seq<Move>, mv: Move)
    requires w.alice != w.bob && Legal(w, START, mvs) && Enabled(w, Play(w, START, mvs), mv)
    ensures Legal(w, START, mvs + [mv])
    ensures var s := Play(w, START, mvs);
            var t := Next(w, s, mv);
            && (Rises(s.a, t.a) ==> GatedRaise(w, mvs + [mv], s.a, t.a))
            && (Rises(s.b, t.b) ==> GatedRaise(w, mvs + [mv], s.b, t.b))
  {
    var s := Play(w, START, mvs);
    var t := Next(w, s, mv);
    var d := Reach(w, mvs);
    OneMore(w, START, mvs, mv);
    OpenedStep(w, s, mv);
    SideRises(w, s, d, mv);
    if Rises(s.a, t.a) { RaiseIsGated(w, mvs + [mv], s.a, t.a); }
    if Rises(s.b, t.b) { RaiseIsGated(w, mvs + [mv], s.b, t.b); }
  }
}

/**
 * The two linked machines simulate the budget protocol. A side that left the live state, or never
 * reached it, is shown as one that takes no further step: its last decisions and budget stand.
 */
module BudgetAgreement {
  import opened Options
  import opened SessionTypes
  import opened ThreadSteps
  import opened BudgetSteps
  import opened MachineSteps
  import opened ThreadInvariant
  import opened StepEffects
  import opened TwoParty
  import opened OpeningProofs
  import opened BudgetRefinement
  import P = BudgetProtocol
  import Q = BudgetProofs

  /** Alice takes part once live, and already while the approval that wakes her is the next envelope. */
  ghost predicate ActiveA(s: Sys) {
    IsLive(s.a) || (s.a.session.Some? && s.a.session.value.status == Pending && s.ba != [] && s.ba[0].OpenApproved?)
  }

  ghost predicate Shadows(x: P.Side, l: Local, active: bool) {
    l.session.Some? ==>
      && x.max == l.session.value.terms.budget.maxTurns
      && x.verdicts == Verdicts(l.session.value.decided)
      && (FirstOffer(l).None? || FirstOffer(l) == x.offer)
      && (active ==> x == View(l))
  }

  function IdleSide(r: Role, max: int): P.Side {
    P.Side(r, max, None, None, map[])
  }

  function IdleDuo(max: int): P.Duo {
    P.Duo(IdleSide(Initiator, max), IdleSide(Recipient, max), [], [], map[])
  }

  ghost predicate Rel(w: World, s: Sys, d: P.Duo) {
    && Opened(w, s)
    && d.a.role == Initiator && P.Both(d.a, d.b, d.ab, d.ba, d.ids)
    && (forall p :: p in d.ids ==> p in s.used)
    && Shadows(d.a, s.a, ActiveA(s)) && Shadows(d.b, s.b, IsLive(s.b))
    && (ActiveA(s) ==> d.ba == BudgetMsgs(s.ba))
    && (IsLive(s.b) ==> d.ab == BudgetMsgs(s.ab))
    && (Unopened(s.b) ==> d.a == IdleSide(Initiator, d.a.max) && d.b == IdleSide(Recipient, d.a.max) && d.ab == [] && d.ba == [])
  }

  lemma SilentChannel(ch: seq<Msg>)
    requires forall x :: x in ch ==> BeforeOpening(x)
    ensures BudgetMsgs(ch) == []
  {
    if ch != [] {
      assert BeforeOpening(ch[0]);
      SilentChannel(ch[1..]);
    }
  }

  lemma BothIdle(max: int, ids: map<string, Role>)
    ensures P.Both(IdleSide(Initiator, max), IdleSide(Recipient, max), [], [], ids)
  {
  }

  // ---- events that leave the protocol where it is ----

  lemma AliceOpens(w: World, s: Sys, d: P.Duo, e: Event, o: Out, used: set<string>) returns (d': P.Duo)
    requires Rel(w, s, d) && Took(w, w.alice, s.a, e, o) && Still(s.a, o) && !e.Incoming? && s.used <= used
    requires s.a.session.None? && o.local.session.Some?
    ensures Rel(w, s.(a := o.local, ab := s.ab + o.sent, used := used), d')
  {
    AliceActs(w, s, e, o, used);
    d' := IdleDuo(o.local.session.value.terms.budget.maxTurns);
    BothIdle(o.local.session.value.terms.budget.maxTurns, map[]);
  }

  lemma AliceStill(w: World, s: Sys, d: P.Duo, e: Event, o: Out, used: set<string>) returns (d': P.Duo)
    requires Rel(w, s, d) && Took(w, w.alice, s.a, e, o) && Still(s.a, o) && !e.Incoming? && s.used <= used
    requires e.Open? ==> s.a.session.None?
    ensures Rel(w, s.(a := o.local, ab := s.ab + o.sent, used := used), d')
  {
    if s.a.session.None? && o.local.session.Some? {
      d' := AliceOpens(w, s, d, e, o, used);
    } else {
      AliceActs(w, s, e, o, used);
      AliceStaysQuiet(w, s, d, e, o, used);
      d' := d;
    }
  }

  lemma AliceStaysQuiet(w: World, s: Sys, d: P.Duo, e: Event, o: Out, used: set<string>)
    requires Rel(w, s, d) && Took(w, w.alice, s.a, e, o) && !e.Incoming?
    requires Still(s.a, o) && s.used <= used && (s.a.session.Some? || o.local.session.None?)
    requires Opened(w, s.(a := o.local, ab := s.ab + o.sent, used := used))
    ensures Rel(w, s.(a := o.local, ab := s.ab + o.sent, used := used), d)
  {
    hide P.Both;
    BudgetMsgsAppend(s.ab, o.sent);
  }

  lemma PendingIdle(me: string, l: Local)
    requires Inv(me, l) && l.session.Some? && l.session.value.status == Pending
    ensures View(l) == IdleSide(l.session.value.role, l.session.value.terms.budget.maxTurns)
  {
  }

  /** Bob's record once his human opened it is still idle. */
  lemma BobOpensIdle(me: string, l: Local, x: P.Side, o: Out)
    requires Inv(me, l) && Still(l, o) && Unopened(l) && Shadows(x, l, false) && Inv(me, o.local)
    requires l.session.Some? ==> l.session.value.role == Recipient
    requires o.local.session.Some? ==> l.session.Some? && o.local.session.value.role == Recipient
    requires x == IdleSide(Recipient, x.max)
    ensures Shadows(x, o.local, IsLive(o.local))
  {
  }

  lemma RelFromIdle(w: World, s: Sys, d: P.Duo)
    requires Opened(w, s) && d.a == IdleSide(Initiator, d.a.max) && d.b == IdleSide(Recipient, d.a.max)
    requires d.ab == [] && d.ba == [] && (forall p :: p in d.ids ==> p in s.used)
    requires BudgetMsgs(s.ab) == [] && BudgetMsgs(s.ba) == [] && !IsLive(s.a)
    requires Shadows(d.a, s.a, false) && Shadows(d.b, s.b, IsLive(s.b))
    ensures Rel(w, s, d)
  {
    BothIdle(d.a.max, d.ids);
    if s.a.session.Some? && s.a.session.value.status == Pending {
      PendingIdle(w.alice, s.a);
    }
  }

  lemma BobOpensQuietly(w: World, s: Sys, e: Event, o: Out)
    requires Opened(w, s) && Unopened(s.b) && Took(w, w.bob, s.b, e, o) && Still(s.b, o) && !e.Incoming? && !e.Open?
    ensures s.ba == [] && !IsLive(s.a) && BudgetMsgs(s.ab) == [] && BudgetMsgs(s.ba + o.sent) == []
  {
    SilentChannel(s.ab);
    assert s.ba + o.sent == o.sent;
  }

  /** While bob has not decided, everything is idle, also after his human opened the session. */
  lemma BobOpens(w: World, s: Sys, d: P.Duo, e: Event, o: Out, used: set<string>)
    requires Rel(w, s, d) && Took(w, w.bob, s.b, e, o) && Still(s.b, o) && !e.Incoming? && !e.Open? && s.used <= used
    requires Unopened(s.b)
    ensures Rel(w, s.(b := o.local, ba := s.ba + o.sent, used := used, gate := s.gate || Approves(e, o.reply)), d)
  {
    hide P.Both;
    BobActs(w, s, e, o, used);
    BobOpensQuietly(w, s, e, o);
    BobOpensIdle(w.bob, s.b, d.b, o);
    RelFromIdle(w, s.(b := o.local, ba := s.ba + o.sent, used := used, gate := s.gate || Approves(e, o.reply)), d);
  }

  lemma BobStill(w: World, s: Sys, d: P.Duo, e: Event, o: Out, used: set<string>)
    requires Rel(w, s, d) && Took(w, w.bob, s.b, e, o) && Still(s.b, o) && !e.Incoming? && !e.Open? && s.used <= used
    ensures Rel(w, s.(b := o.local, ba := s.ba + o.sent, used := used, gate := s.gate || Approves(e, o.reply)), d)
  {
    if Unopened(s.b) {
      BobOpens(w, s, d, e, o, used);
    } else {
      BobActs(w, s, e, o, used);
      BobStaysQuiet(w, s, d, e, o, used, s.gate || Approves(e, o.reply));
    }
  }

  lemma BobStaysQuiet(w: World, s: Sys, d: P.Duo, e: Event, o: Out, used: set<string>, gate: bool)
    requires Rel(w, s, d) && Took(w, w.bob, s.b, e, o) && !e.Incoming? && !e.Open?
    requires Still(s.b, o) && s.used <= used && !Unopened(s.b)
    requires Opened(w, s.(b := o.local, ba := s.ba + o.sent, used := used, gate := gate))
    ensures Rel(w, s.(b := o.local, ba := s.ba + o.sent, used := used, gate := gate), d)
  {
    hide P.Both;
    BudgetMsgsAppend(s.ba, o.sent);
  }

  lemma AliceStaysInStep(w: World, s: Sys, d: P.Duo, o: Out)
    requires Rel(w, s, d) && s.ba != [] && Took(w, w.alice, s.a, Incoming(w.bob, s.ba[0]), o) && Still(s.a, o)
    requires IsLive(s.a) && IsLive(o.local) ==> BudgetPart(s.ba[0]) == []
    ensures var s' := s.(a := o.local, ab := s.ab + o.sent, ba := s.ba[1..]);
            Shadows(d.a, s'.a, ActiveA(s')) && (ActiveA(s') ==> d.ba == BudgetMsgs(s'.ba))
  {
  }

  lemma AliceHearsStill(w: World, s: Sys, d: P.Duo, o: Out)
    requires Rel(w, s, d) && s.ba != [] && Took(w, w.alice, s.a, Incoming(w.bob, s.ba[0]), o) && Still(s.a, o)
    requires IsLive(s.a) && IsLive(o.local) ==> BudgetPart(s.ba[0]) == []
    ensures Rel(w, s.(a := o.local, ab := s.ab + o.sent, ba := s.ba[1..]), d)
  {
    hide P.Both;
    AliceHears(w, s, o);
    AliceStaysInStep(w, s, d, o);
    BudgetMsgsAppend(s.ab, o.sent);
  }

  lemma BobStaysInStep(w: World, s: Sys, d: P.Duo, o: Out)
    requires Rel(w, s, d) && s.ab != [] && Took(w, w.bob, s.b, Incoming(w.alice, s.ab[0]), o) && Still(s.b, o)
    requires IsLive(s.b) && IsLive(o.local) ==> BudgetPart(s.ab[0]) == []
    requires s.ab[0].NegoOpen? && s.b.session.None? && o.local.session.Some? ==>
               o.local.session.value.terms == s.ab[0].terms
    ensures Shadows(d.b, o.local, IsLive(o.local)) && (IsLive(o.local) ==> d.ab == BudgetMsgs(s.ab[1..]))
  {
  }

  lemma BobHearsStill(w: World, s: Sys, d: P.Duo, o: Out)
    requires Rel(w, s, d) && s.ab != [] && Took(w, w.bob, s.b, Incoming(w.alice, s.ab[0]), o) && Still(s.b, o)
    requires IsLive(s.b) && IsLive(o.local) ==> BudgetPart(s.ab[0]) == []
    requires s.ab[0].NegoOpen? && s.b.session.None? && o.local.session.Some? ==>
               o.local.session.value.terms == s.ab[0].terms
    ensures Rel(w, s.(b := o.local, ba := s.ba + o.sent, ab := s.ab[1..]), d)
  {
    hide P.Both;
    BobHears(w, s, o);
    BobStaysInStep(w, s, d, o);
    BudgetMsgsAppend(s.ba, o.sent);
  }

  // ---- events that move the protocol ----

  lemma BothSwap(x: P.Side, y: P.Side, xy: seq<P.BMsg>, yx: seq<P.BMsg>, ids: map<string, Role>)
    requires P.Both(x, y, xy, yx, ids)
    ensures P.Both(y, x, yx, xy, ids)
  {
  }

  lemma LoudApproveBoth(me: string, l: Local, id: string, env: Env,
                        y: P.Side, xy: seq<P.BMsg>, yx: seq<P.BMsg>, ids: map<string, Role>)
    requires Inv(me, l) && Loud(me, l, ApproveExtendBy(id, true), env) && P.Both(View(l), y, xy, yx, ids)
    ensures var o := ApproveExtend(me, l, id, true, env);
            IsLive(o.local) && P.Both(View(o.local), y, xy + BudgetMsgs(o.sent), yx, ids)
  {
    hide P.Both;
    LoudApprove(me, l, id, env);
    if P.PeerOffer(View(l)) {
      Q.BothApprove(View(l), y, xy, yx, ids, env.sendOk);
    } else {
      Q.BothEmit(View(l), y, xy, yx, ids, env.sendOk);
    }
  }

  lemma LoudRejectBoth(me: string, l: Local, id: string, why: Option<string>, env: Env,
                       y: P.Side, xy: seq<P.BMsg>, yx: seq<P.BMsg>, ids: map<string, Role>)
    requires Inv(me, l) && Loud(me, l, RejectExtendBy(id, true, why), env) && P.Both(View(l), y, xy, yx, ids)
    ensures var o := RejectExtend(me, l, id, true, why, env);
            IsLive(o.local) && P.Both(View(o.local), y, xy + BudgetMsgs(o.sent), yx, ids)
  {
    hide P.Both;
    LoudReject(me, l, id, why, env);
    if P.PeerOffer(View(l)) {
      Q.BothReject(View(l), y, xy, yx, ids, env.sendOk);
    } else {
      Q.BothDrop(View(l), y, xy, yx, ids);
      assert xy + [] == xy;
    }
  }

  lemma LoudRetryBoth(me: string, l: Local, env: Env, y: P.Side, xy: seq<P.BMsg>, yx: seq<P.BMsg>, ids: map<string, Role>)
    requires Inv(me, l) && Loud(me, l, Event.Retry, env) && P.Both(View(l), y, xy, yx, ids)
    ensures var o := RetryExtend(l, env); IsLive(o.local) && P.Both(View(o.local), y, xy + BudgetMsgs(o.sent), yx, ids)
  {
    hide P.Both;
    LoudRetry(me, l, env);
    Q.BothRetry(View(l), y, xy, yx, ids);
  }

  lemma LoudExtendBoth(me: string, l: Local, n: int, p: string, env: Env,
                       y: P.Side, xy: seq<P.BMsg>, yx: seq<P.BMsg>, ids: map<string, Role>)
    requires Inv(me, l) && Loud(me, l, Extend(n, p), env) && P.Both(View(l), y, xy, yx, ids) && p !in ids
    ensures var o := ExtendBudget(me, l, n, p, env);
            IsLive(o.local) && P.Both(View(o.local), y, xy + BudgetMsgs(o.sent), yx, ids[p := View(l).role])
  {
    hide P.Both;
    LoudExtend(me, l, n, p, env);
    Q.BothDraft(View(l), y, xy, yx, ids, p, n);
    assert xy + [] == xy;
  }

  lemma LoudAct(me: string, l: Local, thread: string, e: Event, env: Env,
                y: P.Side, xy: seq<P.BMsg>, yx: seq<P.BMsg>, ids: map<string, Role>) returns (ids': map<string, Role>)
    requires Inv(me, l) && Possible(me, l, e) && !e.Incoming? && Loud(me, l, e, env)
    requires P.Both(View(l), y, xy, yx, ids) && (e.Extend? ==> e.proposalId !in ids)
    ensures var o := Step(me, l, thread, e, env);
            IsLive(o.local) && P.Both(View(o.local), y, xy + BudgetMsgs(o.sent), yx, ids')
    ensures forall p :: p in ids' ==> p in ids || (e.Extend? && p == e.proposalId)
  {
    hide P.Both;
    ids' := ids;
    match e {
      case Extend(n, p) =>
        LoudExtendBoth(me, l, n, p, env, y, xy, yx, ids);
        ids' := ids[p := View(l).role];
      case ApproveExtendBy(id, _) => LoudApproveBoth(me, l, id, env, y, xy, yx, ids);
      case RejectExtendBy(id, _, why) => LoudRejectBoth(me, l, id, why, env, y, xy, yx, ids);
      case Retry => LoudRetryBoth(me, l, env, y, xy, yx, ids);
    }
  }

  lemma LoudHear(me: string, l: Local, thread: string, from: string, msg: Msg, env: Env,
                 y: P.Side, xy: seq<P.BMsg>, rest: seq<P.BMsg>, ids: map<string, Role>)
    requires Inv(me, l) && from != me && Loud(me, l, Incoming(from, msg), env)
    requires P.Both(View(l), y, xy, BudgetPart(msg) + rest, ids)
    ensures var o := Receive(me, l, thread, from, msg, env);
            IsLive(o.local) && P.Both(View(o.local), y, xy + BudgetMsgs(o.sent), rest, ids)
  {
    hide P.Both;
    var yx := BudgetPart(msg) + rest;
    assert yx[1..] == rest && xy + [] == xy;
    match msg {
      case BudgetPropose(p) =>
        LoudPropose(me, l, from, p, env);
        Q.BothOnPropose(View(l), y, xy, yx, ids, env.sendOk);
      case BudgetApproved(p) =>
        LoudApproved(me, l, from, p, env);
        Q.BothOnApprove(View(l), y, xy, yx, ids);
      case BudgetReject(p) =>
        LoudRejected(me, l, from, p, env);
        Q.BothOnReject(View(l), y, xy, yx, ids);
    }
  }

  lemma AliceLoud(w: World, s: Sys, d: P.Duo, e: Event, o: Out, used: set<string>, ids: map<string, Role>) returns (d': P.Duo)
    requires Rel(w, s, d) && Took(w, w.alice, s.a, e, o) && !e.Incoming? && (e.Open? ==> s.a.session.None?)
    requires IsLive(s.a) && IsLive(o.local) && s.used <= used && (forall p :: p in ids ==> p in used)
    requires P.Both(View(o.local), d.b, d.ab + BudgetMsgs(o.sent), d.ba, ids)
    ensures Rel(w, s.(a := o.local, ab := s.ab + o.sent, used := used), d')
  {
    hide P.Both;
    AliceActs(w, s, e, o, used);
    BudgetMsgsAppend(s.ab, o.sent);
    d' := P.Duo(View(o.local), d.b, d.ab + BudgetMsgs(o.sent), d.ba, ids);
  }

  lemma BobLoud(w: World, s: Sys, d: P.Duo, e: Event, o: Out, used: set<string>, ids: map<string, Role>) returns (d': P.Duo)
    requires Rel(w, s, d) && Took(w, w.bob, s.b, e, o) && !e.Incoming? && !e.Open?
    requires IsLive(s.b) && IsLive(o.local) && s.used <= used && (forall p :: p in ids ==> p in used)
    requires P.Both(d.a, View(o.local), d.ab, d.ba + BudgetMsgs(o.sent), ids)
    ensures Rel(w, s.(b := o.local, ba := s.ba + o.sent, used := used, gate := s.gate || Approves(e, o.reply)), d')
  {
    hide P.Both;
    BobActs(w, s, e, o, used);
    BudgetMsgsAppend(s.ba, o.sent);
    d' := P.Duo(d.a, View(o.local), d.ab, d.ba + BudgetMsgs(o.sent), ids);
  }

  lemma AliceHearsLoud(w: World, s: Sys, d: P.Duo, o: Out) returns (d': P.Duo)
    requires Rel(w, s, d) && s.ba != [] && Took(w, w.alice, s.a, Incoming(w.bob, s.ba[0]), o)
    requires IsLive(s.a) && IsLive(o.local)
    requires P.Both(View(o.local), d.b, d.ab + BudgetMsgs(o.sent), BudgetMsgs(s.ba[1..]), d.ids)
    ensures Rel(w, s.(a := o.local, ab := s.ab + o.sent, ba := s.ba[1..]), d')
  {
    hide P.Both;
    AliceHears(w, s, o);
    BudgetMsgsAppend(s.ab, o.sent);
    d' := P.Duo(View(o.local), d.b, d.ab + BudgetMsgs(o.sent), BudgetMsgs(s.ba[1..]), d.ids);
  }

  lemma BobHearsLoud(w: World, s: Sys, d: P.Duo, o: Out) returns (d': P.Duo)
    requires Rel(w, s, d) && s.ab != [] && Took(w, w.bob, s.b, Incoming(w.alice, s.ab[0]), o)
    requires IsLive(s.b) && IsLive(o.local)
    requires P.Both(d.a, View(o.local), BudgetMsgs(s.ab[1..]), d.ba + BudgetMsgs(o.sent), d.ids)
    ensures Rel(w, s.(b := o.local, ba := s.ba + o.sent, ab := s.ab[1..]), d')
  {
    hide P.Both;
    BobHears(w, s, o);
    BudgetMsgsAppend(s.ba, o.sent);
    d' := P.Duo(d.a, View(o.local), BudgetMsgs(s.ab[1..]), d.ba + BudgetMsgs(o.sent), d.ids);
  }

  // ---- every move ----

  lemma AliceMovesLoud(w: World, s: Sys, d: P.Duo, e: Event, env: Env, o: Out) returns (d': P.Duo)
    requires Rel(w, s, d) && Enabled(w, s, TwoParty.Act(Initiator, e, env)) && o == Step(w.alice, s.a, w.thread, e, env)
    requires Took(w, w.alice, s.a, e, o) && Loud(w.alice, s.a, e, env)
    ensures Rel(w, s.(a := o.local, ab := s.ab + o.sent, used := Used(s, e)), d')
  {
    var ids := LoudAct(w.alice, s.a, w.thread, e, env, d.b, d.ab, d.ba, d.ids);
    d' := AliceLoud(w, s, d, e, o, Used(s, e), ids);
  }

  lemma AliceMoves(w: World, s: Sys, d: P.Duo, e: Event, env: Env) returns (d': P.Duo)
    requires Rel(w, s, d) && Enabled(w, s, TwoParty.Act(Initiator, e, env))
    ensures Rel(w, Next(w, s, TwoParty.Act(Initiator, e, env)), d')
  {
    hide Step;
    TookStep(w, w.alice, s.a, e, env);
    var o := AliceDoes(w, s, e, env);
    if Loud(w.alice, s.a, e, env) {
      d' := AliceMovesLoud(w, s, d, e, env, o);
    } else {
      d' := AliceStill(w, s, d, e, o, Used(s, e));
    }
  }

  lemma BobMovesLoud(w: World, s: Sys, d: P.Duo, e: Event, env: Env, o: Out) returns (d': P.Duo)
    requires Rel(w, s, d) && Enabled(w, s, TwoParty.Act(Recipient, e, env)) && o == Step(w.bob, s.b, w.thread, e, env)
    requires Took(w, w.bob, s.b, e, o) && Loud(w.bob, s.b, e, env)
    ensures Rel(w, s.(b := o.local, ba := s.ba + o.sent, used := Used(s, e), gate := s.gate || Approves(e, o.reply)), d')
  {
    BothSwap(d.a, d.b, d.ab, d.ba, d.ids);
    var ids := LoudAct(w.bob, s.b, w.thread, e, env, d.a, d.ba, d.ab, d.ids);
    BothSwap(View(o.local), d.a, d.ba + BudgetMsgs(o.sent), d.ab, ids);
    d' := BobLoud(w, s, d, e, o, Used(s, e), ids);
  }

  lemma BobMoves(w: World, s: Sys, d: P.Duo, e: Event, env: Env) returns (d': P.Duo)
    requires Rel(w, s, d) && Enabled(w, s, TwoParty.Act(Recipient, e, env))
    ensures Rel(w, Next(w, s, TwoParty.Act(Recipient, e, env)), d')
  {
    hide Step;
    TookStep(w, w.bob, s.b, e, env);
    var o := BobDoes(w, s, e, env);
    if Loud(w.bob, s.b, e, env) {
      d' := BobMovesLoud(w, s, d, e, env, o);
    } else {
      d' := d;
      BobStill(w, s, d, e, o, Used(s, e));
    }
  }

  /** An honest budget envelope that does not act finds the session closed or closes it by its deadline. */
  lemma QuietBudgetEnvelope(w: World, me: string, from: string, l: Local, msg: Msg, env: Env)
    requires OfPair(w, l) && OnThread(msg, w.thread) && from == (if me == w.alice then w.bob else w.alice)
    requires Budgetary(msg) && !Loud(me, l, Incoming(from, msg), env)
    ensures !(IsLive(l) && IsLive(Receive(me, l, w.thread, from, msg, env).local))
  {
  }

  lemma AliceListens(w: World, s: Sys, d: P.Duo, env: Env, o: Out) returns (d': P.Duo)
    requires Rel(w, s, d) && s.ba != [] && o == Receive(w.alice, s.a, w.thread, w.bob, s.ba[0], env)
    requires Took(w, w.alice, s.a, Incoming(w.bob, s.ba[0]), o)
    requires !Loud(w.alice, s.a, Incoming(w.bob, s.ba[0]), env) ==> Still(s.a, o)
    ensures Rel(w, s.(a := o.local, ab := s.ab + o.sent, ba := s.ba[1..]), d')
  {
    var msg := s.ba[0];
    if Loud(w.alice, s.a, Incoming(w.bob, msg), env) {
      LoudHear(w.alice, s.a, w.thread, w.bob, msg, env, d.b, d.ab, BudgetMsgs(s.ba[1..]), d.ids);
      d' := AliceHearsLoud(w, s, d, o);
    } else {
      if Budgetary(msg) { QuietBudgetEnvelope(w, w.alice, w.bob, s.a, msg, env); }
      AliceHearsStill(w, s, d, o);
      d' := d;
    }
  }

  lemma BobListensLoud(w: World, s: Sys, d: P.Duo, env: Env, o: Out) returns (d': P.Duo)
    requires Rel(w, s, d) && s.ab != [] && o == Receive(w.bob, s.b, w.thread, w.alice, s.ab[0], env)
    requires Took(w, w.bob, s.b, Incoming(w.alice, s.ab[0]), o) && Loud(w.bob, s.b, Incoming(w.alice, s.ab[0]), env)
    ensures Rel(w, s.(b := o.local, ba := s.ba + o.sent, ab := s.ab[1..]), d')
  {
    var msg := s.ab[0];
    BothSwap(d.a, d.b, d.ab, d.ba, d.ids);
    LoudHear(w.bob, s.b, w.thread, w.alice, msg, env, d.a, d.ba, BudgetMsgs(s.ab[1..]), d.ids);
    BothSwap(View(o.local), d.a, d.ba + BudgetMsgs(o.sent), BudgetMsgs(s.ab[1..]), d.ids);
    d' := BobHearsLoud(w, s, d, o);
  }

  lemma BobListens(w: World, s: Sys, d: P.Duo, env: Env, o: Out) returns (d': P.Duo)
    requires Rel(w, s, d) && s.ab != [] && o == Receive(w.bob, s.b, w.thread, w.alice, s.ab[0], env)
    requires Took(w, w.bob, s.b, Incoming(w.alice, s.ab[0]), o)
    requires !Loud(w.bob, s.b, Incoming(w.alice, s.ab[0]), env) ==> Still(s.b, o)
    requires s.ab[0].NegoOpen? && s.b.session.None? && o.local.session.Some? ==>
               o.local.session.value.terms == s.ab[0].terms
    ensures Rel(w, s.(b := o.local, ba := s.ba + o.sent, ab := s.ab[1..]), d')
  {
    if Loud(w.bob, s.b, Incoming(w.alice, s.ab[0]), env) {
      d' := BobListensLoud(w, s, d, env, o);
    } else {
      if Budgetary(s.ab[0]) { QuietBudgetEnvelope(w, w.bob, w.alice, s.b, s.ab[0], env); }
      BobHearsStill(w, s, d, o);
      d' := d;
    }
  }

  lemma FirstTerms(w: World, l: Local, msg: Msg, env: Env)
    requires msg.NegoOpen? && l.session.None?
    ensures var m := Receive(w.bob, l, w.thread, w.alice, msg, env).local;
            m.session.Some? ==> m.session.value.terms == msg.terms
  {
  }

  lemma RelToAlice(w: World, s: Sys, d: P.Duo, env: Env) returns (d': P.Duo)
    requires Rel(w, s, d) && s.ba != []
    ensures Rel(w, Next(w, s, Deliver(Initiator, env)), d')
  {
    hide Receive;
    TookStep(w, w.alice, s.a, Incoming(w.bob, s.ba[0]), env);
    d' := AliceListens(w, s, d, env, AliceDoes(w, s, Incoming(w.bob, s.ba[0]), env));
  }

  lemma RelToBob(w: World, s: Sys, d: P.Duo, env: Env) returns (d': P.Duo)
    requires Rel(w, s, d) && s.ab != []
    ensures Rel(w, Next(w, s, Deliver(Recipient, env)), d')
  {
    hide Receive;
    TookStep(w, w.bob, s.b, Incoming(w.alice, s.ab[0]), env);
    if s.ab[0].NegoOpen? && s.b.session.None? { FirstTerms(w, s.b, s.ab[0], env); }
    d' := BobListens(w, s, d, env, BobDoes(w, s, Incoming(w.alice, s.ab[0]), env));
  }

  /** Every move of the two machines is a step of the budget protocol or leaves it where it is. */
  lemma RelStep(w: World, s: Sys, d: P.Duo, mv: Move) returns (d': P.Duo)
    requires Rel(w, s, d) && Enabled(w, s, mv)
    ensures Rel(w, Next(w, s, mv), d')
  {
    match mv {
      case Act(Initiator, e, env) => d' := AliceMoves(w, s, d, e, env);
      case Act(Recipient, e, env) => d' := BobMoves(w, s, d, e, env);
      case Deliver(Initiator, env) => d' := RelToAlice(w, s, d, env);
      case Deliver(Recipient, env) => d' := RelToBob(w, s, d, env);
    }
  }

  lemma {:induction false} RelRuns(w: World, s: Sys, d: P.Duo, mvs: seq<Move>) returns (d': P.Duo)
    requires Rel(w, s, d) && Legal(w, s, mvs)
    ensures Rel(w, Play(w, s, mvs), d')
    decreases |mvs|
  {
    if mvs == [] {
      d' := d;
    } else {
      var d1 := RelStep(w, s, d, mvs[0]);
      d' := RelRuns(w, Next(w, s, mvs[0]), d1, mvs[1..]);
    }
  }
}

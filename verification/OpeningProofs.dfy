/** The opening handshake: an initiator is live only behind the recipient's human gate. */
module OpeningProofs {
  import opened Options
  import opened SessionTypes
  import opened ThreadSteps
  import opened BudgetSteps
  import opened MachineSteps
  import opened ThreadInvariant
  import opened StepEffects
  import opened TwoParty

  // ---- the pair ----

  /** One record of the thread as either side stores it. */
  predicate OfPair(w: World, l: Local) {
    l.session.Some? ==>
      l.session.value.thread == w.thread && l.session.value.initiator == w.alice && l.session.value.recipient == w.bob
  }

  /** While bob has not decided, nothing but the opening is under way and alice waits. */
  ghost predicate Waiting(s: Sys) {
    && s.ba == [] && !Running(s.a) && !s.gate
    && (forall x :: x in s.ab ==> BeforeOpening(x))
    && (s.b.session.Some? ==> s.a.session.Some? && s.a.session.value.terms == s.b.session.value.terms)
  }

  ghost predicate ChannelsOk(w: World, s: Sys) {
    && (forall x :: x in s.ab ==> OnThread(x, w.thread))
    && (forall x :: x in s.ba ==> OnThread(x, w.thread) && !x.NegoOpen?)
    && (forall i :: 0 <= i < |s.ab| && s.ab[i].NegoOpen? ==>
          i == 0 && s.b.session.None? && s.a.session.Some? && s.ab[i].terms == s.a.session.value.terms)
    && (forall i :: 0 <= i < |s.ba| && s.ba[i].OpenApproved? ==> i == 0 && s.gate && !Running(s.a))
  }

  ghost predicate Opened(w: World, s: Sys) {
    && w.alice != w.bob
    && Inv(w.alice, s.a) && Inv(w.bob, s.b) && OfPair(w, s.a) && OfPair(w, s.b)
    && (s.a.session.None? ==> s.ab == [] && s.b.session.None?)
    && (s.b.session.Some? ==> s.a.session.Some? && SameTerms(s.a.session.value.terms, s.b.session.value.terms))
    && (Unopened(s.b) ==> Waiting(s))
    && (Running(s.a) ==> s.gate)
    && ChannelsOk(w, s)
  }

  lemma OfPairStays(w: World, me: string, l: Local, e: Event, env: Env)
    requires w.alice != w.bob && Inv(me, l) && OfPair(w, l) && Possible(me, l, e)
    requires me == w.alice && e.Open? ==> e.to == w.bob
    requires me == w.alice || (me == w.bob && !e.Open?)
    requires e.Incoming? && e.msg.NegoOpen? ==> (me == w.bob && e.from == w.alice)
    ensures OfPair(w, Step(me, l, w.thread, e, env).local)
    ensures Good(me, l, Step(me, l, w.thread, e, env).local)
  {
    StepGood(me, l, w.thread, e, env);
    if l.session.None? {
      StepEffect(me, l, w.thread, e, env);
    }
  }

  /** A side's step as the pair sees it: its new state and what it sent. */
  ghost predicate Took(w: World, me: string, l: Local, e: Event, o: Out) {
    Tame(l, e, o, w.thread) && Good(me, l, o.local) && OfPair(w, o.local)
  }

  lemma AliceActsChannels(w: World, s: Sys, e: Event, o: Out, used: set<string>)
    requires Opened(w, s) && Took(w, w.alice, s.a, e, o) && !e.Incoming? && (e.Open? ==> s.a.session.None?)
    ensures ChannelsOk(w, s.(a := o.local, ab := s.ab + o.sent, used := used))
  {
  }

  lemma AliceActs(w: World, s: Sys, e: Event, o: Out, used: set<string>)
    requires Opened(w, s) && Took(w, w.alice, s.a, e, o) && !e.Incoming? && (e.Open? ==> s.a.session.None?)
    ensures Opened(w, s.(a := o.local, ab := s.ab + o.sent, used := used))
  {
    AliceActsChannels(w, s, e, o, used);
  }

  lemma BobActs(w: World, s: Sys, e: Event, o: Out, used: set<string>)
    requires Opened(w, s) && Took(w, w.bob, s.b, e, o) && !e.Incoming? && !e.Open?
    ensures Opened(w, s.(b := o.local, ba := s.ba + o.sent, used := used, gate := s.gate || Approves(e, o.reply)))
  {
    hide Inv;
  }

  lemma AliceHears(w: World, s: Sys, o: Out)
    requires Opened(w, s) && s.ba != [] && Took(w, w.alice, s.a, Incoming(w.bob, s.ba[0]), o)
    ensures Opened(w, s.(a := o.local, ab := s.ab + o.sent, ba := s.ba[1..]))
  {
  }

  lemma BobHearsChannels(w: World, s: Sys, o: Out)
    requires Opened(w, s) && s.ab != [] && Took(w, w.bob, s.b, Incoming(w.alice, s.ab[0]), o)
    ensures ChannelsOk(w, s.(b := o.local, ba := s.ba + o.sent, ab := s.ab[1..]))
  {
  }

  lemma BobHears(w: World, s: Sys, o: Out)
    requires Opened(w, s) && s.ab != [] && Took(w, w.bob, s.b, Incoming(w.alice, s.ab[0]), o)
    requires s.ab[0].NegoOpen? && s.b.session.None? && o.local.session.Some? ==>
               o.local.session.value.terms == s.ab[0].terms
    ensures Opened(w, s.(b := o.local, ba := s.ba + o.sent, ab := s.ab[1..]))
  {
    BobHearsChannels(w, s, o);
  }

  lemma TookStep(w: World, me: string, l: Local, e: Event, env: Env)
    requires w.alice != w.bob && Inv(me, l) && OfPair(w, l) && Possible(me, l, e)
    requires me == w.alice && e.Open? ==> e.to == w.bob
    requires me == w.alice || (me == w.bob && !e.Open?)
    requires e.Incoming? && e.msg.NegoOpen? ==> me == w.bob && e.from == w.alice
    ensures Took(w, me, l, e, Step(me, l, w.thread, e, env))
    ensures !Loud(me, l, e, env) ==> Still(l, Step(me, l, w.thread, e, env))
  {
    OfPairStays(w, me, l, e, env);
    StepEffect(me, l, w.thread, e, env);
  }

  lemma OpenedAct(w: World, s: Sys, who: Role, e: Event, env: Env)
    requires Opened(w, s) && Enabled(w, s, TwoParty.Act(who, e, env))
    ensures Opened(w, Next(w, s, TwoParty.Act(who, e, env)))
  {
    if who == Initiator {
      TookStep(w, w.alice, s.a, e, env);
      AliceActs(w, s, e, AliceDoes(w, s, e, env), Used(s, e));
    } else {
      TookStep(w, w.bob, s.b, e, env);
      BobActs(w, s, e, BobDoes(w, s, e, env), Used(s, e));
    }
  }

  lemma OpenedDeliver(w: World, s: Sys, to: Role, env: Env)
    requires Opened(w, s) && Enabled(w, s, Deliver(to, env))
    ensures Opened(w, Next(w, s, Deliver(to, env)))
  {
    if to == Initiator {
      TookStep(w, w.alice, s.a, Incoming(w.bob, s.ba[0]), env);
      AliceHears(w, s, AliceDoes(w, s, Incoming(w.bob, s.ba[0]), env));
    } else {
      TookStep(w, w.bob, s.b, Incoming(w.alice, s.ab[0]), env);
      BobHears(w, s, BobDoes(w, s, Incoming(w.alice, s.ab[0]), env));
    }
  }

  lemma OpenedStep(w: World, s: Sys, mv: Move)
    requires Opened(w, s) && Enabled(w, s, mv)
    ensures Opened(w, Next(w, s, mv))
  {
    match mv {
      case Act(who, e, env) => OpenedAct(w, s, who, e, env);
      case Deliver(to, env) => OpenedDeliver(w, s, to, env);
    }
  }

  lemma {:induction false} OpenedRuns(w: World, s: Sys, mvs: seq<Move>)
    requires Opened(w, s) && Legal(w, s, mvs)
    ensures Opened(w, Play(w, s, mvs))
    decreases |mvs|
  {
    if mvs != [] {
      OpenedStep(w, s, mvs[0]);
      OpenedRuns(w, Next(w, s, mvs[0]), mvs[1..]);
    }
  }
}

/**
 * Two machines on one thread, joined by two FIFO channels with delivery decoupled from sending:
 * any handler of either side, or the delivery of the oldest envelope of a channel, may come next.
 */
module TwoParty {
  import opened Options
  import opened SessionTypes
  import opened ThreadSteps
  import opened MachineSteps
  import opened StepEffects

  datatype World = World(alice: string, bob: string, thread: string)

  /** `gate` records that bob's human approved the opening; `used` the proposal ids made up so far. */
  datatype Sys = Sys(a: Local, b: Local, ab: seq<Msg>, ba: seq<Msg>, gate: bool, used: set<string>)

  datatype Move = Act(who: Role, event: Event, env: Env) | Deliver(to: Role, via: Env)

  const START := Sys(EMPTY_LOCAL, EMPTY_LOCAL, [], [], false, {})

  /** Alice opens the thread, once; a proposal id is a fresh UUID. */
  predicate Enabled(w: World, s: Sys, mv: Move) {
    match mv
    case Act(who, e, _) =>
      && !e.Incoming?
      && (e.Open? ==> who == Initiator && s.a.session.None? && e.to == w.bob)
      && (e.Extend? ==> e.proposalId !in s.used)
    case Deliver(to, _) => if to == Initiator then s.ba != [] else s.ab != []
  }

  function AliceDoes(w: World, s: Sys, e: Event, env: Env): Out
    requires Possible(w.alice, s.a, e)
  {
    Step(w.alice, s.a, w.thread, e, env)
  }

  function BobDoes(w: World, s: Sys, e: Event, env: Env): Out
    requires Possible(w.bob, s.b, e)
  {
    Step(w.bob, s.b, w.thread, e, env)
  }

  function Used(s: Sys, e: Event): set<string> {
    if e.Extend? then s.used + {e.proposalId} else s.used
  }

  function Next(w: World, s: Sys, mv: Move): Sys
    requires w.alice != w.bob && Enabled(w, s, mv)
  {
    match mv
    case Act(Initiator, e, env) =>
      var o := AliceDoes(w, s, e, env);
      s.(a := o.local, ab := s.ab + o.sent, used := Used(s, e))
    case Act(Recipient, e, env) =>
      var o := BobDoes(w, s, e, env);
      s.(b := o.local, ba := s.ba + o.sent, used := Used(s, e), gate := s.gate || Approves(e, o.reply))
    case Deliver(Initiator, env) =>
      var o := AliceDoes(w, s, Incoming(w.bob, s.ba[0]), env);
      s.(a := o.local, ab := s.ab + o.sent, ba := s.ba[1..])
    case Deliver(Recipient, env) =>
      var o := BobDoes(w, s, Incoming(w.alice, s.ab[0]), env);
      s.(b := o.local, ba := s.ba + o.sent, ab := s.ab[1..])
  }

  ghost predicate Legal(w: World, s: Sys, mvs: seq<Move>)
    requires w.alice != w.bob
    decreases |mvs|
  {
    mvs != [] ==> Enabled(w, s, mvs[0]) && Legal(w, Next(w, s, mvs[0]), mvs[1..])
  }

  ghost function Play(w: World, s: Sys, mvs: seq<Move>): Sys
    requires w.alice != w.bob && Legal(w, s, mvs)
    decreases |mvs|
  {
    if mvs == [] then s else Play(w, Next(w, s, mvs[0]), mvs[1..])
  }
}

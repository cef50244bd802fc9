/** The thread invariant carried over to the whole machine object. */
module MachineSafety {
  import opened Options
  import opened SessionTypes
  import opened ThreadSteps
  import opened MachineSteps
  import opened ThreadInvariant
  import opened SessionMachine

  /** Every thread of the machine satisfies the invariant. */
  ghost predicate Sound(m: Machine)
    reads m
  {
    m.Valid() && forall t :: Inv(m.me, m.Slice(t))
  }

  /** A handler whose effect is one step of its thread keeps every thread sound and takes nothing back. */
  twostate lemma HandlerKeepsSound(m: Machine, thread: string, e: Event, env: Env)
    requires old(Sound(m)) && Possible(m.me, old(m.Slice(thread)), e)
    requires m.Did(thread, Step(m.me, old(m.Slice(thread)), thread, e, env))
    ensures Sound(m) && forall t :: Keeps(old(m.Slice(t)), m.Slice(t))
  {
    StepGood(m.me, old(m.Slice(thread)), thread, e, env);
  }

  /** Revoking a bond keeps every thread sound, and leaves nothing of the peer's sessions running. */
  twostate lemma RevokeKeepsSound(m: Machine, peer: string)
    requires old(Sound(m)) && m.Valid()
    requires forall t :: m.Slice(t) == BondRevoke(m.me, old(m.Slice(t)), peer)
    ensures Sound(m) && forall t :: Keeps(old(m.Slice(t)), m.Slice(t))
    ensures forall t :: With(m.me, m.Stored(t), peer) ==> Terminal(m.Stored(t).value.status) && m.Slice(t).ratifies == []
  {
    forall t
      ensures Good(m.me, old(m.Slice(t)), m.Slice(t))
      ensures With(m.me, m.Stored(t), peer) ==> Terminal(m.Stored(t).value.status) && m.Slice(t).ratifies == []
    {
      RevokeGood(m.me, old(m.Slice(t)), peer);
    }
  }

  /** So does the periodic sweep over all threads. */
  twostate lemma SweepKeepsSound(m: Machine, now: int, reached: set<string>)
    requires old(Sound(m)) && m.Valid()
    requires forall t :: m.Slice(t) == ExpireSession(m.me, old(m.Slice(t)), m.During(now, reached, t)).local
    ensures Sound(m) && forall t :: Keeps(old(m.Slice(t)), m.Slice(t))
  {
    forall t ensures Good(m.me, old(m.Slice(t)), m.Slice(t)) {
      ExpireGood(m.me, old(m.Slice(t)), m.During(now, reached, t));
    }
  }

  /** A queue id no queued item has. */
  function Unused(q: seq<Item>): (id: string)
    ensures |id| > 0 && forall i :: i in q ==> |i.id| < |id|
  {
    if q == [] then "u" else q[0].id + Unused(q[1..])
  }

  /** Every thread is sound, and nothing was taken back since the old state. */
  twostate predicate Safely(m: Machine)
    reads m
  {
    Sound(m) && forall t :: Keeps(old(m.Slice(t)), m.Slice(t))
  }

  method Opens(m: Machine, thread: string, to: string, terms: Terms, now: int, sent: bool)
    requires Sound(m) && thread !in m.store
    modifies m
    ensures Safely(m)
  {
    var env := Env(now, sent, m.bonds, Unused(m.pending));
    var _ := m.HandleOpen(thread, to, terms, env);
    StepGood(m.me, old(m.Slice(thread)), thread, Open(to, terms, to in old(m.allowed)), env);
    forall t ensures Inv(m.me, m.Slice(t)) && Keeps(old(m.Slice(t)), m.Slice(t)) {
      if t != thread {
        assert m.Slice(t) == old(m.Slice(t));
      }
    }
  }

  method Hears(m: Machine, thread: string, from: string, msg: Msg, now: int, sent: bool)
    requires Sound(m) && from != m.me
    modifies m
    ensures Safely(m)
  {
    var env := Env(now, sent, m.bonds, Unused(m.pending));
    var _ := m.HandleIncomingEnvelope(thread, from, msg, env);
    ReceiveGood(m.me, old(m.Slice(thread)), thread, from, msg, env);
    forall t ensures Inv(m.me, m.Slice(t)) && Keeps(old(m.Slice(t)), m.Slice(t)) {
      if t != thread {
        assert m.Slice(t) == old(m.Slice(t));
      }
    }
  }

  method Revokes(m: Machine, peer: string)
    requires Sound(m)
    modifies m
    ensures Safely(m)
    ensures forall t :: With(m.me, m.Stored(t), peer) ==> Terminal(m.Stored(t).value.status)
  {
    m.HandleBondRevoke(peer);
    forall t
      ensures Inv(m.me, m.Slice(t)) && Keeps(old(m.Slice(t)), m.Slice(t))
      ensures With(m.me, m.Stored(t), peer) ==> Terminal(m.Stored(t).value.status)
    {
      RevokeGood(m.me, old(m.Slice(t)), peer);
    }
  }

  /**
   * Three handlers of the object in a row, with any answers of the surroundings and any envelope in
   * between: every thread stays sound, nothing is taken back, and the revocation has ended what was opened.
   */
  method OpenHearRevoke(m: Machine, thread: string, to: string, terms: Terms, from: string, msg: Msg, now: int, later: int,
                        sent: bool, answered: bool)
    requires Sound(m) && thread !in m.store && from != m.me
    modifies m
    ensures Safely(m)
    ensures With(m.me, m.Stored(thread), to) ==> Terminal(m.Stored(thread).value.status)
  {
    Opens(m, thread, to, terms, now, sent);
    label Opened:
    Hears(m, thread, from, msg, later, answered);
    label Heard:
    Revokes(m, to);
    forall t ensures Keeps(old(m.Slice(t)), m.Slice(t)) {
      KeepsTrans(old(m.Slice(t)), old@Opened(m.Slice(t)), old@Heard(m.Slice(t)));
      KeepsTrans(old(m.Slice(t)), old@Heard(m.Slice(t)), m.Slice(t));
    }
  }
}

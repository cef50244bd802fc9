/**
 * The session machine itself: one object whose handlers overwrite stored records, the queue, the bonds
 * and the outgoing mail. Every handler is proved to do to its own thread exactly what the thread's
 * handler function says, and nothing to any other thread.
 */
module SessionMachine {
  import opened Options
  import opened SessionTypes
  import opened ThreadSteps
  import opened BudgetSteps
  import opened MachineSteps
  import opened Queue
  import AtestGate

  datatype Envelope = Envelope(to: string, thread: string, msg: Msg)

  /** The envelopes a handler's messages become: always to the other participant of the record. */
  function Posted(me: string, thread: string, o: Out): seq<Envelope> {
    if o.sent == [] || o.local.session.None? then []
    else [Envelope(PeerFor(o.local.session.value, me), thread, o.sent[0])]
  }

  function Part(l: Local, k: Tag): seq<Item> {
    match k
    case OpenTag => l.opens
    case RatifyTag => l.ratifies
    case BudgetTag => l.budgets
  }

  function WithPart(l: Local, k: Tag, q: seq<Item>): Local {
    match k
    case OpenTag => l.(opens := q)
    case RatifyTag => l.(ratifies := q)
    case BudgetTag => l.(budgets := q)
  }

  function Except(xs: seq<string>, x: string): (r: seq<string>)
    ensures forall y :: y in r <==> y in xs && y != x
  {
    if xs == [] then []
    else
      var r := Except(xs[..|xs| - 1], x);
      assert xs == xs[..|xs| - 1] + [xs[|xs| - 1]];
      if xs[|xs| - 1] == x then r else r + [xs[|xs| - 1]]
  }

  predicate EphemeralPeer(bonds: map<string, Bond>, peer: string) {
    peer in bonds && bonds[peer].ephemeral
  }

  /** One thread's share of the outgoing mail. */
  function MailOf(q: seq<Envelope>, thread: string): seq<Envelope> {
    if q == [] then []
    else
      var r := MailOf(q[..|q| - 1], thread);
      if q[|q| - 1].thread == thread then r + [q[|q| - 1]] else r
  }

  lemma MailAdd(q: seq<Envelope>, added: seq<Envelope>, home: string, thread: string)
    requires |added| <= 1 && forall e :: e in added ==> e.thread == home
    ensures MailOf(q + added, thread) == MailOf(q, thread) + if thread == home then added else []
  {
    if added == [] {
      assert q + added == q;
    } else {
      assert (q + added)[..|q|] == q;
      assert added[0] in added;
    }
  }

  /** A queue item the periodic sweep drops. */
  predicate Stale(me: string, store: map<string, Record>, i: Item) {
    match i.kind
    case SessionOpen(_, _) => i.thread !in store || store[i.thread].status != Pending
    case Ratify(_) =>
      i.thread !in store || store[i.thread].status == Closed || RoleFor(store[i.thread], me) in store[i.thread].ratified
    case _ => false
  }

  /** A queue item that goes away with the bond to a peer. */
  predicate Severed(me: string, store: map<string, Record>, peer: string, i: Item) {
    !i.kind.PairJoin? && (i.peer == peer || (i.thread in store && PeerFor(store[i.thread], me) == peer))
  }

  function Share(store: map<string, Record>, q: seq<Item>, t: string): Local {
    Local(if t in store then Some(store[t]) else None, Sel(q, OpenTag, t), Sel(q, RatifyTag, t), Sel(q, BudgetTag, t))
  }

  /** One thread's items of one kind are all stale or all wanted. */
  predicate Wanted(me: string, store: map<string, Record>, t: string, k: Tag) {
    match k
    case OpenTag => t in store && store[t].status == Pending
    case RatifyTag => t in store && store[t].status != Closed && RoleFor(store[t], me) !in store[t].ratified
    case BudgetTag => true
  }

  lemma TidyPart(me: string, store: map<string, Record>, q: seq<Item>, doomed: set<string>, t: string, k: Tag)
    requires forall i :: i in q ==> (i.id in doomed <==> Stale(me, store, i))
    ensures Sel(Spared(q, doomed), k, t) == if Wanted(me, store, t, k) then Sel(q, k, t) else []
  {
  }

  lemma TidyShare(me: string, store: map<string, Record>, q: seq<Item>, doomed: set<string>, t: string)
    requires forall i :: i in q ==> (i.id in doomed <==> Stale(me, store, i))
    ensures Share(store, Spared(q, doomed), t) == Tidy(me, Share(store, q, t))
  {
    TidyPart(me, store, q, doomed, t, OpenTag);
    TidyPart(me, store, q, doomed, t, RatifyTag);
    TidyPart(me, store, q, doomed, t, BudgetTag);
  }

  lemma SeverPart(me: string, store: map<string, Record>, peer: string, q: seq<Item>, doomed: set<string>, t: string, k: Tag)
    requires forall i :: i in q ==> (i.id in doomed <==> Severed(me, store, peer, i))
    ensures Sel(Spared(q, doomed), k, t) ==
      if t in store && PeerFor(store[t], me) == peer then [] else NotOf(Sel(q, k, t), peer)
  {
    SelSpared(q, doomed, k, t);
    if t in store && PeerFor(store[t], me) == peer {
      SparedNone(Sel(q, k, t), doomed);
    } else {
      SparedNotOf(Sel(q, k, t), doomed, peer);
    }
  }

  lemma SeverShare(me: string, store: map<string, Record>, peer: string, q: seq<Item>, doomed: set<string>, t: string)
    requires forall i :: i in q ==> (i.id in doomed <==> Severed(me, store, peer, i))
    ensures Share(store, Spared(q, doomed), t) == Sever(me, Share(store, q, t), peer)
  {
    SeverPart(me, store, peer, q, doomed, t, OpenTag);
    SeverPart(me, store, peer, q, doomed, t, RatifyTag);
    SeverPart(me, store, peer, q, doomed, t, BudgetTag);
  }

  /** Ratifying by a queued item is ratifying its thread with the item's hash. */
  lemma ItemFixesHash(me: string, l: Local, id: string, given: Option<string>, env: Env)
    requires FindId(l.ratifies, id).Some? && FindId(l.ratifies, id).value.kind.Ratify?
    ensures RatifyBy(me, l, Some(id), given, true, env)
            == RatifyBy(me, l, None, Some(FindId(l.ratifies, id).value.kind.artifactHash), true, env)
  {
  }

  class Machine {
    const me: string
    var store: map<string, Record>
    var pending: seq<Item>
    var bonds: map<string, Bond>
    var allowed: seq<string>
    var outbox: seq<Envelope>

    constructor (me: string, bonds: map<string, Bond>, allowed: seq<string>)
      ensures Valid() && this.me == me && this.bonds == bonds && this.allowed == allowed && outbox == []
      ensures forall t :: Slice(t) == EMPTY_LOCAL
    {
      this.me, this.bonds, this.allowed := me, bonds, allowed;
      store, pending, outbox := map[], [], [];
    }

    ghost predicate Valid()
      reads this
    {
      && UniqueIds(pending)
      && forall t :: t in store ==> store[t].thread == t
    }

    function Stored(t: string): Option<Record>
      reads this
    {
      if t in store then Some(store[t]) else None
    }

    /** What this machine holds for one thread. */
    ghost function Slice(t: string): Local
      reads this
    {
      Local(Stored(t), Sel(pending, OpenTag, t), Sel(pending, RatifyTag, t), Sel(pending, BudgetTag, t))
    }

    /** The surroundings of one handler call: the machine's own bonds and a queue id never used before. */
    ghost predicate Ready(env: Env)
      reads this
    {
      && Valid()
      && env.bonds == bonds
      && forall i :: i in pending ==> i.id != env.freshId
    }

    /** Only this thread changed, and it now holds `l`. */
    twostate predicate Only(thread: string, l: Local)
      reads this
    {
      && Valid()
      && Slice(thread) == l
      && (forall t :: t != thread ==> Slice(t) == old(Slice(t)))
      && (forall i: Item :: i.kind.PairJoin? ==> (i in pending <==> i in old(pending)))
    }

    /** The whole effect of a handler on one thread. */
    twostate predicate Did(thread: string, o: Out)
      reads this
    {
      && Only(thread, o.local)
      && outbox == old(outbox) + Posted(me, thread, o)
      && var drop := o.unbond && o.local.session.Some? && EphemeralPeer(old(bonds), PeerFor(o.local.session.value, me));
         && bonds == (if drop then old(bonds) - {PeerFor(o.local.session.value, me)} else old(bonds))
         && allowed == (if drop then Except(old(allowed), PeerFor(o.local.session.value, me)) else old(allowed))
    }

    // ---- the store and the queue ----

    method Upsert(s: Record)
      requires Valid()
      modifies this`store
      ensures store == old(store)[s.thread := s]
      ensures Only(s.thread, old(Slice(s.thread)).(session := Some(s)))
    {
      store := store[s.thread := s];
    }

    method Add(i: Item, ghost k: Tag)
      requires Valid() && Is(i, k, i.thread) && forall j :: j in pending ==> j.id != i.id
      modifies this`pending
      ensures pending == old(pending) + [i]
      ensures Only(i.thread, WithPart(old(Slice(i.thread)), k, Part(old(Slice(i.thread)), k) + [i]))
    {
      AddShares(pending, i, k);
      pending := pending + [i];
    }

    /** Takes one item out; every other share of the queue stays what it was. */
    method Take(i: Item, ghost k: Tag)
      requires UniqueIds(pending) && i in pending && Is(i, k, i.thread)
      modifies this`pending
      ensures UniqueIds(pending)
      ensures forall j :: j in pending <==> j in old(pending) && j != i
      ensures forall t, k2 :: Sel(pending, k2, t) ==
                if t == i.thread && k2 == k then WithoutId(Sel(old(pending), k, t), i.id) else Sel(old(pending), k2, t)
    {
      RemoveShares(pending, i, k);
      pending := WithoutId(pending, i.id);
    }

    method Remove(i: Item, ghost k: Tag)
      requires Valid() && i in pending && Is(i, k, i.thread)
      modifies this`pending
      ensures forall j :: j in pending ==> j in old(pending)
      ensures Only(i.thread, WithPart(old(Slice(i.thread)), k, WithoutId(Part(old(Slice(i.thread)), k), i.id)))
    {
      Take(i, k);
    }

    method FindFirst(k: Tag, thread: string) returns (r: Option<Item>)
      ensures r == (if Part(Slice(thread), k) == [] then None else Some(Part(Slice(thread), k)[0]))
    {
      var n := 0;
      while n < |pending|
        invariant 0 <= n <= |pending|
        invariant Sel(pending[..n], k, thread) == []
      {
        assert pending[..n + 1][..n] == pending[..n];
        if Is(pending[n], k, thread) {
          SelPrefix(pending, n + 1, k, thread);
          assert Sel(pending[..n + 1], k, thread) == [pending[n]];
          return Some(pending[n]);
        }
        n := n + 1;
      }
      assert pending[..n] == pending;
      return None;
    }

    method RemoveFirst(k: Tag, thread: string)
      requires Valid()
      modifies this`pending
      ensures forall j :: j in pending ==> j in old(pending)
      ensures Only(thread, WithPart(old(Slice(thread)), k, WithoutFirst(Part(old(Slice(thread)), k))))
    {
      var found := FindFirst(k, thread);
      if found.Some? {
        assert found.value in Sel(pending, k, thread);
        Remove(found.value, k);
      }
    }

    /** Removes from a snapshot of the queue, one by one, every budget item of the thread. */
    method RemoveBudgets(thread: string)
      requires Valid()
      modifies this`pending
      ensures forall j :: j in pending ==> j in old(pending)
      ensures Only(thread, old(Slice(thread)).(budgets := []))
    {
      var list := pending;
      for n := 0 to |list|
        invariant UniqueIds(pending)
        invariant forall j :: j in pending ==> j in list
        invariant forall j :: n <= j < |list| ==> list[j] in pending
        invariant forall j :: 0 <= j < n && Is(list[j], BudgetTag, thread) ==> list[j] !in pending
        invariant forall i: Item :: i.kind.PairJoin? ==> (i in pending <==> i in list)
        invariant forall t, k :: t != thread || k != BudgetTag ==> Sel(pending, k, t) == Sel(list, k, t)
      {
        if Is(list[n], BudgetTag, thread) {
          Take(list[n], BudgetTag);
        }
      }
      NoneLeft(pending, BudgetTag, thread);
    }

    method Notify(s: Record, m: Msg, sendOk: bool)
      modifies this`outbox
      ensures outbox == old(outbox) + if sendOk then [Envelope(PeerFor(s, me), s.thread, m)] else []
    {
      if sendOk {
        outbox := outbox + [Envelope(PeerFor(s, me), s.thread, m)];
      }
    }

    /** Stores a record and tells the peer. */
    method StoreAndTell(s: Record, m: Msg, env: Env)
      requires Valid()
      modifies this`store, this`outbox
      ensures Did(s.thread, Out(old(Slice(s.thread)).(session := Some(s)), Send(env, m), Done, false))
    {
      Upsert(s);
      Notify(s, m, env.sendOk);
    }

    // ---- shared moves ----

    method Sweep(s: Record) returns (r: Record)
      requires Valid()
      modifies this`pending
      ensures r == s.(extension := None)
      ensures forall j :: j in pending ==> j in old(pending)
      ensures Only(s.thread, old(Slice(s.thread)).(budgets := []))
    {
      RemoveBudgets(s.thread);
      r := s.(extension := None);
    }

    method EnsureLiveNotExpired(s: Record, now: int) returns (r: Record)
      requires Valid() && Stored(s.thread) == Some(s)
      modifies this`store, this`pending
      ensures forall j :: j in pending ==> j in old(pending)
      ensures Only(s.thread, EnsureLive(old(Slice(s.thread)), now))
      ensures Stored(s.thread) == Some(r)
    {
      if s.status != Live || now <= s.terms.budget.deadline {
        return s;
      }
      r := Sweep(s.(status := Closed, rejectReason := Some("deadline_expired")));
      Upsert(r);
    }

    method ExpireOpenPendingSync(s: Record) returns (r: Record)
      requires Valid()
      modifies this`store, this`pending
      ensures forall j :: j in pending ==> j in old(pending)
      ensures r == s.(status := OpenExpired)
      ensures Only(s.thread, ExpireOpen(old(Slice(s.thread)), s))
    {
      r := s.(status := OpenExpired);
      Upsert(r);
      RemoveFirst(OpenTag, s.thread);
    }

    method ExpireOpenPending(s: Record, env: Env)
      requires Valid()
      modifies this`store, this`pending, this`outbox
      ensures forall j :: j in pending ==> j in old(pending)
      ensures Did(s.thread, Out(ExpireOpen(old(Slice(s.thread)), s), NotifyExpired(s, env), Done, false))
    {
      var r := ExpireOpenPendingSync(s);
      if s.role == Recipient {
        Notify(r, OpenExpiredMsg, env.sendOk);
      }
    }

    method EnsureRecipientOpenPending(s: Record, env: Env)
      requires Ready(env)
      modifies this`store, this`pending
      ensures Only(s.thread, EnsureOpenItem(old(Slice(s.thread)), s, env))
      ensures s.status != Pending || s.role != Recipient ==> pending == old(pending)
    {
      if s.status != Pending || s.role != Recipient {
        return;
      }
      if env.now > OpenExpiry(s) {
        var _ := ExpireOpenPendingSync(s);
        return;
      }
      var existing := FindFirst(OpenTag, s.thread);
      if existing.Some? {
        return;
      }
      Add(OpenItemFor(s, env.freshId), OpenTag);
    }

    method EnsureRatifyPending(s: Record, env: Env)
      requires Ready(env)
      modifies this`pending
      ensures Only(s.thread, EnsureRatifyItem(old(Slice(s.thread)), s, me, env))
    {
      if s.status != Signed && s.status != Closed {
        return;
      }
      var peer := PeerFor(s, me);
      if s.rejectReason == Some("bond_revoked") || peer !in bonds || RoleFor(s, me) in s.ratified {
        return;
      }
      var existing := FindFirst(RatifyTag, s.thread);
      if existing.Some? || !Truthy(s.artifactHash) {
        return;
      }
      Add(Item(env.freshId, s.thread, peer, Ratify(s.artifactHash.value)), RatifyTag);
    }

    method GuardTurns(s: Record, env: Env) returns (ok: bool)
      requires Ready(env)
      modifies this`pending
      ensures ok == (s.turnCount < s.terms.budget.maxTurns)
      ensures Only(s.thread, GuardTurnBudget(old(Slice(s.thread)), s, me, env))
    {
      if s.turnCount < s.terms.budget.maxTurns {
        return true;
      }
      if s.extension.None? {
        var existing := FindFirst(BudgetTag, s.thread);
        if existing.None? {
          Add(BudgetItem(s, me, env.freshId, None), BudgetTag);
        }
      }
      return false;
    }

    method RemoveEphemeralBond(peer: string)
      modifies this`bonds, this`allowed
      ensures bonds == if EphemeralPeer(old(bonds), peer) then old(bonds) - {peer} else old(bonds)
      ensures allowed == if EphemeralPeer(old(bonds), peer) then Except(old(allowed), peer) else old(allowed)
    {
      if EphemeralPeer(bonds, peer) {
        bonds := bonds - {peer};
        allowed := Except(allowed, peer);
      }
    }

    method FinalizeSession(s: Record, hash: string)
      requires Valid()
      modifies this`store, this`bonds, this`allowed
      ensures Did(s.thread, Out(old(Slice(s.thread)).(session := Some(Finalize(s, me, hash))), [], Done, true))
    {
      Upsert(Finalize(s, me, hash));
      RemoveEphemeralBond(PeerFor(s, me));
    }

    // ---- opening ----

    method HandleOpen(thread: string, to: string, terms: Terms, env: Env) returns (reply: Reply)
      requires Ready(env) && thread !in store
      modifies this
      ensures
        var o := ThreadSteps.HandleOpen(me, old(Slice(thread)), thread, to, terms, to in old(allowed), env);
        Did(thread, o) && reply == o.reply
    {
      if to !in allowed {
        return Refused("recipient_not_allowed");
      }
      if env.now > terms.budget.deadline {
        return Refused("invalid_payload");
      }
      var s := NewSession(thread, me, to, Initiator, terms, env.now);
      Upsert(s);
      Notify(s, NegoOpen(terms), env.sendOk);
      reply := if env.sendOk then Done else Refused("relay_unavailable");
    }

    method HandleIncomingOpen(thread: string, from: string, terms: Terms, env: Env) returns (reply: Reply)
      requires Ready(env)
      modifies this
      ensures
        var o := IncomingOpen(me, old(Slice(thread)), thread, from, terms, env);
        Did(thread, o) && reply == o.reply
    {
      if thread in store && store[thread].status != Pending {
        return Done;
      }
      if thread in store && store[thread].initiator != from {
        return Refused("initiator_mismatch");
      }
      if thread in store {
        return Done;
      }
      var s := NewSession(thread, from, me, Recipient, terms, env.now);
      Upsert(s);
      if env.now > terms.budget.deadline {
        ExpireOpenPending(s, env);
        return Done;
      }
      EnsureRecipientOpenPending(s, env);
      reply := Done;
    }

    /** Looks a queue item up by id; an item of another kind counts as missing. */
    method Lookup(id: string, k: Tag) returns (found: Option<Item>)
      requires Valid()
      ensures found == FindId(Part(Slice(Home(pending, k, id)), k), id)
      ensures found.Some? ==>
                found.value in pending && Is(found.value, k, found.value.thread) && found.value.thread == Home(pending, k, id)
    {
      HomeFinds(pending, k, id);
      found := FindId(pending, id);
      if found.Some? && !Is(found.value, k, found.value.thread) {
        found := None;
      }
    }

    /** Stores the answer to an opening and drops its item. */
    method Resolve(item: Item, s: Record)
      requires Valid() && item in pending && Is(item, OpenTag, s.thread)
      modifies this`store, this`pending
      ensures
        var l := old(Slice(s.thread));
        Only(s.thread, l.(session := Some(s), opens := WithoutId(l.opens, item.id)))
    {
      store := store[s.thread := s];
      Take(item, OpenTag);
    }

    /** Stores the answer to an opening, drops its item and tells the initiator. */
    method Settle(item: Item, s: Record, m: Msg, env: Env)
      requires Valid() && item in pending && Is(item, OpenTag, s.thread)
      modifies this`store, this`pending, this`outbox
      ensures
        var l := old(Slice(s.thread));
        Did(s.thread, Out(l.(session := Some(s), opens := WithoutId(l.opens, item.id)), Send(env, m), Done, false))
    {
      hide Sel;
      Resolve(item, s);
      Notify(s, m, env.sendOk);
    }

    /** Expires an opening that is answered too late, and settles any other. */
    method AnswerItem(item: Item, answered: Record, m: Msg, env: Env) returns (reply: Reply)
      requires Ready(env) && item in pending && Is(item, OpenTag, item.thread)
      requires item.thread in store && answered.thread == item.thread
      modifies this`store, this`pending, this`outbox
      ensures
        var s, l := old(store[item.thread]), old(Slice(item.thread));
        var o := if env.now > OpenExpiry(s) then Out(ExpireOpen(l, s), NotifyExpired(s, env), Refused("session_open_expired"), false)
                 else Out(l.(session := Some(answered), opens := WithoutId(l.opens, item.id)), Send(env, m), Done, false);
        Did(item.thread, o) && reply == o.reply
    {
      if env.now > OpenExpiry(store[item.thread]) {
        ExpireOpenPending(store[item.thread], env);
        return Refused("session_open_expired");
      }
      Settle(item, answered, m, env);
      reply := Done;
    }

    method HandleApproveOpen(id: string, viaHuman: bool, env: Env) returns (reply: Reply)
      requires Ready(env)
      modifies this
      ensures
        var thread := Home(old(pending), OpenTag, id);
        var o := ApproveOpen(old(Slice(thread)), id, viaHuman, env);
        Did(thread, o) && reply == o.reply
    {
      if !viaHuman {
        return Refused("human_required");
      }
      var found := Lookup(id, OpenTag);
      if found.None? {
        return Refused("pending_not_found");
      }
      var item := found.value;
      if item.thread !in store {
        return Refused("session_not_found");
      }
      reply := AnswerItem(item, store[item.thread].(status := Live), OpenApproved, env);
    }

    method HandleRejectOpen(id: string, reason: string, viaHuman: bool, env: Env) returns (reply: Reply)
      requires Ready(env)
      modifies this
      ensures
        var thread := Home(old(pending), OpenTag, id);
        var o := RejectOpen(old(Slice(thread)), id, reason, viaHuman, env);
        Did(thread, o) && reply == o.reply
    {
      if !viaHuman {
        return Refused("human_required");
      }
      var found := Lookup(id, OpenTag);
      if found.None? {
        return Refused("pending_not_found");
      }
      var item := found.value;
      if item.thread !in store {
        return Refused("session_not_found");
      }
      var rejected := store[item.thread].(status := OpenRejected, rejectReason := Some(reason));
      reply := AnswerItem(item, rejected, OpenReject(Some(reason)), env);
    }

    // ---- negotiating ----

    method HandleTurn(thread: string, wellFormed: bool, env: Env) returns (reply: Reply)
      requires Ready(env)
      modifies this
      ensures
        var o := TakeTurn(me, old(Slice(thread)), wellFormed, env);
        Did(thread, o) && reply == o.reply
    {
      if thread !in store {
        return Refused("session_not_found");
      }
      var s := EnsureLiveNotExpired(store[thread], env.now);
      if !LiveOrSigned(s) {
        return Refused("session_not_live");
      }
      reply := TrySpendTurn(s, wellFormed, env);
    }

    method TrySpendTurn(s: Record, wellFormed: bool, env: Env) returns (reply: Reply)
      requires Ready(env) && Stored(s.thread) == Some(s)
      modifies this`store, this`pending, this`outbox
      ensures
        var o := SpendTurn(me, old(Slice(s.thread)), s, wellFormed, env);
        Did(s.thread, o) && reply == o.reply
    {
      var ok := GuardTurns(s, env);
      if !ok {
        return Refused("budget_exhausted");
      }
      if !wellFormed {
        return Refused("invalid_payload");
      }
      var updated := s.(turnCount := s.turnCount + 1);
      StoreAndTell(updated, Turn, env);
      reply := Done;
    }

    method HandleChallenge(thread: string, env: Env) returns (reply: Reply)
      requires Ready(env)
      modifies this
      ensures
        var o := FileChallenge(me, old(Slice(thread)), env);
        Did(thread, o) && reply == o.reply
    {
      if thread !in store {
        return Refused("session_not_found");
      }
      var s := EnsureLiveNotExpired(store[thread], env.now);
      if !LiveOrSigned(s) {
        return Refused("session_not_live");
      }
      if ATEST_PROFILE !in ProfilesFor(s, me, env) {
        return Refused("profile_not_supported");
      }
      var updated := s.(challenges := s.challenges + {RoleFor(s, me)});
      Upsert(updated);
      Notify(updated, Challenge, env.sendOk);
      reply := Done;
    }

    method RecordTestReport(thread: string, report: Report, env: Env) returns (reply: Reply)
      requires Ready(env)
      modifies this
      ensures
        var o := FileReport(me, old(Slice(thread)), report, env);
        Did(thread, o) && reply == o.reply
    {
      if thread !in store {
        return Refused("session_not_found");
      }
      var s := EnsureLiveNotExpired(store[thread], env.now);
      if !LiveOrSigned(s) {
        return Refused("session_not_live");
      }
      if ATEST_PROFILE !in ProfilesFor(s, me, env) {
        return Refused("profile_not_supported");
      }
      var updated := s.(reports := SetRunnerReport(s.reports, report.artifactHash, report.runner, RoleFor(s, me), report));
      StoreAndTell(updated, ReportMsg(report), env);
      reply := Done;
    }

    /** Stores a sign hash; the second one moves the session to signed and out of its budget business. */
    method StoreSign(s: Record, role: Role, hash: string) returns (r: Record)
      requires Valid()
      modifies this`store, this`pending
      ensures forall j :: j in pending ==> j in old(pending)
      ensures Only(s.thread, RecordSign(old(Slice(s.thread)), s, role, hash))
      ensures RecordSign(old(Slice(s.thread)), s, role, hash).session == Some(r)
    {
      r := s.(signHashes := s.signHashes[role := hash], artifactHash := Some(hash));
      if BothSigned(r) {
        r := r.(status := Signed);
      }
      if s.status == Live && r.status == Signed {
        r := Sweep(r);
      }
      Upsert(r);
    }

    /** The gate in front of a signature: an empty answer lets it through. */
    method GateRefuses(s: Record, hash: string, env: Env) returns (why: Option<string>)
      requires env.bonds == bonds
      ensures
        var profiles := ProfilesFor(s, me, env);
        why == if GateActive(s, profiles) && !BothChallenged(s) then Some("challenges_incomplete")
               else if GateActive(s, profiles) && !CeremonyComplete(s, profiles, hash) then Some("tests_not_green")
               else None
    {
      var profiles := ProfilesFor(s, me, env);
      if GateActive(s, profiles) {
        if !BothChallenged(s) {
          return Some("challenges_incomplete");
        }
        var complete := AtestGate.SignCeremonyComplete(s, profiles, hash);
        if !complete {
          return Some("tests_not_green");
        }
      }
      return None;
    }

    method CompleteSign(s: Record, hash: string, env: Env)
      requires Ready(env)
      modifies this`store, this`pending, this`outbox
      ensures
        var l := RecordSign(old(Slice(s.thread)), s, RoleFor(s, me), hash);
        var r := l.session.value;
        Did(s.thread, Out(if r.status == Signed then EnsureRatifyItem(l, r, me, env) else l,
                          Send(env, SignedMsg(hash)), Done, false))
    {
      var updated := StoreSign(s, RoleFor(s, me), hash);
      Notify(updated, SignedMsg(hash), env.sendOk);
      if updated.status == Signed {
        EnsureRatifyPending(updated, env);
      }
    }

    method HandleSign(thread: string, hash: string, env: Env) returns (reply: Reply)
      requires Ready(env)
      modifies this
      ensures
        var o := Sign(me, old(Slice(thread)), hash, env);
        Did(thread, o) && reply == o.reply
    {
      if thread !in store {
        return Refused("session_not_found");
      }
      var s := EnsureLiveNotExpired(store[thread], env.now);
      if !LiveOrSigned(s) {
        return Refused("session_not_live");
      }
      var why := GateRefuses(s, hash, env);
      if why.Some? {
        return Refused(why.value);
      }
      CompleteSign(s, hash, env);
      reply := Done;
    }

    method StoreApproval(s: Record) returns (r: Record)
      requires Valid()
      modifies this`store, this`pending
      ensures r == s.(ratified := s.ratified + {RoleFor(s, me)})
      ensures
        var l := old(Slice(s.thread));
        Only(s.thread, l.(session := Some(r), ratifies := WithoutFirst(l.ratifies)))
    {
      r := s.(ratified := s.ratified + {RoleFor(s, me)});
      Upsert(r);
      RemoveFirst(RatifyTag, s.thread);
    }

    /** The ratification itself, once a signed or closed session and a hash are at hand. */
    method StoreRatify(s: Record, hash: string, env: Env)
      requires Ready(env) && Stored(s.thread) == Some(s) && (s.status == Signed || s.status == Closed) && hash != ""
      modifies this
      ensures Did(s.thread, RatifyNow(me, old(Slice(s.thread)), s, hash, env))
    {
      var updated := StoreApproval(s);
      Notify(updated, RatifiedMsg, env.sendOk);
      if BothRatified(updated) {
        FinalizeSession(updated, hash);
      }
    }

    /** Once a human named the thread, and perhaps the hash. */
    method RatifyNamed(thread: string, wanted: Option<string>, env: Env) returns (reply: Reply)
      requires Ready(env)
      modifies this
      ensures
        var o := RatifyBy(me, old(Slice(thread)), None, wanted, true, env);
        Did(thread, o) && reply == o.reply
    {
      if thread !in store {
        return Refused("session_not_found");
      }
      var s := store[thread];
      if s.status != Signed && s.status != Closed {
        return Refused("session_not_signed");
      }
      var hash := if wanted.Some? then wanted else s.artifactHash;
      if !Truthy(hash) {
        return Refused("invalid_payload");
      }
      StoreRatify(s, hash.value, env);
      reply := Done;
    }

    /** The thread is named either directly or by a queued ratify item, which then also fixes the hash. */
    method HandleRatify(named: string, byItem: Option<string>, given: Option<string>, viaHuman: bool, env: Env)
      returns (reply: Reply)
      requires Ready(env)
      modifies this
      ensures
        var thread := if byItem.Some? then Home(old(pending), RatifyTag, byItem.value) else named;
        var o := RatifyBy(me, old(Slice(thread)), byItem, given, viaHuman, env);
        Did(thread, o) && reply == o.reply
    {
      if !viaHuman {
        return Refused("human_required");
      }
      if byItem.Some? {
        var item := Lookup(byItem.value, RatifyTag);
        if item.None? {
          return Refused("pending_not_found");
        }
        ItemFixesHash(me, Slice(item.value.thread), byItem.value, given, env);
        reply := RatifyNamed(item.value.thread, Some(item.value.kind.artifactHash), env);
      } else {
        reply := RatifyNamed(named, given, env);
      }
    }

    // ---- reading and closing ----

    method ResolveOpenPending(thread: string, env: Env)
      requires Ready(env)
      modifies this
      ensures Did(thread, Quiet(ResolveOpen(old(Slice(thread)), env), Done))
    {
      if thread in store {
        EnsureRecipientOpenPending(store[thread], env);
      }
    }

    method ResolveRatifyPending(thread: string, env: Env)
      requires Ready(env)
      modifies this
      ensures Did(thread, Quiet(ResolveRatify(me, old(Slice(thread)), env), Done))
    {
      if thread in store {
        EnsureRatifyPending(store[thread], env);
      }
    }

    method Requeue(s: Record, env: Env)
      requires Ready(env)
      modifies this`store, this`pending
      ensures Only(s.thread, EnsureRatifyItem(EnsureOpenItem(old(Slice(s.thread)), s, env), s, me, env))
    {
      if s.status == Pending && s.role == Recipient {
        EnsureRecipientOpenPending(s, env);
      }
      if s.status == Signed || s.status == Closed {
        EnsureRatifyPending(s, env);
      }
    }

    method HandleStatus(thread: string, env: Env) returns (reply: Reply)
      requires Ready(env)
      modifies this
      ensures
        var o := ReadStatus(me, old(Slice(thread)), env);
        Did(thread, o) && reply == o.reply
    {
      if thread !in store {
        return Refused("session_not_found");
      }
      var s := EnsureLiveNotExpired(store[thread], env.now);
      Requeue(s, env);
      reply := Done;
    }

    method Close(s: Record, why: Option<string>)
      requires Valid()
      modifies this`store, this`pending
      ensures
        var closed := s.(status := Closed, rejectReason := why);
        store == old(store)[s.thread := if s.status == Live then closed.(extension := None) else closed]
      ensures
        var l := old(Slice(s.thread));
        var closed := s.(status := Closed, rejectReason := why);
        Only(s.thread,
          if s.status == Live then LeaveLive(l, closed)
          else l.(session := Some(closed),
                  opens := if s.status == Pending then WithoutFirst(l.opens) else l.opens,
                  ratifies := if s.status == Signed then WithoutFirst(l.ratifies) else l.ratifies))
    {
      if s.status == Pending {
        RemoveFirst(OpenTag, s.thread);
      }
      if s.status == Signed {
        RemoveFirst(RatifyTag, s.thread);
      }
      var closed := s.(status := Closed, rejectReason := why);
      if s.status == Live {
        closed := Sweep(closed);
      }
      Upsert(closed);
    }

    method CloseUnlessEnded(s: Record, reason: Option<string>)
      requires Valid() && Stored(s.thread) == Some(s)
      modifies this`store, this`pending
      ensures
        var why := if reason.Some? then reason else if s.rejectReason.Some? then s.rejectReason else Some("thread_closed");
        var closed := s.(status := Closed, rejectReason := why);
        var l := old(Slice(s.thread));
        Only(s.thread,
          if Terminal(s.status) then l
          else if s.status == Live then LeaveLive(l, closed)
          else l.(session := Some(closed),
                  opens := if s.status == Pending then WithoutFirst(l.opens) else l.opens,
                  ratifies := if s.status == Signed then WithoutFirst(l.ratifies) else l.ratifies))
    {
      var why := if reason.Some? then reason else if s.rejectReason.Some? then s.rejectReason else Some("thread_closed");
      if Terminal(s.status) {
        return;
      }
      Close(s, why);
    }

    method HandleThreadClose(thread: string, reason: Option<string>, env: Env) returns (reply: Reply)
      requires Ready(env)
      modifies this
      ensures
        var o := ThreadClose(old(Slice(thread)), reason, env);
        Did(thread, o) && reply == o.reply
    {
      reply := Done;
      if thread !in store {
        return;
      }
      var s := EnsureLiveNotExpired(store[thread], env.now);
      CloseUnlessEnded(s, reason);
    }

    // ---- budget extension ----

    method ReplaceBudgetItem(s: Record, o: Offer, env: Env)
      requires Ready(env)
      modifies this`pending
      ensures Only(s.thread, old(Slice(s.thread)).(budgets := [BudgetItem(s, me, env.freshId, Some(o))]))
    {
      RemoveBudgets(s.thread);
      Add(BudgetItem(s, me, env.freshId, Some(o)), BudgetTag);
    }

    method HandleExtendBudget(thread: string, newMax: int, proposalId: string, env: Env) returns (reply: Reply)
      requires Ready(env)
      modifies this
      ensures
        var o := ExtendBudget(me, old(Slice(thread)), newMax, proposalId, env);
        Did(thread, o) && reply == o.reply
    {
      if thread !in store {
        return Refused("session_not_found");
      }
      var s := EnsureLiveNotExpired(store[thread], env.now);
      if s.status != Live {
        return Refused("session_not_live");
      }
      var queued := FindFirst(BudgetTag, thread);
      var myRole := RoleFor(s, me);
      if s.extension.Some? || (queued.Some? && OfferOf(queued.value).Some? && OfferOf(queued.value).value.proposer != myRole) {
        return Refused("extension_outstanding");
      }
      if newMax <= s.terms.budget.maxTurns {
        return Refused("invalid_payload");
      }
      ReplaceBudgetItem(s, Offer(proposalId, newMax, myRole), env);
      reply := Done;
    }

    /** Stores the built envelope, sends it, and records the success only after the send. */
    method EmitBudget(s: Record, o: Offer, status: ExtStatus, p: Payload, env: Env) returns (reply: Reply)
      requires Valid() && status != AwaitingPeer
      modifies this`store, this`outbox
      ensures
        var e := Emit(old(Slice(s.thread)), s, o, status, p, env);
        Did(s.thread, e) && reply == e.reply
    {
      var emitting := s.(extension := Some(Extension(o, status, Some(p))));
      Upsert(emitting);
      Notify(s, BudgetMsg(status, p), env.sendOk);
      if !env.sendOk {
        return Noted("emit_pending");
      }
      Upsert(emitting.(extension := AfterEmit(o, status)));
      reply := Done;
    }

    /** Looks at the deadline and takes the item out of the queue if the session is still live. */
    method ClaimBudgetItem(item: Item, now: int) returns (s: Record)
      requires Valid() && item in pending && Is(item, BudgetTag, item.thread) && item.thread in store
      modifies this`store, this`pending
      ensures
        var l := EnsureLive(old(Slice(item.thread)), now);
        && l.session == Some(s)
        && Only(item.thread, if s.status == Live then l.(budgets := WithoutId(l.budgets, item.id)) else l)
      ensures s.thread == item.thread
    {
      s := EnsureLiveNotExpired(store[item.thread], now);
      if s.status == Live {
        Remove(item, BudgetTag);
      }
    }

    method HandleApproveBudgetExtend(id: string, viaHuman: bool, env: Env) returns (reply: Reply)
      requires Ready(env)
      modifies this
      ensures
        var thread := Home(old(pending), BudgetTag, id);
        var o := ApproveExtend(me, old(Slice(thread)), id, viaHuman, env);
        Did(thread, o) && reply == o.reply
    {
      if !viaHuman {
        return Refused("human_required");
      }
      var found := Lookup(id, BudgetTag);
      if found.None? {
        return Refused("pending_not_found");
      }
      var item := found.value;
      if OfferOf(item).None? {
        return Refused("proposal_required");
      }
      var o := OfferOf(item).value;
      if item.thread !in store {
        return Refused("session_not_found");
      }
      var s := ClaimBudgetItem(item, env.now);
      if s.status != Live {
        return Refused("session_not_live");
      }
      if o.proposer == RoleFor(s, me) {
        reply := EmitBudget(s, o, Emitting, PayloadFor(s, o, None), env);
        return;
      }
      var raised := SetMax(s, o.newMax).(decided := AppendDecided(s.decided, o.proposalId, true));
      reply := EmitBudget(raised, o, ApprovedEmitting, PayloadFor(s, o, None), env);
    }

    method RefuseOffer(s: Record, o: Offer, why: Option<string>, env: Env) returns (reply: Reply)
      requires Valid()
      modifies this`store, this`outbox
      ensures
        var decided := s.(decided := AppendDecided(s.decided, o.proposalId, false));
        var e := Emit(old(Slice(s.thread)), decided, o, RejectedEmitting, PayloadFor(s, o, why), env);
        Did(s.thread, e) && reply == e.reply
    {
      var decided := s.(decided := AppendDecided(s.decided, o.proposalId, false));
      reply := EmitBudget(decided, o, RejectedEmitting, PayloadFor(s, o, why), env);
    }

    method HandleRejectBudgetExtend(id: string, viaHuman: bool, reason: Option<string>, env: Env) returns (reply: Reply)
      requires Ready(env)
      modifies this
      ensures
        var thread := Home(old(pending), BudgetTag, id);
        var o := RejectExtend(me, old(Slice(thread)), id, viaHuman, reason, env);
        Did(thread, o) && reply == o.reply
    {
      if !viaHuman {
        return Refused("human_required");
      }
      var found := Lookup(id, BudgetTag);
      if found.None? {
        return Refused("pending_not_found");
      }
      var item := found.value;
      if item.thread !in store {
        return Refused("session_not_found");
      }
      var s := ClaimBudgetItem(item, env.now);
      if s.status != Live {
        return Refused("session_not_live");
      }
      if OfferOf(item).None? || OfferOf(item).value.proposer == RoleFor(s, me) {
        return Done;
      }
      reply := RefuseOffer(s, OfferOf(item).value, if reason.Some? then reason else Some("rejected"), env);
    }

    method RetryBudgetExtendEmit(thread: string, env: Env) returns (reply: Reply)
      requires Ready(env)
      modifies this
      ensures
        var o := RetryExtend(old(Slice(thread)), env);
        Did(thread, o) && reply == o.reply
    {
      if thread !in store {
        return Refused("session_not_found");
      }
      var s := EnsureLiveNotExpired(store[thread], env.now);
      if s.status != Live {
        return Refused("session_not_live");
      }
      if s.extension.None? || s.extension.value.bytes.None? || s.extension.value.status == AwaitingPeer {
        return Refused("invalid_payload");
      }
      var k := s.extension.value;
      Notify(s, BudgetMsg(k.status, k.bytes.value), env.sendOk);
      if !env.sendOk {
        return Refused("relay_unavailable");
      }
      Upsert(s.(extension := AfterEmit(k.offer, k.status)));
      reply := Done;
    }

    // ---- sweeps over every thread ----

    /** Goes over a snapshot of the queue and removes, by id, every item that has to go. */
    method RemoveWhere(gone: Item -> bool) returns (ghost doomed: set<string>)
      requires UniqueIds(pending)
      modifies this`pending
      ensures UniqueIds(pending)
      ensures forall i :: i in old(pending) ==> (i.id in doomed <==> gone(i))
      ensures pending == Spared(old(pending), doomed)
    {
      var list := pending;
      doomed := {};
      SparedAll(list, doomed);
      for n := 0 to |list|
        invariant pending == Spared(list, doomed)
        invariant Marked(list, n, gone, doomed)
      {
        MarkNext(list, n, gone, doomed);
        if gone(list[n]) {
          SparedMore(list, doomed, list[n].id);
          pending := WithoutId(pending, list[n].id);
          doomed := doomed + {list[n].id};
        }
      }
      SparedUnique(list, doomed);
    }

    method ExpireOne(s: Record, env: Env)
      requires Valid() && Stored(s.thread) == Some(s)
      modifies this`store, this`pending, this`outbox
      ensures Did(s.thread, Overdue(old(Slice(s.thread)), env))
    {
      if s.status == Pending && env.now > OpenExpiry(s) {
        ExpireOpenPending(s, env);
        return;
      }
      var _ := EnsureLiveNotExpired(s, env.now);
    }

    /** The surroundings of one thread during the sweep: `reached` names the threads whose send works. */
    ghost function During(now: int, reached: set<string>, t: string): Env
    {
      Env(now, t in reached, map[], "")
    }

    /** One turn of the sweep: this thread's share of the mail grows by its notice, no other share changes. */
    method ExpireAt(t: string, env: Env)
      requires Valid() && t in store
      modifies this`store, this`pending, this`outbox
      ensures Valid() && store.Keys == old(store).Keys
      ensures
        var o := Overdue(old(Slice(t)), env);
        Slice(t) == o.local && MailOf(outbox, t) == old(MailOf(outbox, t)) + Posted(me, t, o)
      ensures forall t2 :: t2 != t ==> Slice(t2) == old(Slice(t2)) && MailOf(outbox, t2) == old(MailOf(outbox, t2))
      ensures forall i: Item :: i.kind.PairJoin? ==> (i in pending <==> i in old(pending))
    {
      ghost var mail, o := outbox, Overdue(Slice(t), env);
      ghost var before := store;
      ExpireOne(store[t], env);
      forall t2 ensures MailOf(mail + Posted(me, t, o), t2) == MailOf(mail, t2) + if t2 == t then Posted(me, t, o) else [] {
        MailAdd(mail, Posted(me, t, o), t, t2);
      }
      forall t2 ensures t2 in store <==> t2 in before {
        if t2 != t {
          assert Slice(t2) == old(Slice(t2));
        }
      }
    }

    ghost predicate Swept(before: Local, mailBefore: seq<Envelope>, t: string, now: int, reached: set<string>)
      reads this
    {
      var o := Overdue(before, During(now, reached, t));
      Slice(t) == o.local && MailOf(outbox, t) == mailBefore + Posted(me, t, o)
    }

    /** A thread the first loop has been at, or not yet. */
    ghost predicate Planned(before: Local, mailBefore: seq<Envelope>, t: string, now: int, reached: set<string>, done: bool)
      reads this
    {
      if done then Swept(before, mailBefore, t, now, reached) else Slice(t) == before && MailOf(outbox, t) == mailBefore
    }

    /** One turn of the first loop, for a thread it has not been at. */
    method ExpireNext(todo: set<string>, now: int, reached: set<string>,
                      ghost all: set<string>, ghost slices: string -> Local, ghost mails: string -> seq<Envelope>)
      returns (rest: set<string>)
      requires Valid() && todo != {} && todo <= all && store.Keys == all
      requires forall t :: Planned(slices(t), mails(t), t, now, reached, t in all && t !in todo)
      modifies this`store, this`pending, this`outbox
      ensures Valid() && rest < todo && store.Keys == all
      ensures forall t :: Planned(slices(t), mails(t), t, now, reached, t in all && t !in rest)
      ensures forall i: Item :: i.kind.PairJoin? ==> (i in pending <==> i in old(pending))
    {
      var t :| t in todo;
      assert Planned(slices(t), mails(t), t, now, reached, false);
      ExpireAt(t, Env(now, t in reached, map[], ""));
      rest := todo - {t};
      forall u ensures Planned(slices(u), mails(u), u, now, reached, u in all && u !in rest) {
        if u != t {
          assert Slice(u) == old(Slice(u)) && MailOf(outbox, u) == old(MailOf(outbox, u));
        }
      }
    }

    method ExpireOverdue(now: int, reached: set<string>)
      requires Valid()
      modifies this`store, this`pending, this`outbox
      ensures Valid()
      ensures forall t :: Swept(old(Slice(t)), old(MailOf(outbox, t)), t, now, reached)
      ensures forall i: Item :: i.kind.PairJoin? ==> (i in pending <==> i in old(pending))
    {
      ghost var st, q, out := store, pending, outbox;
      ghost var slices := (t: string) => Share(st, q, t);
      ghost var mails := (t: string) => MailOf(out, t);
      ghost var all := store.Keys;
      var todo := store.Keys;
      while todo != {}
        invariant Valid()
        invariant todo <= all && store.Keys == all
        invariant forall t :: Planned(slices(t), mails(t), t, now, reached, t in all && t !in todo)
        invariant forall i: Item :: i.kind.PairJoin? ==> (i in pending <==> i in old(pending))
        decreases todo
      {
        todo := ExpireNext(todo, now, reached, all, slices, mails);
      }
      forall t ensures Swept(old(Slice(t)), old(MailOf(outbox, t)), t, now, reached) {
        assert Planned(slices(t), mails(t), t, now, reached, t in all);
      }
    }

    /** The second loop of the sweep leaves each thread with what its session still wants. */
    method TidyQueue()
      requires Valid()
      modifies this`pending
      ensures Valid()
      ensures forall t :: Slice(t) == Tidy(me, old(Slice(t)))
      ensures forall i: Item :: i.kind.PairJoin? ==> (i in pending <==> i in old(pending))
    {
      ghost var list := pending;
      var st, self := store, me;
      ghost var doomed := RemoveWhere(i => Stale(self, st, i));
      forall t ensures Slice(t) == Tidy(me, old(Slice(t))) {
        TidyShare(me, store, list, doomed, t);
      }
    }

    method HandleExpireSessions(now: int, reached: set<string>)
      requires Valid()
      modifies this`store, this`pending, this`outbox
      ensures Valid()
      ensures forall t ::
        var o := ExpireSession(me, old(Slice(t)), During(now, reached, t));
        Slice(t) == o.local && MailOf(outbox, t) == old(MailOf(outbox, t)) + Posted(me, t, Overdue(old(Slice(t)), During(now, reached, t)))
      ensures forall i: Item :: i.kind.PairJoin? ==> (i in pending <==> i in old(pending))
    {
      ExpireOverdue(now, reached);
      TidyQueue();
    }

    /** Closes one session of a revoked bond. */
    method RevokeOne(s: Record)
      requires Valid() && Stored(s.thread) == Some(s)
      modifies this`store, this`pending
      ensures Valid() && store == old(store)[s.thread := Revoked(s)]
      ensures forall t :: t != s.thread ==> Slice(t) == old(Slice(t))
      ensures forall i: Item :: i.kind.PairJoin? ==> (i in pending <==> i in old(pending))
    {
      if !Terminal(s.status) {
        Close(s, Some("bond_revoked"));
      }
    }

    method RevokeSessions(peer: string)
      requires Valid()
      modifies this`store, this`pending
      ensures Valid()
      ensures forall t :: !With(me, old(Stored(t)), peer) ==> Slice(t) == old(Slice(t))
      ensures forall t :: With(me, old(Stored(t)), peer) ==> Stored(t) == Some(Revoked(old(store)[t]))
      ensures forall i: Item :: i.kind.PairJoin? ==> (i in pending <==> i in old(pending))
    {
      var todo := store.Keys;
      while todo != {}
        invariant Valid()
        invariant todo <= old(store).Keys && store.Keys == old(store).Keys
        invariant forall t :: t in todo ==> store[t] == old(store)[t]
        invariant forall t :: t in old(store) && t !in todo && PeerFor(old(store)[t], me) == peer ==>
                    store[t] == Revoked(old(store)[t])
        invariant forall t :: !With(me, old(Stored(t)), peer) ==> Slice(t) == old(Slice(t))
        invariant forall i: Item :: i.kind.PairJoin? ==> (i in pending <==> i in old(pending))
        decreases todo
      {
        var t :| t in todo;
        if PeerFor(store[t], me) == peer {
          RevokeOne(store[t]);
        }
        todo := todo - {t};
      }
    }

    method SeverQueue(peer: string)
      requires Valid()
      modifies this`pending
      ensures Valid()
      ensures forall t :: Slice(t) == Sever(me, old(Slice(t)), peer)
      ensures forall i: Item :: i.kind.PairJoin? ==> (i in pending <==> i in old(pending))
    {
      ghost var list := pending;
      var st, self := store, me;
      ghost var doomed := RemoveWhere(i => Severed(self, st, peer, i));
      forall t ensures Slice(t) == Sever(me, old(Slice(t)), peer) {
        SeverShare(me, store, peer, list, doomed, t);
      }
    }

    method HandleBondRevoke(peer: string)
      requires Valid()
      modifies this`store, this`pending
      ensures Valid()
      ensures forall t :: Slice(t) == BondRevoke(me, old(Slice(t)), peer)
      ensures forall i: Item :: i.kind.PairJoin? ==> (i in pending <==> i in old(pending))
    {
      RevokeSessions(peer);
      SeverQueue(peer);
    }

    // ---- incoming envelopes ----

    /** Keeps the identities of the record, which is all the rest of the machine relies on. */
    method StoreAnswer(s: Record, msg: Msg)
      requires Valid()
      modifies this`store
      ensures Only(s.thread, old(Slice(s.thread)).(session := Some(Answered(s, msg))))
    {
      Upsert(Answered(s, msg));
    }

    method AnswerOpening(s: Record, from: string, msg: Msg) returns (reply: Reply)
      requires Valid() && Stored(s.thread) == Some(s)
      modifies this`store
      ensures
        var o := OpeningAnswer(old(Slice(s.thread)), s, from, msg);
        Did(s.thread, o) && reply == o.reply
    {
      var refusal := FromRecipient(s, from);
      if refusal.Some? {
        return Refused(refusal.value);
      }
      if AlreadyAnswered(s, msg) {
        return Done;
      }
      if TooLate(s, msg) {
        return Refused("thread_closed");
      }
      StoreAnswer(s, msg);
      reply := Done;
    }

    method PeerRatified(s: Record, role: Role) returns (reply: Reply)
      requires Valid() && Stored(s.thread) == Some(s)
      modifies this`store, this`bonds, this`allowed
      ensures
        var o := IncomingRatified(me, old(Slice(s.thread)), s, role);
        Did(s.thread, o) && reply == o.reply
    {
      if s.status == Closed && Truthy(s.coSignedHash) {
        return Done;
      }
      if Terminal(s.status) {
        return Refused("thread_closed");
      }
      var updated := s.(ratified := s.ratified + {role});
      Upsert(updated);
      if BothRatified(updated) && Truthy(updated.artifactHash) {
        FinalizeSession(updated, updated.artifactHash.value);
      }
      reply := Done;
    }

    method PeerSigned(s: Record, role: Role, hash: string, env: Env)
      requires Ready(env)
      modifies this`store, this`pending
      ensures Did(s.thread, IncomingSigned(me, old(Slice(s.thread)), s, role, hash, env))
    {
      var updated := StoreSign(s, role, hash);
      if updated.status == Signed {
        EnsureRatifyPending(updated, env);
      }
    }

    method PeerTurn(s: Record, env: Env) returns (reply: Reply)
      requires Ready(env) && Stored(s.thread) == Some(s)
      modifies this`store, this`pending
      ensures
        var o := CountPeerTurn(me, old(Slice(s.thread)), s, env);
        Did(s.thread, o) && reply == o.reply
    {
      if s.status != Live {
        return Refused("session_not_live");
      }
      var ok := GuardTurns(s, env);
      if !ok {
        return Refused("budget_exhausted");
      }
      Upsert(s.(turnCount := s.turnCount + 1));
      reply := Done;
    }

    /** Files the sender's challenge or report in the sender's own slot. */
    method FileForPeer(s: Record, role: Role, msg: Msg)
      requires Valid() && (msg.Challenge? || msg.ReportMsg?)
      modifies this`store
      ensures Only(s.thread, old(Slice(s.thread)).(session := Some(
                if msg.Challenge? then s.(challenges := s.challenges + {role})
                else s.(reports := SetRunnerReport(s.reports, msg.report.artifactHash, msg.report.runner, role, msg.report)))))
    {
      if msg.Challenge? {
        Upsert(s.(challenges := s.challenges + {role}));
      } else {
        Upsert(s.(reports := SetRunnerReport(s.reports, msg.report.artifactHash, msg.report.runner, role, msg.report)));
      }
    }

    method Negotiate(s: Record, from: string, msg: Msg, env: Env) returns (reply: Reply)
      requires Ready(env) && Stored(s.thread) == Some(s)
      modifies this
      ensures
        var o := Negotiation(me, old(Slice(s.thread)), s, from, msg, env);
        Did(s.thread, o) && reply == o.reply
    {
      var role := Participant(s, from);
      if role.None? {
        return Refused("not_a_participant");
      }
      if msg.RatifiedMsg? {
        reply := PeerRatified(s, role.value);
        return;
      }
      if Terminal(s.status) {
        return Refused("thread_closed");
      }
      reply := TakePeerWord(s, role.value, msg, env);
    }

    method TakePeerWord(s: Record, role: Role, msg: Msg, env: Env) returns (reply: Reply)
      requires Ready(env) && Stored(s.thread) == Some(s)
      modifies this
      ensures
        var o := PeerWord(me, old(Slice(s.thread)), s, role, msg, env);
        Did(s.thread, o) && reply == o.reply
    {
      if msg.Challenge? || msg.ReportMsg? {
        FileForPeer(s, role, msg);
        reply := Done;
      } else if msg.SignedMsg? {
        PeerSigned(s, role, msg.hash, env);
        reply := Done;
      } else {
        reply := PeerTurn(s, env);
      }
    }

    method HandleIncomingBudgetPropose(thread: string, from: string, p: Payload, env: Env) returns (reply: Reply)
      requires Ready(env)
      modifies this`store, this`pending, this`outbox
      ensures
        var o := IncomingPropose(me, old(Slice(thread)), from, p, env);
        Did(thread, o) && reply == o.reply
    {
      hide Considered;
      var refusal := ScreenBudget(thread, from, p);
      if refusal.Some? {
        return Refused(refusal.value);
      }
      reply := ConsiderOffer(store[thread], p, Participant(store[thread], from).value, env);
    }

    method QueuedOffer(thread: string) returns (queued: Option<Offer>)
      requires Valid()
      ensures queued == FirstOffer(Slice(thread))
    {
      var existing := FindFirst(BudgetTag, thread);
      queued := if existing.Some? then OfferOf(existing.value) else None;
    }

    /** Drops a proposal that is stale or known, and races or queues any other. */
    method ConsiderOffer(s: Record, p: Payload, peerRole: Role, env: Env) returns (reply: Reply)
      requires Ready(env) && Stored(s.thread) == Some(s)
      modifies this`store, this`pending, this`outbox
      ensures
        var o := Considered(me, old(Slice(s.thread)), s, p, peerRole, env);
        Did(s.thread, o) && reply == o.reply
    {
      if p.newMax <= s.terms.budget.maxTurns || Knows(s.decided, p.proposalId) {
        return Noted("dropped");
      }
      var queued := QueuedOffer(s.thread);
      if queued.Some? && queued.value.proposalId == p.proposalId && queued.value.newMax == p.newMax {
        return Noted("noop");
      }
      if s.extension.Some? && s.extension.value.offer.proposalId == p.proposalId
         && s.extension.value.status == AwaitingPeer {
        return Noted("noop");
      }
      var mine := queued.Some? && queued.value.proposer == RoleFor(s, me);
      reply := AcceptOffer(s, p, Offer(p.proposalId, p.newMax, peerRole), mine, env);
    }

    /** Queues a proposal that is neither stale nor known, after settling a race with an own one. */
    method AcceptOffer(s: Record, p: Payload, offer: Offer, mine: bool, env: Env) returns (reply: Reply)
      requires Ready(env) && Stored(s.thread) == Some(s)
      modifies this`store, this`pending, this`outbox
      ensures
        var o := Raced(me, old(Slice(s.thread)), s, p, offer.proposer, mine, env);
        offer == Offer(p.proposalId, p.newMax, offer.proposer) ==> Did(s.thread, o) && reply == o.reply
    {
      if OwnExtension(s, me) {
        reply := ResolveRace(s, p, offer, env);
        return;
      }
      ReplaceBudgetItem(s, offer, env);
      reply := Noted(if mine then "superseded" else "pending");
    }

    /** Crossing proposals: the initiator's own one wins, the recipient gives way. */
    method ResolveRace(s: Record, p: Payload, offer: Offer, env: Env) returns (reply: Reply)
      requires Ready(env) && s.extension.Some?
      modifies this`store, this`pending, this`outbox
      ensures
        var l := old(Slice(s.thread));
        var kept := s.(decided := AppendDecided(s.decided, p.proposalId, false));
        var cleared := s.(extension := None, decided := AppendDecided(s.decided, s.extension.value.offer.proposalId, false));
        && Did(s.thread,
             if s.initiator == me then
               Out(l.(session := Some(kept)),
                   Send(env, BudgetReject(Payload(s.thread, p.proposalId, p.newMax, Some("superseded")))), Done, false)
             else
               Quiet(l.(session := Some(cleared), budgets := [BudgetItem(cleared, me, env.freshId, Some(offer))]), Done))
        && reply == Noted(if s.initiator == me then "initiator_wins" else "superseded")
    {
      if s.initiator == me {
        Notify(s, BudgetReject(Payload(s.thread, p.proposalId, p.newMax, Some("superseded"))), env.sendOk);
        Upsert(s.(decided := AppendDecided(s.decided, p.proposalId, false)));
        return Noted("initiator_wins");
      }
      var cleared := s.(extension := None, decided := AppendDecided(s.decided, s.extension.value.offer.proposalId, false));
      Upsert(cleared);
      ReplaceBudgetItem(cleared, offer, env);
      reply := Noted("superseded");
    }

    /** The checks in front of every incoming budget envelope. */
    method ScreenBudget(thread: string, from: string, p: Payload) returns (refusal: Option<string>)
      ensures refusal == Screen(Slice(thread), from, p)
    {
      if thread !in store {
        return Some("session_not_found");
      }
      var s := store[thread];
      if s.status != Live {
        return Some("session_not_live");
      }
      if p.thread != s.thread {
        return Some("invalid_payload");
      }
      if Participant(s, from).None? {
        return Some("not_a_participant");
      }
      return None;
    }

    method HandleIncomingBudgetApproved(thread: string, from: string, p: Payload) returns (reply: Reply)
      requires Valid()
      modifies this`store
      ensures
        var o := IncomingApproved(old(Slice(thread)), from, p);
        Did(thread, o) && reply == o.reply
    {
      var refusal := ScreenBudget(thread, from, p);
      if refusal.Some? {
        return Refused(refusal.value);
      }
      var s := store[thread];
      if s.terms.budget.maxTurns >= p.newMax {
        return Noted("dropped");
      }
      if s.extension.None? || s.extension.value.offer.proposalId != p.proposalId {
        return Noted("dropped");
      }
      if s.extension.value.status != AwaitingPeer {
        return Noted("dropped");
      }
      Upsert(SetMax(s, p.newMax).(extension := None, decided := AppendDecided(s.decided, p.proposalId, true)));
      reply := Done;
    }

    method HandleIncomingBudgetReject(thread: string, from: string, p: Payload) returns (reply: Reply)
      requires Valid()
      modifies this`store
      ensures
        var o := IncomingReject(old(Slice(thread)), from, p);
        Did(thread, o) && reply == o.reply
    {
      var refusal := ScreenBudget(thread, from, p);
      if refusal.Some? {
        return Refused(refusal.value);
      }
      var s := store[thread];
      if s.extension.None? || s.extension.value.offer.proposalId != p.proposalId {
        return Noted("dropped");
      }
      Upsert(s.(extension := None, decided := AppendDecided(s.decided, p.proposalId, false)));
      reply := Done;
    }

    method DispatchBudget(thread: string, from: string, msg: Msg, env: Env) returns (reply: Reply)
      requires Ready(env) && (msg.BudgetPropose? || msg.BudgetApproved? || msg.BudgetReject?)
      modifies this
      ensures
        var l := old(Slice(thread));
        var o := if msg.BudgetPropose? then IncomingPropose(me, l, from, msg.payload, env)
                 else if msg.BudgetApproved? then IncomingApproved(l, from, msg.payload)
                 else IncomingReject(l, from, msg.payload);
        Did(thread, o) && reply == o.reply
    {
      if msg.BudgetPropose? {
        reply := HandleIncomingBudgetPropose(thread, from, msg.payload, env);
      } else if msg.BudgetApproved? {
        reply := HandleIncomingBudgetApproved(thread, from, msg.payload);
      } else {
        reply := HandleIncomingBudgetReject(thread, from, msg.payload);
      }
    }

    method DispatchOther(thread: string, from: string, msg: Msg, env: Env) returns (reply: Reply)
      requires Ready(env)
      modifies this
      ensures
        var l := old(Slice(thread));
        var o := if l.session.None? then Quiet(l, Refused("session_not_found"))
                 else if msg.OpenApproved? || msg.OpenReject? || msg.OpenExpiredMsg? then OpeningAnswer(l, l.session.value, from, msg)
                 else Negotiation(me, l, l.session.value, from, msg, env);
        Did(thread, o) && reply == o.reply
    {
      if thread !in store {
        return Refused("session_not_found");
      }
      reply := DispatchStored(store[thread], from, msg, env);
    }

    method DispatchStored(s: Record, from: string, msg: Msg, env: Env) returns (reply: Reply)
      requires Ready(env) && Stored(s.thread) == Some(s)
      modifies this
      ensures
        var l := old(Slice(s.thread));
        var o := if msg.OpenApproved? || msg.OpenReject? || msg.OpenExpiredMsg? then OpeningAnswer(l, s, from, msg)
                 else Negotiation(me, l, s, from, msg, env);
        Did(s.thread, o) && reply == o.reply
    {
      if msg.OpenApproved? || msg.OpenReject? || msg.OpenExpiredMsg? {
        reply := AnswerOpening(s, from, msg);
      } else {
        reply := Negotiate(s, from, msg, env);
      }
    }

    /** Everything after the deadline check; the budget handlers' own second check then finds nothing to do. */
    method Dispatch(thread: string, from: string, msg: Msg, env: Env) returns (reply: Reply)
      requires Ready(env)
      modifies this
      ensures
        var o := Deliver(me, old(Slice(thread)), thread, from, msg, env);
        Did(thread, o) && reply == o.reply
    {
      hide IncomingOpen, IncomingPropose, IncomingApproved, IncomingReject, OpeningAnswer, Negotiation;
      if msg.Malformed? {
        return Refused("invalid_payload");
      }
      if msg.NegoOpen? {
        reply := HandleIncomingOpen(thread, from, msg.terms, env);
      } else if msg.BudgetPropose? || msg.BudgetApproved? || msg.BudgetReject? {
        reply := DispatchBudget(thread, from, msg, env);
      } else {
        reply := DispatchOther(thread, from, msg, env);
      }
    }

    method HandleIncomingEnvelope(thread: string, from: string, msg: Msg, env: Env) returns (reply: Reply)
      requires Ready(env)
      modifies this
      ensures
        var o := Receive(me, old(Slice(thread)), thread, from, msg, env);
        Did(thread, o) && reply == o.reply
    {
      if thread in store {
        var _ := EnsureLiveNotExpired(store[thread], env.now);
      }
      reply := Dispatch(thread, from, msg, env);
    }
  }
}

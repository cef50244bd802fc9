/** The registry of pairing codes with its tombstones, and why a code is good for one flow. */
module PairingRegistry {
  import opened Options

  datatype Pending = Pending(code: string, sessionId: string, initiatorId: string, expiresAt: int, rolledBack: bool)

  /** Entries by code, and tombstones: consumed code to the expiry of the entry it had. */
  datatype Book = Book(entries: map<string, Pending>, tombs: map<string, int>)

  datatype Found = NotFound | Expired | Live(pending: Pending)

  function Purged(b: Book, code: string, now: int): Book {
    if code in b.tombs && b.tombs[code] < now then b.(tombs := b.tombs - {code}) else b
  }

  function Consumed(b: Book, code: string, now: int): Book {
    var p := Purged(b, code, now);
    if code in p.entries then
      Purged(Book(p.entries - {code}, p.tombs[code := p.entries[code].expiresAt]), code, now)
    else p
  }

  function Visible(b: Book, code: string, now: int): Option<Pending> {
    var p := Purged(b, code, now);
    if code in p.tombs || code !in p.entries then None else Some(p.entries[code])
  }

  function Updated(b: Book, code: string, rolledBack: bool): Book {
    if code in b.entries then b.(entries := b.entries[code := b.entries[code].(rolledBack := rolledBack)]) else b
  }

  /** How a flow starts: an entry past its expiry is tombstoned on sight. */
  function Started(b: Book, code: string, now: int): (Book, Found) {
    var p := Purged(b, code, now);
    if code in p.tombs || code !in p.entries then (p, NotFound)
    else if p.entries[code].expiresAt < now then (Consumed(p, code, now), Expired)
    else (p, Live(p.entries[code]))
  }

  /** How a joiner makes sure it knows the code, registering the relay's manifest if there is one. */
  function Rejoined(b: Book, code: string, manifest: Option<Pending>, now: int): (Book, bool) {
    var p := Purged(b, code, now);
    if code in p.tombs then (p, false)
    else if code in p.entries then
      if p.entries[code].expiresAt < now then (Consumed(p, code, now), false) else (p, true)
    else if manifest.None? || manifest.value.expiresAt < now then (p, false)
    else (p.(entries := p.entries[manifest.value.code := manifest.value]), true)
  }

  class Registry {
    var entries: map<string, Pending>
    var tombstones: map<string, int>

    constructor ()
      ensures Contents() == Book(map[], map[])
    {
      entries, tombstones := map[], map[];
    }

    function Contents(): Book
      reads this
    {
      Book(entries, tombstones)
    }

    method Purge(code: string, now: int)
      modifies this`tombstones
      ensures Contents() == Purged(old(Contents()), code, now)
    {
      if code in tombstones && tombstones[code] < now {
        tombstones := tombstones - {code};
      }
    }

    method Register(entry: Pending)
      modifies this`entries
      ensures Contents() == old(Contents()).(entries := old(entries)[entry.code := entry])
    {
      entries := entries[entry.code := entry];
    }

    method Lookup(code: string, now: int) returns (found: Option<Pending>)
      modifies this`tombstones
      ensures Contents() == Purged(old(Contents()), code, now)
      ensures found == Visible(old(Contents()), code, now)
    {
      Purge(code, now);
      if code in tombstones {
        return None;
      }
      found := if code in entries then Some(entries[code]) else None;
    }

    method Update(code: string, rolledBack: bool)
      modifies this`entries
      ensures Contents() == Updated(old(Contents()), code, rolledBack)
    {
      if code !in entries {
        return;
      }
      entries := entries[code := entries[code].(rolledBack := rolledBack)];
    }

    method Consume(code: string, now: int)
      modifies this
      ensures Contents() == Consumed(old(Contents()), code, now)
    {
      Purge(code, now);
      if code in entries {
        var expiresAt := entries[code].expiresAt;
        entries := entries - {code};
        tombstones := tombstones[code := expiresAt];
        Purge(code, now);
      }
    }

    method IsConsumed(code: string, now: int) returns (yes: bool)
      modifies this`tombstones
      ensures Contents() == Purged(old(Contents()), code, now)
      ensures yes <==> code in tombstones
    {
      Purge(code, now);
      yes := code in tombstones;
    }
  }

  method LookupPending(r: Registry, code: string, now: int) returns (found: Found)
    modifies r
    ensures (r.Contents(), found) == Started(old(r.Contents()), code, now)
  {
    var consumed := r.IsConsumed(code, now);
    if consumed {
      return NotFound;
    }
    var pending := r.Lookup(code, now);
    if pending.None? {
      return NotFound;
    }
    if pending.value.expiresAt < now {
      r.Consume(code, now);
      return Expired;
    }
    return Live(pending.value);
  }

  method EnsureJoinerRegistry(r: Registry, code: string, manifest: Option<Pending>, now: int) returns (ok: bool)
    modifies r
    ensures (r.Contents(), ok) == Rejoined(old(r.Contents()), code, manifest, now)
  {
    var consumed := r.IsConsumed(code, now);
    if consumed {
      return false;
    }
    var existing := r.Lookup(code, now);
    if existing.Some? {
      if existing.value.expiresAt < now {
        r.Consume(code, now);
        return false;
      }
      return true;
    }
    if manifest.None? || manifest.value.expiresAt < now {
      return false;
    }
    r.Register(manifest.value);
    return true;
  }

  /** Marking an entry as rolled back leaves no trace once its code is burnt. */
  lemma UpdateThenConsume(b: Book, code: string, rolledBack: bool, now: int)
    ensures Consumed(Updated(b, code, rolledBack), code, now) == Consumed(b, code, now)
  {
  }

  /** The mark is seen with the entry, which is otherwise as startable as before, and no other code is touched. */
  lemma UpdateMarksOne(b: Book, code: string, rolledBack: bool, other: string, now: int)
    ensures var u := Updated(b, code, rolledBack);
            && (code in b.entries ==> code in u.entries && u.entries[code].rolledBack == rolledBack)
            && (Started(b, code, now).1.Live? ==>
                  Started(u, code, now).1 == Live(Started(b, code, now).1.pending.(rolledBack := rolledBack)))
            && (other != code ==> Started(u, other, now).1 == Started(b, other, now).1)
            && (code !in b.entries ==> u == b)
  {
  }

  // ---- runs ----

  datatype Op =
    | DoRegister(entry: Pending)
    | DoLookup(code: string)
    | DoUpdate(code: string, rolledBack: bool)
    | DoConsume(code: string)
    | DoStart(code: string)
    | DoRejoin(code: string, manifest: Option<Pending>)

  datatype Call = Call(op: Op, now: int)

  function Apply(b: Book, c: Call): Book {
    match c.op
    case DoRegister(entry) => b.(entries := b.entries[entry.code := entry])
    case DoLookup(code) => Purged(b, code, c.now)
    case DoUpdate(code, rolledBack) => Updated(b, code, rolledBack)
    case DoConsume(code) => Consumed(b, code, c.now)
    case DoStart(code) => Started(b, code, c.now).0
    case DoRejoin(code, manifest) => Rejoined(b, code, manifest, c.now).0
  }

  function Run(b: Book, cs: seq<Call>): Book
    decreases |cs|
  {
    if cs == [] then b else Run(Apply(b, cs[0]), cs[1..])
  }

  /** The clock never goes back, and every registration of `code` carries the one expiry `e`. */
  ghost predicate Fit(cs: seq<Call>, from: int, code: string, e: int)
    decreases |cs|
  {
    cs != [] ==>
      && from <= cs[0].now
      && (cs[0].op.DoRegister? && cs[0].op.entry.code == code ==> cs[0].op.entry.expiresAt == e)
      && (cs[0].op.DoRejoin? && cs[0].op.manifest.Some? && cs[0].op.manifest.value.code == code ==>
            cs[0].op.manifest.value.expiresAt == e)
      && Fit(cs[1..], cs[0].now, code, e)
  }

  function Clock(from: int, cs: seq<Call>): int
    decreases |cs|
  {
    if cs == [] then from else Clock(cs[0].now, cs[1..])
  }

  ghost predicate Dated(b: Book, code: string, e: int) {
    && (code in b.entries ==> b.entries[code].expiresAt == e)
    && (code in b.tombs ==> b.tombs[code] == e)
  }

  /** The code was used up: tombstoned, or so old that no registration of it is live. */
  ghost predicate Spent(b: Book, code: string, e: int, now: int) {
    Dated(b, code, e) && (code in b.tombs || e < now)
  }

  /** A flow holds the code: its entry is there, or another flow used it up meanwhile. */
  ghost predicate Held(b: Book, code: string, e: int, now: int) {
    Dated(b, code, e) && (code in b.entries || Spent(b, code, e, now))
  }

  lemma ApplyDated(b: Book, c: Call, from: int, code: string, e: int)
    requires Dated(b, code, e) && Fit([c], from, code, e)
    ensures Dated(Apply(b, c), code, e)
  {
  }

  lemma ApplySpent(b: Book, c: Call, from: int, code: string, e: int)
    requires Spent(b, code, e, from) && Fit([c], from, code, e)
    ensures Spent(Apply(b, c), code, e, c.now)
  {
    hide Rejoined;
    if c.op.DoRejoin? {
      RejoinSpent(b, c.op.code, c.op.manifest, from, c.now, code, e);
    }
  }

  lemma RejoinSpent(b: Book, joined: string, manifest: Option<Pending>, from: int, now: int, code: string, e: int)
    requires Spent(b, code, e, from) && from <= now
    requires manifest.Some? && manifest.value.code == code ==> manifest.value.expiresAt == e
    ensures Spent(Rejoined(b, joined, manifest, now).0, code, e, now)
  {
  }

  lemma ApplyEntry(b: Book, c: Call, from: int, code: string, e: int)
    requires code in b.entries && b.entries[code].expiresAt == e && Fit([c], from, code, e)
    ensures code in Apply(b, c).entries || code in Apply(b, c).tombs || e < c.now
  {
  }

  lemma ApplyHeld(b: Book, c: Call, from: int, code: string, e: int)
    requires Held(b, code, e, from) && Fit([c], from, code, e)
    ensures Held(Apply(b, c), code, e, c.now)
  {
    hide Apply;
    ApplyDated(b, c, from, code, e);
    if Spent(b, code, e, from) { ApplySpent(b, c, from, code, e); } else { ApplyEntry(b, c, from, code, e); }
  }

  lemma ApplyKeeps(b: Book, c: Call, from: int, code: string, e: int)
    requires Dated(b, code, e) && Fit([c], from, code, e)
    ensures Dated(Apply(b, c), code, e)
    ensures Spent(b, code, e, from) ==> Spent(Apply(b, c), code, e, c.now)
    ensures Held(b, code, e, from) ==> Held(Apply(b, c), code, e, c.now)
  {
    hide Apply;
    ApplyDated(b, c, from, code, e);
    if Spent(b, code, e, from) { ApplySpent(b, c, from, code, e); }
    if Held(b, code, e, from) { ApplyHeld(b, c, from, code, e); }
  }

  lemma {:induction false} RunKeeps(b: Book, cs: seq<Call>, from: int, code: string, e: int)
    requires Dated(b, code, e) && Fit(cs, from, code, e)
    ensures Dated(Run(b, cs), code, e)
    ensures Spent(b, code, e, from) ==> Spent(Run(b, cs), code, e, Clock(from, cs))
    ensures Held(b, code, e, from) ==> Held(Run(b, cs), code, e, Clock(from, cs))
    decreases |cs|
  {
    if cs != [] {
      ApplyKeeps(b, cs[0], from, code, e);
      RunKeeps(Apply(b, cs[0]), cs[1..], cs[0].now, code, e);
    }
  }

  lemma ConsumedIsSpent(b: Book, code: string, e: int, from: int, now: int)
    requires Held(b, code, e, from) && from <= now
    ensures Spent(Consumed(b, code, now), code, e, now)
  {
  }

  lemma SpentIsNotLive(b: Book, code: string, e: int, now: int, later: int)
    requires Spent(b, code, e, now) && now <= later
    ensures !Started(b, code, later).1.Live?
  {
  }

  /**
   * Once a flow that was given the pending entry has ended and burned the code, no later start of a flow
   * is given a live entry for it, whatever else the registry is asked and whoever registers it again.
   */
  lemma SingleUse(before: seq<Call>, t0: int, during: seq<Call>, t1: int, after: seq<Call>, t2: int, code: string, e: int)
    requires Fit(before, t0, code, e)
    requires var b := Run(Book(map[], map[]), before);
             && Clock(t0, before) <= t1 && Started(b, code, t1).1.Live?
             && Fit(during, t1, code, e) && Clock(t1, during) <= t2 && Fit(after, t2, code, e)
    ensures var b := Run(Book(map[], map[]), before);
            var ended := Consumed(Run(Started(b, code, t1).0, during), code, t2);
            forall t3 :: Clock(t2, after) <= t3 ==> !Started(Run(ended, after), code, t3).1.Live?
  {
    var empty := Book(map[], map[]);
    RunKeeps(empty, before, t0, code, e);
    var held := Started(Run(empty, before), code, t1).0;
    RunKeeps(held, during, t1, code, e);
    var ended := Consumed(Run(held, during), code, t2);
    ConsumedIsSpent(Run(held, during), code, e, Clock(t1, during), t2);
    RunKeeps(ended, after, t2, code, e);
    forall t3 | Clock(t2, after) <= t3 ensures !Started(Run(ended, after), code, t3).1.Live? {
      SpentIsNotLive(Run(ended, after), code, e, Clock(t2, after), t3);
    }
  }

  /** An unexpired registration of a code without tombstone is live. */
  lemma FreshIsLive(b: Book, p: Pending, now: int)
    requires p.code !in b.tombs && now <= p.expiresAt
    ensures Started(b.(entries := b.entries[p.code := p]), p.code, now).1 == Live(p)
  {
  }

  /** An entry found past its expiry is found so once: afterwards the code is unknown, until it is registered again. */
  lemma ExpiredOnce(b: Book, code: string, now: int, later: int)
    requires Started(b, code, now).1.Expired? && now <= later
    ensures Started(Started(b, code, now).0, code, later).1.NotFound?
  {
  }

  /** A look at the registry sees exactly the entries a flow could start or would find expired. */
  lemma VisibleIsStartable(b: Book, code: string, now: int)
    ensures Visible(b, code, now).None? <==> Started(b, code, now).1.NotFound?
    ensures forall p :: Started(b, code, now).1 == Live(p) <==> Visible(b, code, now) == Some(p) && now <= p.expiresAt
  {
  }

  /** A flow that ends by exception burns nothing: its code can be started again until it expires. */
  lemma UnburntIsLive(b: Book, code: string, now: int, again: int)
    requires Started(b, code, now).1.Live? && now <= again <= Started(b, code, now).1.pending.expiresAt
    ensures Started(Started(b, code, now).0, code, again) == Started(b, code, now)
  {
  }

  /** A manifest is taken over under a code of its own: the one asked for is unknown, and the relay's is in time. */
  predicate Misnamed(b: Book, code: string, manifest: Option<Pending>, now: int) {
    && manifest.Some? && manifest.value.code != code && now <= manifest.value.expiresAt
    && code !in b.entries && code !in Purged(b, code, now).tombs
  }

  /**
   * The joiner is told that it knows the code exactly when a flow can be started with it right afterwards,
   * unless the relay answered with an unexpired manifest of another code for a code that was not known: then, and only
   * then, the answer is yes although nothing can be started.
   */
  lemma RejoinAnswersStartableIff(b: Book, code: string, manifest: Option<Pending>, now: int)
    ensures var (after, ok) := Rejoined(b, code, manifest, now);
            var startable := Started(after, code, now).1.Live?;
            && (startable ==> ok)
            && (ok == startable <==> !Misnamed(b, code, manifest, now))
            && (startable && code !in b.entries ==> Started(after, code, now).1 == Live(manifest.value))
            && (code in b.entries && startable ==> Started(after, code, now).1 == Live(b.entries[code]))
  {
  }

  /**
   * An entry past its expiry leaves no block behind, since its tombstone is as old as itself: the next join, at the same
   * or a later time, asks the relay again and is answered yes exactly when the manifest is in time by then.
   */
  lemma ExpiredEntryBlocksNothing(b: Book, code: string, manifest: Option<Pending>, now: int, again: int)
    requires code in b.entries && code !in Purged(b, code, now).tombs && b.entries[code].expiresAt < now <= again
    ensures var (after, ok) := Rejoined(b, code, None, now);
            && !ok && code !in after.entries && code !in after.tombs
            && (Rejoined(after, code, manifest, again).1 <==> manifest.Some? && again <= manifest.value.expiresAt)
  {
  }

  /** The shared expiry matters: a manifest that claims a later one revives a used code after the purge. */
  lemma LaterExpiryRevives(code: string)
    ensures var p := Pending(code, "s", "i", 10, false);
            var started := Started(Book(map[code := p], map[]), code, 5);
            var ended := Consumed(started.0, code, 6);
            && started.1 == Live(p)
            && Started(Rejoined(ended, code, Some(p.(expiresAt := 20)), 11).0, code, 11).1.Live?
  {
  }
}

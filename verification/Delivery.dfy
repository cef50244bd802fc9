/**
 * Senders, the relay's log and one receiving agent together: with an honest relay, fixed allowlists and
 * automatically assigned sequence numbers, every stored envelope is accepted exactly once and in order.
 */
module Delivery {
  import opened Options
  import opened Receive
  import opened RelayInbox
  import opened InboxClient
  import opened ThreadSeq

  /** The receiving agent, the peers it is bonded with, and the senders its relay allowlist admits. */
  datatype World = World(self: string, peers: set<string>, allowed: set<string>)

  datatype Draft = Draft(id: string, from: string, to: string, thread: string, ttl: int, payload: string, bytes: nat)

  /** `high` holds each sender's high-water marks; `accepted` everything the receiver took, in order. */
  datatype Sys = Sys(rows: seq<Row>, high: map<string, map<string, int>>, cursor: int, streams: map<string, int>, accepted: seq<Body>)

  datatype Move = Send(draft: Draft, reached: bool) | Pull(since: Option<int>, now: int)

  const START := Sys([], map[], 0, map[], [])

  function HighOf(high: map<string, map<string, int>>, from: string): map<string, int> {
    if from in high then high[from] else map[]
  }

  function BodyOf(s: Sys, d: Draft): Body {
    Body(1, d.id, d.from, d.to, d.thread, HighWater(HighOf(s.high, d.from), d.thread) + 1, d.ttl, d.payload)
  }

  /** A wire as an honest sender builds it. */
  function WireOf(b: Body, bytes: nat): Wire {
    Wire(bytes, Some(1), Some(Outer(1, b.from, b.to, Some(b.from), Some(b))))
  }

  /** Everything decrypts, resolves and dispatches. */
  function Works(): React {
    (w: Wire) => Reaction(true, None, None)
  }

  predicate Enabled(w: World, s: Sys, mv: Move) {
    match mv
    case Send(d, _) =>
      ValidId(d.from) && d.bytes <= MAX_WIRE_BYTES && forall r :: r in s.rows ==> r.body.id != d.id
    case Pull(_, now) => Fresh(s, now)
  }

  /** No stored envelope has expired. */
  predicate Fresh(s: Sys, now: int) {
    forall r :: r in s.rows ==> now < r.body.ttl
  }

  /** A send counts, and raises the high-water mark, only if it reached the relay and was stored. */
  function Sent(w: World, s: Sys, d: Draft, reached: bool): Sys {
    if !reached then s
    else
      var b := BodyOf(s, d);
      var (rows, answer) := Posted(s.rows, WireOf(b, d.bytes), d.to, if d.to == w.self then w.allowed else {d.from});
      if answer != Stored then s
      else s.(rows := rows, high := s.high[d.from := Raised(HighOf(s.high, d.from), d.thread, b.seqNo)])
  }

  function InsOf(w: World, s: Sys, since: nat, now: int): seq<Arrival> {
    var filter := if w.peers == {} then None else Some(w.peers);
    Arrivals(Bonded(Visible(Page(s.rows, w.self, since), w.allowed, filter), w.peers), w.peers, now, Works())
  }

  function Pulled(w: World, s: Sys, since: Option<int>, now: int): Sys {
    var used := NormalizeSince(if since.Some? then since.value else s.cursor);
    var ins := InsOf(w, s, used, now);
    s.(cursor := PageEnd(Page(s.rows, w.self, used), used), streams := Store(w.self, s.streams, ins),
       accepted := s.accepted + AcceptedOf(w.self, s.streams, ins))
  }

  function Next(w: World, s: Sys, mv: Move): Sys {
    match mv
    case Send(d, reached) => Sent(w, s, d, reached)
    case Pull(since, now) => Pulled(w, s, since, now)
  }

  /** How much of the log the cursor covers; it may lie beyond the end. */
  function Upto(s: Sys): nat {
    if s.cursor < 0 then 0 else if s.cursor <= |s.rows| then s.cursor else |s.rows|
  }

  /** No row due to the receiver falls, now or later, between its cursor and the one a pull starts from. */
  predicate Harmless(w: World, s: Sys, mv: Move) {
    match mv
    case Send(d, _) => |s.rows| < s.cursor ==> d.to != w.self || d.from !in w.peers
    case Pull(since, _) =>
      since.Some? ==> forall i :: Upto(s) <= i < |s.rows| && i < NormalizeSince(since.value) ==> !Due(w, s.rows[i])
  }

  ghost predicate Legal(w: World, s: Sys, mvs: seq<Move>)
    decreases |mvs|
  {
    mvs != [] ==> Enabled(w, s, mvs[0]) && Harmless(w, s, mvs[0]) && Legal(w, Next(w, s, mvs[0]), mvs[1..])
  }

  ghost function Play(w: World, s: Sys, mvs: seq<Move>): Sys
    decreases |mvs|
  {
    if mvs == [] then s else Play(w, Next(w, s, mvs[0]), mvs[1..])
  }

  // ---- what ought to arrive ----

  predicate Due(w: World, r: Row) {
    r.recipient == w.self && r.body.from in w.peers
  }

  /** The bodies stored for the receiver by its peers, in the order they were stored. */
  function DueOf(w: World, rows: seq<Row>): seq<Body> {
    if rows == [] then []
    else
      var r := DueOf(w, rows[..|rows| - 1]);
      if Due(w, rows[|rows| - 1]) then r + [rows[|rows| - 1].body] else r
  }

  /** Rows that were skipped: those at positions from `lo` up to, but not including, `hi`. */
  datatype Gap = Gap(lo: nat, hi: nat)

  const NO_GAP := Gap(0, 0)

  predicate InGap(g: Gap, i: int) {
    g.lo <= i < g.hi
  }

  /** What is due outside the gap. */
  function TakenOf(w: World, rows: seq<Row>, g: Gap): seq<Body> {
    if rows == [] then []
    else
      var r := TakenOf(w, rows[..|rows| - 1], g);
      if Due(w, rows[|rows| - 1]) && !InGap(g, |rows| - 1) then r + [rows[|rows| - 1].body] else r
  }

  lemma {:induction false} TakenIsLess(w: World, rows: seq<Row>, g: Gap)
    ensures |TakenOf(w, rows, g)| <= |DueOf(w, rows)|
  {
    if rows != [] {
      TakenIsLess(w, rows[..|rows| - 1], g);
    }
  }

  ghost predicate NothingDueIn(w: World, rows: seq<Row>, g: Gap) {
    forall i :: 0 <= i < |rows| && InGap(g, i) ==> !Due(w, rows[i])
  }

  lemma SameLast(a: seq<Body>, b: seq<Body>, x: Body)
    ensures a + [x] == b + [x] <==> a == b
  {
    if a + [x] == b + [x] {
      assert (a + [x])[..|a|] == a && (b + [x])[..|b|] == b;
    }
  }

  /** Everything due was taken exactly if nothing due lies in the gap. */
  lemma {:induction false} TakenIsDueIff(w: World, rows: seq<Row>, g: Gap)
    ensures TakenOf(w, rows, g) == DueOf(w, rows) <==> NothingDueIn(w, rows, g)
  {
    if rows != [] {
      var rest, last := rows[..|rows| - 1], rows[|rows| - 1];
      TakenIsDueIff(w, rest, g);
      TakenIsLess(w, rest, g);
      SameLast(TakenOf(w, rest, g), DueOf(w, rest), last.body);
      assert NothingDueIn(w, rows, g) <==> NothingDueIn(w, rest, g) && (InGap(g, |rest|) ==> !Due(w, last)) by {
        assert forall i :: 0 <= i < |rest| ==> rest[i] == rows[i];
      }
    }
  }

  /** The last sequence number of a stream in a list of bodies. */
  function LastIn(bs: seq<Body>, thread: string, from: string): int {
    if bs == [] then 0
    else if bs[|bs| - 1].thread == thread && bs[|bs| - 1].from == from then bs[|bs| - 1].seqNo
    else LastIn(bs[..|bs| - 1], thread, from)
  }

  ghost predicate HonestRow(w: World, r: Row) {
    && ValidId(r.body.from) && r.wire == WireOf(r.body, r.wire.bytes) && r.wire.bytes <= MAX_WIRE_BYTES
    && r.body.v == 1 && r.body.to == r.recipient && r.body.seqNo >= 1
    && (r.recipient == w.self ==> r.body.from in w.allowed)
  }

  predicate SameStream(a: Body, b: Body) {
    a.thread == b.thread && a.from == b.from
  }

  /** The log: honest rows, each stream rising, no number beyond its sender's high-water mark. */
  ghost predicate LogOk(w: World, rows: seq<Row>, high: map<string, map<string, int>>) {
    && (forall r :: r in rows ==> HonestRow(w, r))
    && (forall i, j :: 0 <= i < j < |rows| && SameStream(rows[i].body, rows[j].body) ==>
          rows[i].body.seqNo < rows[j].body.seqNo)
    && (forall r :: r in rows ==> r.body.seqNo <= HighWater(HighOf(high, r.body.from), r.body.thread))
    && (forall f, t :: 0 <= HighWater(HighOf(high, f), t))
  }

  ghost predicate StreamsMatch(streams: map<string, int>, bs: seq<Body>) {
    forall t, f :: ValidId(f) ==> Last(streams, t, f) == LastIn(bs, t, f)
  }

  /** The receiver has taken exactly what was due up to its cursor, outside the gap. */
  ghost predicate InStep(w: World, s: Sys, g: Gap) {
    && LogOk(w, s.rows, s.high)
    && 0 <= s.cursor
    && s.accepted == TakenOf(w, s.rows[..Upto(s)], g)
    && Sensible(s.streams) && StreamsMatch(s.streams, s.accepted)
  }

  // ---- sending ----

  lemma MarkAfterSend(s: Sys, t: Sys, d: Draft, f: string, th: string)
    requires t.high == s.high[d.from := Raised(HighOf(s.high, d.from), d.thread, BodyOf(s, d).seqNo)]
    ensures HighWater(HighOf(t.high, f), th)
            == if f == d.from && th == d.thread then BodyOf(s, d).seqNo else HighWater(HighOf(s.high, f), th)
  {
  }

  lemma LogGrows(w: World, s: Sys, t: Sys, d: Draft, row: Row)
    requires LogOk(w, s.rows, s.high) && HonestRow(w, row) && row.body == BodyOf(s, d) && t.rows == s.rows + [row]
    requires t.high == s.high[d.from := Raised(HighOf(s.high, d.from), d.thread, BodyOf(s, d).seqNo)]
    ensures LogOk(w, t.rows, t.high)
  {
    forall f, th ensures 0 <= HighWater(HighOf(s.high, f), th) <= HighWater(HighOf(t.high, f), th) { MarkAfterSend(s, t, d, f, th); }
    MarkAfterSend(s, t, d, d.from, d.thread);
    forall r | r in t.rows ensures r.body.seqNo <= HighWater(HighOf(t.high, r.body.from), r.body.thread) {
      if r in s.rows {
        assert HighWater(HighOf(s.high, r.body.from), r.body.thread) <= HighWater(HighOf(t.high, r.body.from), r.body.thread);
      } else {
        assert r == row;
      }
    }
    forall i, j | 0 <= i < j < |t.rows| && SameStream(t.rows[i].body, t.rows[j].body)
      ensures t.rows[i].body.seqNo < t.rows[j].body.seqNo
    {
      assert t.rows[i] == s.rows[i] && s.rows[i] in s.rows;
      if j == |s.rows| { assert t.rows[j] == row; }
    }
  }

  lemma TakenAdd(w: World, rows: seq<Row>, row: Row, g: Gap)
    requires InGap(g, |rows|) || !Due(w, row)
    ensures TakenOf(w, rows + [row], g) == TakenOf(w, rows, g)
  {
    assert (rows + [row])[..|rows|] == rows;
  }

  /** One more row leaves the covered part as it is, or adds a row that was not to be taken. */
  lemma CoverStays(w: World, s: Sys, t: Sys, g: Gap, row: Row)
    requires t.rows == s.rows + [row] && t.cursor == s.cursor >= 0
    requires |s.rows| < s.cursor ==> InGap(g, |s.rows|) || !Due(w, row)
    ensures TakenOf(w, t.rows[..Upto(t)], g) == TakenOf(w, s.rows[..Upto(s)], g)
  {
    if s.cursor <= |s.rows| {
      assert t.rows[..s.cursor] == s.rows[..s.cursor];
    } else {
      TakenAdd(w, s.rows, row, g);
      assert t.rows[..|t.rows|] == t.rows && s.rows[..|s.rows|] == s.rows;
    }
  }

  lemma SendKeeps(w: World, s: Sys, g: Gap, d: Draft, reached: bool)
    requires InStep(w, s, g) && Enabled(w, s, Send(d, reached))
    requires Harmless(w, s, Send(d, reached)) || (|s.rows| < s.cursor ==> InGap(g, |s.rows|))
    ensures InStep(w, Sent(w, s, d, reached), g)
  {
    var t := Sent(w, s, d, reached);
    if t != s {
      var row := Row(d.to, BodyOf(s, d), WireOf(BodyOf(s, d), d.bytes));
      LogGrows(w, s, t, d, row);
      CoverStays(w, s, t, g, row);
    }
  }

  // ---- pulling ----

  /** The arrivals of one row: none before the cursor or for others, else the row's own wire. */
  function InsAt(w: World, rows: seq<Row>, n: nat, since: nat, now: int): seq<Arrival>
    requires 1 <= n <= |rows|
  {
    if n > since && Due(w, rows[n - 1]) then [Arrival(rows[n - 1].wire, w.peers, now, Works()(rows[n - 1].wire))] else []
  }

  /** The page as the receiver works through it is the log after the cursor, due rows only. */
  lemma PageOfPrefix(w: World, s: Sys, since: nat, now: int, n: nat)
    requires 1 <= n <= |s.rows| && LogOk(w, s.rows, s.high)
    ensures InsOf(w, s.(rows := s.rows[..n]), since, now)
            == InsOf(w, s.(rows := s.rows[..n - 1]), since, now) + InsAt(w, s.rows, n, since, now)
  {
    var row := s.rows[n - 1];
    assert row in s.rows && HonestRow(w, row);
    assert s.rows[..n][..n - 1] == s.rows[..n - 1];
    var filter := if w.peers == {} then None else Some(w.peers);
    var page := Page(s.rows[..n - 1], w.self, since);
    if n > since && row.recipient == w.self {
      var e := Entry(n, row.wire);
      assert Page(s.rows[..n], w.self, since) == page + [e];
      VisibleAdd(page, e, w.allowed, filter);
      BondedAdd(Visible(page, w.allowed, filter), e, w.peers);
      ArrivalsAdd(Bonded(Visible(page, w.allowed, filter), w.peers), e, w.peers, now);
    }
  }

  lemma VisibleAdd(page: seq<Entry>, e: Entry, allowed: set<string>, senders: Option<set<string>>)
    ensures Visible(page + [e], allowed, senders) == Visible(page, allowed, senders)
              + if SenderIn(e.wire, allowed) && (senders.None? || SenderIn(e.wire, senders.value)) then [e] else []
  {
  }

  lemma BondedAdd(page: seq<Entry>, e: Entry, peers: set<string>)
    ensures Bonded(page + [e], peers) == Bonded(page, peers) + if SenderIn(e.wire, peers) then [e] else []
  {
  }

  lemma ArrivalsAdd(page: seq<Entry>, e: Entry, peers: set<string>, now: int)
    ensures Arrivals(page + [e], peers, now, Works())
            == Arrivals(page, peers, now, Works()) + [Arrival(e.wire, peers, now, Works()(e.wire))]
  {
  }

  /** In the log, what was taken up to `m` ends each stream at or above every earlier row of it. */
  lemma {:induction false} LastInCovers(w: World, s: Sys, g: Gap, m: nat, k: nat)
    requires LogOk(w, s.rows, s.high) && k < m <= |s.rows| && Due(w, s.rows[k]) && !InGap(g, k)
    ensures s.rows[k].body.seqNo <= LastIn(TakenOf(w, s.rows[..m], g), s.rows[k].body.thread, s.rows[k].body.from)
    decreases m
  {
    var last := s.rows[m - 1];
    if k < m - 1 {
      LastInCovers(w, s, g, m - 1, k);
    }
    TakenStep(w, s.rows, g, m);
    if Due(w, last) && !InGap(g, m - 1) {
      LastInAdd(TakenOf(w, s.rows[..m - 1], g), last.body, s.rows[k].body.thread, s.rows[k].body.from);
    }
  }

  /** And strictly below every later one. */
  lemma {:induction false} LastInBelow(w: World, s: Sys, g: Gap, m: nat, k: nat)
    requires LogOk(w, s.rows, s.high) && m <= k < |s.rows|
    ensures LastIn(TakenOf(w, s.rows[..m], g), s.rows[k].body.thread, s.rows[k].body.from) < s.rows[k].body.seqNo
    decreases m
  {
    assert HonestRow(w, s.rows[k]);
    if m > 0 {
      var last := s.rows[m - 1];
      LastInBelow(w, s, g, m - 1, k);
      TakenStep(w, s.rows, g, m);
      if Due(w, last) && !InGap(g, m - 1) {
        LastInAdd(TakenOf(w, s.rows[..m - 1], g), last.body, s.rows[k].body.thread, s.rows[k].body.from);
      }
    }
  }

  lemma LastInAdd(bs: seq<Body>, b: Body, thread: string, from: string)
    ensures LastIn(bs + [b], thread, from) == if b.thread == thread && b.from == from then b.seqNo else LastIn(bs, thread, from)
  {
  }

  /** An honest due row is refused exactly when its number is not above the stream's last. */
  lemma DueArrival(w: World, row: Row, streams: map<string, int>, now: int)
    requires HonestRow(w, row) && Due(w, row) && now < row.body.ttl
    ensures Refusal(row.wire, w.self, w.peers, streams, now, Works()(row.wire))
            == if row.body.seqNo <= Last(streams, row.body.thread, row.body.from) then Some("stale_seq") else None
  {
  }

  lemma MatchGrows(w: World, row: Row, streams: map<string, int>, bs: seq<Body>, now: int)
    requires HonestRow(w, row) && Due(w, row) && now < row.body.ttl && Sensible(streams) && StreamsMatch(streams, bs)
    requires row.body.seqNo > Last(streams, row.body.thread, row.body.from)
    ensures var after := After(row.wire, w.self, w.peers, streams, now, Works()(row.wire));
            Sensible(after) && StreamsMatch(after, bs + [row.body])
  {
    var a := Arrival(row.wire, w.peers, now, Works()(row.wire));
    var after := After(row.wire, w.self, w.peers, streams, now, a.re);
    DueArrival(w, row, streams, now);
    OneArrival(w.self, streams, a, row.body.thread, row.body.from);
    forall t, f | ValidId(f) ensures Last(after, t, f) == LastIn(bs + [row.body], t, f) {
      OneArrival(w.self, streams, a, t, f);
      LastInAdd(bs, row.body, t, f);
    }
  }

  /** The position from which a pull can bring something new. */
  function Start(s: Sys, since: nat): nat {
    if since <= Upto(s) then Upto(s) else since
  }

  /** A pull from `since` sees no row of the gap again, and skips over none that is due outside it. */
  ghost predicate Fits(w: World, s: Sys, g: Gap, since: nat) {
    && (forall i :: since <= i < Upto(s) ==> !InGap(g, i))
    && (forall i :: Upto(s) <= i < |s.rows| && i < since ==> InGap(g, i) || !Due(w, s.rows[i]))
  }

  /** The full form of progress: everything due up to row n and outside the gap is taken. */
  ghost predicate Caught(w: World, s: Sys, g: Gap, ins: seq<Arrival>, n: nat)
    requires n <= |s.rows|
  {
    && s.accepted + AcceptedOf(w.self, s.streams, ins) == TakenOf(w, s.rows[..n], g)
    && Sensible(Store(w.self, s.streams, ins)) && StreamsMatch(Store(w.self, s.streams, ins), TakenOf(w, s.rows[..n], g))
  }

  /** How far a pull has come after the first n rows of the log. */
  ghost predicate Progress(w: World, s: Sys, g: Gap, since: nat, now: int, n: nat)
    requires n <= |s.rows|
  {
    var ins := InsOf(w, s.(rows := s.rows[..n]), since, now);
    if n <= Start(s, since) then Store(w.self, s.streams, ins) == s.streams && AcceptedOf(w.self, s.streams, ins) == []
    else Caught(w, s, g, ins, n)
  }

  /** Before the start: what lies before the cursor is stale when pulled again, and the rest is not on the page. */
  lemma AgainIsStale(w: World, s: Sys, g: Gap, since: nat, now: int, n: nat)
    requires InStep(w, s, g) && Fits(w, s, g, since) && Fresh(s, now)
    requires 1 <= n <= |s.rows| && n <= Start(s, since) && Progress(w, s, g, since, now, n - 1)
    ensures Progress(w, s, g, since, now, n)
  {
    PageOfPrefix(w, s, since, now, n);
    var ins, x := InsOf(w, s.(rows := s.rows[..n - 1]), since, now), InsAt(w, s.rows, n, since, now);
    if x == [] {
      assert ins + x == ins;
    } else {
      var row := s.rows[n - 1];
      RunAppend(w.self, s.streams, ins, x[0]);
      assert [x[0]] == x && x[1..] == [];
      DueArrival(w, row, s.streams, now);
      LastInCovers(w, s, g, Upto(s), n - 1);
    }
  }

  lemma TakenStep(w: World, rows: seq<Row>, g: Gap, n: nat)
    requires 1 <= n <= |rows|
    ensures TakenOf(w, rows[..n], g)
            == if Due(w, rows[n - 1]) && !InGap(g, n - 1) then TakenOf(w, rows[..n - 1], g) + [rows[n - 1].body]
               else TakenOf(w, rows[..n - 1], g)
  {
    assert rows[..n][..n - 1] == rows[..n - 1];
  }

  /** Between the cursor and the start nothing is added. */
  lemma {:induction false} NothingBetween(w: World, s: Sys, g: Gap, since: nat, n: nat)
    requires Fits(w, s, g, since) && Upto(s) <= n <= |s.rows| && n <= Start(s, since)
    ensures TakenOf(w, s.rows[..n], g) == TakenOf(w, s.rows[..Upto(s)], g)
    decreases n
  {
    if n > Upto(s) {
      NothingBetween(w, s, g, since, n - 1);
      TakenStep(w, s.rows, g, n);
    }
  }

  lemma RowTaken(w: World, row: Row, streams: map<string, int>, bs: seq<Body>, now: int)
    requires HonestRow(w, row) && Due(w, row) && now < row.body.ttl && Sensible(streams) && StreamsMatch(streams, bs)
    requires LastIn(bs, row.body.thread, row.body.from) < row.body.seqNo
    ensures var x := Arrival(row.wire, w.peers, now, Works()(row.wire));
            var after := After(row.wire, w.self, w.peers, streams, now, x.re);
            && AcceptedOf(w.self, streams, [x]) == [row.body]
            && Sensible(after) && StreamsMatch(after, bs + [row.body])
  {
    DueArrival(w, row, streams, now);
    MatchGrows(w, row, streams, bs, now);
  }

  lemma CaughtUp(w: World, s: Sys, g: Gap, since: nat, now: int, n: nat)
    requires InStep(w, s, g) && Fits(w, s, g, since) && Upto(s) <= n <= |s.rows| && Start(s, since) <= n
    requires Progress(w, s, g, since, now, n)
    ensures Caught(w, s, g, InsOf(w, s.(rows := s.rows[..n]), since, now), n)
  {
    if n == Start(s, since) {
      NothingBetween(w, s, g, since, n);
    }
  }

  lemma CatchOne(w: World, s: Sys, g: Gap, ins: seq<Arrival>, n: nat, x: Arrival, now: int)
    requires LogOk(w, s.rows, s.high) && 1 <= n <= |s.rows| && Caught(w, s, g, ins, n - 1)
    requires Due(w, s.rows[n - 1]) && !InGap(g, n - 1) && now < s.rows[n - 1].body.ttl
    requires x == Arrival(s.rows[n - 1].wire, w.peers, now, Works()(s.rows[n - 1].wire))
    ensures Caught(w, s, g, ins + [x], n)
  {
    hide Refusal, AcceptedOf, Store;
    var row, streams, taken := s.rows[n - 1], Store(w.self, s.streams, ins), AcceptedOf(w.self, s.streams, ins);
    RunAppend(w.self, s.streams, ins, x);
    TakenStep(w, s.rows, g, n);
    LastInBelow(w, s, g, n - 1, n - 1);
    assert HonestRow(w, row);
    RowTaken(w, row, streams, TakenOf(w, s.rows[..n - 1], g), now);
    assert s.accepted + (taken + [row.body]) == (s.accepted + taken) + [row.body];
  }

  /** The gap ends before the rows a pull can bring. */
  ghost predicate Clear(s: Sys, g: Gap, since: nat) {
    forall i :: Start(s, since) <= i < |s.rows| ==> !InGap(g, i)
  }

  /** After the start: every due row is taken. */
  lemma NewIsTaken(w: World, s: Sys, g: Gap, since: nat, now: int, n: nat)
    requires LogOk(w, s.rows, s.high) && Fresh(s, now) && Clear(s, g, since) && Start(s, since) < n <= |s.rows|
    requires Caught(w, s, g, InsOf(w, s.(rows := s.rows[..n - 1]), since, now), n - 1)
    ensures Caught(w, s, g, InsOf(w, s.(rows := s.rows[..n]), since, now), n)
  {
    PageOfPrefix(w, s, since, now, n);
    var ins, x := InsOf(w, s.(rows := s.rows[..n - 1]), since, now), InsAt(w, s.rows, n, since, now);
    if x == [] {
      assert ins + x == ins;
      TakenStep(w, s.rows, g, n);
    } else {
      assert [x[0]] == x;
      CatchOne(w, s, g, ins, n, x[0], now);
    }
  }

  lemma {:induction false} PullProgress(w: World, s: Sys, g: Gap, since: nat, now: int, n: nat)
    requires InStep(w, s, g) && Fits(w, s, g, since) && Clear(s, g, since) && Fresh(s, now) && n <= |s.rows|
    ensures Progress(w, s, g, since, now, n)
  {
    if n == 0 {
      assert s.rows[..0] == [];
    } else {
      PullProgress(w, s, g, since, now, n - 1);
      if n <= Start(s, since) {
        AgainIsStale(w, s, g, since, now, n);
      } else {
        CaughtUp(w, s, g, since, now, n - 1);
        NewIsTaken(w, s, g, since, now, n);
      }
    }
  }

  /** The page's end lies within the log or where the pull began, and nothing for the receiver lies beyond it. */
  lemma {:induction false} EndOfPage(w: World, rows: seq<Row>, since: nat)
    ensures var e := PageEnd(Page(rows, w.self, since), since);
            && since <= e && (e <= |rows| || e == since)
            && forall k :: e <= k < |rows| ==> rows[k].recipient != w.self
    decreases |rows|
  {
    if since < |rows| {
      EndOfPage(w, rows[..|rows| - 1], since);
    } else {
      NoPage(rows, w.self, since);
    }
  }

  lemma {:induction false} NoPage(rows: seq<Row>, agent: string, since: nat)
    requires |rows| <= since
    ensures Page(rows, agent, since) == []
  {
    if rows != [] {
      NoPage(rows[..|rows| - 1], agent, since);
    }
  }

  lemma {:induction false} NoneBeyond(w: World, rows: seq<Row>, g: Gap, e: nat)
    requires e <= |rows| && forall k :: e <= k < |rows| ==> rows[k].recipient != w.self
    ensures TakenOf(w, rows[..e], g) == TakenOf(w, rows, g)
    decreases |rows|
  {
    if e == |rows| {
      assert rows[..e] == rows;
    } else {
      NoneBeyond(w, rows[..|rows| - 1], g, e);
      assert rows[..|rows| - 1][..e] == rows[..e];
    }
  }

  /** A whole page, worked through. */
  lemma PullResult(w: World, s: Sys, g: Gap, since: nat, now: int)
    requires InStep(w, s, g) && Fits(w, s, g, since) && Clear(s, g, since) && Fresh(s, now)
    ensures Caught(w, s, g, InsOf(w, s, since, now), |s.rows|)
  {
    PullProgress(w, s, g, since, now, |s.rows|);
    assert s.rows[..|s.rows|] == s.rows;
    assert s.(rows := s.rows) == s;
    if |s.rows| <= Start(s, since) {
      NothingBetween(w, s, g, since, |s.rows|);
    }
  }

  lemma PullKeeps(w: World, s: Sys, g: Gap, since: Option<int>, now: int)
    requires InStep(w, s, g) && Enabled(w, s, Pull(since, now))
    requires var used := NormalizeSince(if since.Some? then since.value else s.cursor); Fits(w, s, g, used) && Clear(s, g, used)
    ensures var t := Pulled(w, s, since, now);
            InStep(w, t, g) && t.accepted == TakenOf(w, t.rows, g)
  {
    var used := NormalizeSince(if since.Some? then since.value else s.cursor);
    var t := Pulled(w, s, since, now);
    PullResult(w, s, g, used, now);
    assert s.rows[..|s.rows|] == s.rows;
    EndOfPage(w, s.rows, used);
    assert t.rows == s.rows && t.cursor == PageEnd(Page(s.rows, w.self, used), used);
    NoneBeyond(w, s.rows, g, Upto(t));
    assert LogOk(w, t.rows, t.high);
  }

  lemma {:induction false} InStepRuns(w: World, s: Sys, mvs: seq<Move>)
    requires InStep(w, s, NO_GAP) && Legal(w, s, mvs)
    ensures InStep(w, Play(w, s, mvs), NO_GAP)
    decreases |mvs|
  {
    if mvs != [] {
      match mvs[0] {
        case Send(d, reached) => SendKeeps(w, s, NO_GAP, d, reached);
        case Pull(since, now) => PullKeeps(w, s, NO_GAP, since, now);
      }
      InStepRuns(w, Next(w, s, mvs[0]), mvs[1..]);
    }
  }

  /**
   * However sends and pulls interleave, older cursors pulled again included, as long as no pull skips over a
   * due row: what the receiver took is exactly what was stored for it by its peers up to its cursor, each
   * once and in order; and after one more pull nothing is missing.
   */
  lemma ExactlyOnce(w: World, mvs: seq<Move>, now: int)
    requires Legal(w, START, mvs)
    ensures var s := Play(w, START, mvs);
            && 0 <= s.cursor && s.accepted == DueOf(w, s.rows[..Upto(s)])
            && (Fresh(s, now) ==> Pulled(w, s, None, now).accepted == DueOf(w, s.rows))
  {
    InStepRuns(w, START, mvs);
    var s := Play(w, START, mvs);
    TakenIsDueIff(w, s.rows[..Upto(s)], NO_GAP);
    if Fresh(s, now) {
      PullKeeps(w, s, NO_GAP, None, now);
      TakenIsDueIff(w, s.rows, NO_GAP);
    }
  }

  // ---- skipping ahead ----

  function SendAll(w: World, s: Sys, ds: seq<Draft>): Sys
    decreases |ds|
  {
    if ds == [] then s else SendAll(w, Sent(w, s, ds[0], true), ds[1..])
  }

  ghost predicate CanSend(w: World, s: Sys, ds: seq<Draft>)
    decreases |ds|
  {
    ds != [] ==> Enabled(w, s, Send(ds[0], true)) && CanSend(w, Sent(w, s, ds[0], true), ds[1..])
  }

  /** After a skip: the gap lies before the cursor, and what the cursor covers beyond the log is gap. */
  ghost predicate Skipped(w: World, s: Sys, g: Gap) {
    InStep(w, s, g) && g.hi <= s.cursor && forall i :: |s.rows| <= i < s.cursor ==> InGap(g, i)
  }

  lemma {:induction false} SkippedSends(w: World, s: Sys, g: Gap, ds: seq<Draft>)
    requires Skipped(w, s, g) && CanSend(w, s, ds)
    ensures var t := SendAll(w, s, ds); Skipped(w, t, g) && t.cursor == s.cursor
    decreases |ds|
  {
    if ds != [] {
      SendKeeps(w, s, g, ds[0], true);
      SkippedSends(w, Sent(w, s, ds[0], true), g, ds[1..]);
    }
  }

  lemma SkipOpensGap(w: World, s: Sys, since: int, now: int)
    requires InStep(w, s, NO_GAP) && Fresh(s, now) && s.cursor < NormalizeSince(since)
    ensures Skipped(w, Pulled(w, s, Some(since), now), Gap(Upto(s), NormalizeSince(since)))
  {
    var g := Gap(Upto(s), NormalizeSince(since));
    GapAhead(w, s.rows[..Upto(s)], NO_GAP, g);
    PullKeeps(w, s, g, Some(since), now);
    EndOfPage(w, s.rows, NormalizeSince(since));
  }

  lemma {:induction false} GapAhead(w: World, rows: seq<Row>, g: Gap, h: Gap)
    requires forall i :: 0 <= i < |rows| ==> !InGap(g, i) && !InGap(h, i)
    ensures TakenOf(w, rows, g) == TakenOf(w, rows, h)
  {
    if rows != [] {
      GapAhead(w, rows[..|rows| - 1], g, h);
    }
  }

  lemma SkipKeepsGap(w: World, s: Sys, since: int, now: int, ds: seq<Draft>, later: int)
    requires InStep(w, s, NO_GAP) && Fresh(s, now) && s.cursor < NormalizeSince(since)
    requires var t := Pulled(w, s, Some(since), now); CanSend(w, t, ds) && Fresh(SendAll(w, t, ds), later)
    requires |s.rows| <= LEGACY_CURSOR_THRESHOLD
    ensures var t := SendAll(w, Pulled(w, s, Some(since), now), ds);
            Pulled(w, t, None, later).accepted == TakenOf(w, t.rows, Gap(Upto(s), NormalizeSince(since)))
  {
    var g := Gap(Upto(s), NormalizeSince(since));
    SkipOpensGap(w, s, since, now);
    EndOfPage(w, s.rows, NormalizeSince(since));
    SkippedSends(w, Pulled(w, s, Some(since), now), g, ds);
    PullKeeps(w, SendAll(w, Pulled(w, s, Some(since), now), ds), g, None, later);
  }

  /**
   * A pull from beyond the stored cursor, further sends, and a pull from the new cursor: nothing due is
   * missing exactly if no row due to the receiver, there already or stored later, lies in between. (Beyond
   * the legacy threshold the relay itself would start again from the first row.)
   */
  lemma SkipIsHarmlessIff(w: World, s: Sys, since: int, now: int, ds: seq<Draft>, later: int)
    requires InStep(w, s, NO_GAP) && Fresh(s, now) && s.cursor < NormalizeSince(since)
    requires var t := Pulled(w, s, Some(since), now); CanSend(w, t, ds) && Fresh(SendAll(w, t, ds), later)
    requires |s.rows| <= LEGACY_CURSOR_THRESHOLD
    ensures var t := SendAll(w, Pulled(w, s, Some(since), now), ds);
            var nothingMissing := Pulled(w, t, None, later).accepted == DueOf(w, t.rows);
            var nothingSkipped := forall i :: Upto(s) <= i < NormalizeSince(since) && i < |t.rows| ==> !Due(w, t.rows[i]);
            nothingMissing <==> nothingSkipped
  {
    SkipKeepsGap(w, s, since, now, ds, later);
    TakenIsDueIff(w, SendAll(w, Pulled(w, s, Some(since), now), ds).rows, Gap(Upto(s), NormalizeSince(since)));
  }

  /** A concrete loss: the first pull starts from 5, and what is then stored under the first id is never taken. */
  lemma SkippingAheadLoses(w: World, d: Draft, now: int)
    requires ValidId(d.from) && d.bytes <= MAX_WIRE_BYTES && d.to == w.self && d.ttl > 0
    requires d.from in w.peers && d.from in w.allowed
    ensures var skipped := Pulled(w, START, Some(5), now);
            var sent := Sent(w, skipped, d, true);
            && DueOf(w, sent.rows) == [BodyOf(skipped, d)]
            && Pulled(w, sent, None, now).accepted == []
  {
  }
}

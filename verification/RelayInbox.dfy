/** The relay's inbox: an append-only log with idempotent inserts, read by row-id cursor. */
module RelayInbox {
  import opened Options
  import opened Receive

  const LEGACY_CURSOR_THRESHOLD := 1_000_000_000_000

  /** The row id is the position in the log, counted from one. */
  datatype Row = Row(recipient: string, body: Body, wire: Wire)

  datatype Answer = Stored | Refused(error: string)

  datatype Entry = Entry(rowid: nat, wire: Wire)

  function PostRefusal(w: Wire, recipient: string, allowed: set<string>): Option<string> {
    if w.bytes > MAX_WIRE_BYTES then Some("envelope_too_large")
    else if w.version.Some? && w.version.value != 1 then Some("unsupported_version")
    else if w.outer.None? || w.outer.value.body.None? then Some("invalid_json")
    else
      var outer, body := w.outer.value, w.outer.value.body.value;
      if body.v != outer.v then Some("version_mismatch")
      else if body.to != recipient || outer.to != body.to || outer.from != body.from then Some("routing_mismatch")
      else if body.ttl <= 0 then Some("envelope_expired")
      else if !ValidId(body.from) || outer.signer != Some(body.from) then Some("invalid_signature")
      else if body.from !in allowed then Some("recipient_not_allowed")
      else None
  }

  function FindRow(rows: seq<Row>, id: string): (r: Option<Row>)
    ensures r.Some? ==> r.value in rows && r.value.body.id == id
    ensures r.None? ==> forall x :: x in rows ==> x.body.id != id
  {
    if rows == [] then None
    else if rows[|rows| - 1].body.id == id then Some(rows[|rows| - 1])
    else
      assert rows == rows[..|rows| - 1] + [rows[|rows| - 1]];
      FindRow(rows[..|rows| - 1], id)
  }

  /** The log and the answer after one post: a known id is stored again only in words, and only for the same wire. */
  function Posted(rows: seq<Row>, w: Wire, recipient: string, allowed: set<string>): (seq<Row>, Answer) {
    var why := PostRefusal(w, recipient, allowed);
    if why.Some? then (rows, Refused(why.value))
    else
      var body := w.outer.value.body.value;
      var known := FindRow(rows, body.id);
      if known.None? then (rows + [Row(recipient, body, w)], Stored)
      else if known.value.wire == w then (rows, Stored)
      else (rows, Refused("envelope_id_collision"))
  }

  function NormalizeSince(since: int): nat {
    if since < 0 || since > LEGACY_CURSOR_THRESHOLD then 0 else since
  }

  /** Every row for the agent after the cursor, oldest first. */
  function Page(rows: seq<Row>, agent: string, since: nat): seq<Entry> {
    if rows == [] then []
    else
      var page := Page(rows[..|rows| - 1], agent, since);
      var last := rows[|rows| - 1];
      if |rows| > since && last.recipient == agent then page + [Entry(|rows|, last.wire)] else page
  }

  function PageEnd(page: seq<Entry>, since: nat): nat {
    if page == [] then since else page[|page| - 1].rowid
  }

  predicate SenderIn(w: Wire, senders: set<string>) {
    w.outer.Some? && w.outer.value.from in senders
  }

  function Visible(page: seq<Entry>, allowed: set<string>, senders: Option<set<string>>): seq<Entry> {
    if page == [] then []
    else
      var kept := Visible(page[..|page| - 1], allowed, senders);
      var last := page[|page| - 1];
      if SenderIn(last.wire, allowed) && (senders.None? || SenderIn(last.wire, senders.value)) then kept + [last] else kept
  }

  class Relay {
    var rows: seq<Row>

    constructor ()
      ensures rows == []
    {
      rows := [];
    }

    method Post(w: Wire, recipient: string, allowed: set<string>) returns (answer: Answer)
      modifies this
      ensures (rows, answer) == Posted(old(rows), w, recipient, allowed)
    {
      var why := PostRefusal(w, recipient, allowed);
      if why.Some? {
        return Refused(why.value);
      }
      var body := w.outer.value.body.value;
      var known := FindRow(rows, body.id);
      if known.Some? {
        return if known.value.wire == w then Stored else Refused("envelope_id_collision");
      }
      rows := rows + [Row(recipient, body, w)];
      return Stored;
    }

    /** The cursor moves over every row of the agent, also over those the filters hide. */
    method Get(agent: string, since: int, allowed: set<string>, senders: Option<set<string>>)
      returns (envelopes: seq<Entry>, cursor: nat)
      ensures var page := Page(rows, agent, NormalizeSince(since));
              envelopes == Visible(page, allowed, senders) && cursor == PageEnd(page, NormalizeSince(since))
    {
      var from := NormalizeSince(since);
      var page: seq<Entry> := [];
      for n := 0 to |rows|
        invariant page == Page(rows[..n], agent, from)
      {
        assert rows[..n + 1][..n] == rows[..n];
        if n + 1 > from && rows[n].recipient == agent {
          page := page + [Entry(n + 1, rows[n].wire)];
        }
      }
      assert rows[..|rows|] == rows;
      cursor := PageEnd(page, from);
      envelopes := [];
      for n := 0 to |page|
        invariant envelopes == Visible(page[..n], allowed, senders)
      {
        assert page[..n + 1][..n] == page[..n];
        if SenderIn(page[n].wire, allowed) && (senders.None? || SenderIn(page[n].wire, senders.value)) {
          envelopes := envelopes + [page[n]];
        }
      }
      assert page[..|page|] == page;
    }
  }

  // ---- what a page holds ----

  /** An entry is on a page exactly if it is a row of the agent after the cursor; a cursor out of range starts from the first row. */
  lemma {:induction false} PageExact(rows: seq<Row>, agent: string, since: int, e: Entry)
    ensures e in Page(rows, agent, NormalizeSince(since)) <==>
              && 1 <= e.rowid <= |rows| && rows[e.rowid - 1].recipient == agent && rows[e.rowid - 1].wire == e.wire
              && (since < 0 || since > 1_000_000_000_000 || since < e.rowid)
    decreases |rows|
  {
    if rows != [] {
      var before := rows[..|rows| - 1];
      PageExact(before, agent, since, e);
      assert forall i :: 0 <= i < |before| ==> before[i] == rows[i];
    }
  }

  /** And the entries come in the order of the log, each once. */
  lemma {:induction false} PageInOrder(rows: seq<Row>, agent: string, since: nat)
    ensures var page := Page(rows, agent, since);
            && (forall i, j :: 0 <= i < j < |page| ==> page[i].rowid < page[j].rowid)
            && (forall e :: e in page ==> e.rowid <= |rows|)
    decreases |rows|
  {
    if rows != [] {
      PageInOrder(rows[..|rows| - 1], agent, since);
    }
  }

  // ---- the checks, told apart from the code ----

  /** The relay's checks in the order it makes them. */
  function RelayChecks(w: Wire, recipient: string, allowed: set<string>): seq<Check> {
    var early := [Check("envelope_too_large", w.bytes <= MAX_WIRE_BYTES),
                  Check("unsupported_version", w.version.None? || w.version.value == 1),
                  Check("invalid_json", Parsed(w))];
    if !Parsed(w) then early
    else
      var outer, body := w.outer.value, w.outer.value.body.value;
      early + [Check("version_mismatch", outer.v == body.v),
               Check("routing_mismatch", body.to == recipient && body.to == outer.to && body.from == outer.from),
               Check("envelope_expired", 0 < body.ttl),
               Check("invalid_signature", ValidId(body.from) && outer.signer == Some(body.from)),
               Check("recipient_not_allowed", body.from in allowed)]
  }

  lemma RelayAllHold(w: Wire, recipient: string, allowed: set<string>)
    requires Names(None, RelayChecks(w, recipient, allowed))
    ensures PostRefusal(w, recipient, allowed).None?
  {
    var checks := RelayChecks(w, recipient, allowed);
    assert checks[0].holds && checks[1].holds && checks[2].holds;
    assert checks[3].holds && checks[4].holds && checks[5].holds && checks[6].holds && checks[7].holds;
  }

  /** A post is refused by the first check that fails, and passes exactly when every check holds. */
  lemma RefusedInOrder(w: Wire, recipient: string, allowed: set<string>)
    ensures Names(PostRefusal(w, recipient, allowed), RelayChecks(w, recipient, allowed))
  {
    var checks := RelayChecks(w, recipient, allowed);
    var why := PostRefusal(w, recipient, allowed);
    if why.Some? {
      FirstFails(checks);
      var i := FirstFailing(checks);
      assert i > 0 ==> checks[0].holds;
      assert i > 1 ==> checks[1].holds;
      assert i > 2 ==> checks[2].holds;
      assert i > 3 ==> checks[3].holds;
      assert i > 4 ==> checks[4].holds;
      assert i > 5 ==> checks[5].holds;
      assert i > 6 ==> checks[6].holds;
      if i == |checks| {
        RelayAllHold(w, recipient, allowed);
        assert false;
      }
      assert checks[i].error == why.value;
    }
  }

  // ---- the log: one wire to an id, for good ----

  ghost predicate OneWireEach(rows: seq<Row>) {
    forall i, j :: 0 <= i < j < |rows| ==> rows[i].body.id != rows[j].body.id
  }

  /** The log holds each body under the wire it came in. */
  ghost predicate Faithful(rows: seq<Row>) {
    forall r :: r in rows ==> Parsed(r.wire) && r.body == r.wire.outer.value.body.value
  }

  /** Some row has the id of this wire. */
  ghost predicate Known(rows: seq<Row>, w: Wire) {
    Parsed(w) && exists r :: r in rows && r.body.id == w.outer.value.body.value.id
  }

  ghost predicate Holds(rows: seq<Row>, w: Wire) {
    exists r :: r in rows && r.wire == w
  }

  /**
   * A wire that passes the checks is appended exactly when its id is new. A known id is answered as stored
   * exactly for the wire the log holds, and every other wire under it collides and changes nothing.
   */
  lemma PostAnswered(rows: seq<Row>, w: Wire, recipient: string, allowed: set<string>)
    requires OneWireEach(rows) && Faithful(rows)
    ensures var (after, answer) := Posted(rows, w, recipient, allowed);
            var passes := Names(None, RelayChecks(w, recipient, allowed));
            && OneWireEach(after) && Faithful(after)
            && after == (if passes && Parsed(w) && !Known(rows, w)
                         then rows + [Row(recipient, w.outer.value.body.value, w)] else rows)
            && (answer == Stored <==> passes && (Known(rows, w) ==> Holds(rows, w)))
            && (answer == Refused("envelope_id_collision") <==> passes && Known(rows, w) && !Holds(rows, w))
            && (answer == Stored <==> passes && Holds(after, w))
  {
    RefusedInOrder(w, recipient, allowed);
  }

  datatype Request = Request(wire: Wire, recipient: string, allowed: set<string>)

  function PostedAll(rows: seq<Row>, rs: seq<Request>): seq<Row>
    decreases |rs|
  {
    if rs == [] then rows else PostedAll(Posted(rows, rs[0].wire, rs[0].recipient, rs[0].allowed).0, rs[1..])
  }

  lemma {:induction false} LogGrows(rows: seq<Row>, rs: seq<Request>)
    requires OneWireEach(rows) && Faithful(rows)
    ensures var after := PostedAll(rows, rs); rows <= after && OneWireEach(after) && Faithful(after)
    decreases |rs|
  {
    if rs != [] {
      PostAnswered(rows, rs[0].wire, rs[0].recipient, rs[0].allowed);
      LogGrows(Posted(rows, rs[0].wire, rs[0].recipient, rs[0].allowed).0, rs[1..]);
    }
  }

  /** The first wire stored under an id keeps it: whatever is posted after it, another wire is never stored under that id. */
  lemma FirstWireKeepsItsId(before: seq<Request>, first: Request, between: seq<Request>, second: Request)
    requires var log := PostedAll([], before);
             Posted(log, first.wire, first.recipient, first.allowed).1 == Stored
    requires Parsed(first.wire) && Parsed(second.wire) && first.wire != second.wire
    requires first.wire.outer.value.body.value.id == second.wire.outer.value.body.value.id
    ensures var log := Posted(PostedAll([], before), first.wire, first.recipient, first.allowed).0;
            var later := PostedAll(log, between);
            Posted(later, second.wire, second.recipient, second.allowed).1 != Stored
  {
    LogGrows([], before);
    PostAnswered(PostedAll([], before), first.wire, first.recipient, first.allowed);
    var log := Posted(PostedAll([], before), first.wire, first.recipient, first.allowed).0;
    LogGrows(log, between);
    var later := PostedAll(log, between);
    PostAnswered(later, second.wire, second.recipient, second.allowed);
    var r :| r in log && r.wire == first.wire;
    assert r in later && Known(later, second.wire);
  }

  /**
   * What the relay stored needs no second look at anything it has checked: its recipient accepts it
   * exactly if the sender is bonded, the number is new, the envelope is in time and the host reacts.
   */
  lemma StoredIsReceivable(
    rows: seq<Row>, w: Wire, recipient: string, allowed: set<string>, bonded: set<string>, streams: map<string, int>,
    now: int, re: Reaction)
    requires Posted(rows, w, recipient, allowed).1 == Stored
    ensures Parsed(w)
    ensures var body := w.outer.value.body.value;
            AnswerOf(w, recipient, bonded, streams, now, re).Accepted?
            <==> body.from in bonded && LastOf(w, streams) < body.seqNo && now < body.ttl && re == WORKING
  {
  }

  /** Posting a stored wire again changes nothing and is still answered as stored. */
  lemma PostIsIdempotent(rows: seq<Row>, w: Wire, recipient: string, allowed: set<string>)
    requires Posted(rows, w, recipient, allowed).1 == Stored
    ensures var once := Posted(rows, w, recipient, allowed).0;
            Posted(once, w, recipient, allowed) == (once, Stored)
  {
  }
}

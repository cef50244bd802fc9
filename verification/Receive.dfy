/** Receiving one envelope: the ordered checks, the per-stream sequence store, and replay safety. */
module Receive {
  import opened Options

  const MAX_WIRE_BYTES := 65536

  datatype Body = Body(v: int, id: string, from: string, to: string, thread: string, seqNo: int, ttl: int, payload: string)

  /** `signer` names the key the signature over the body bytes verifies under; None fields did not parse. */
  datatype Outer = Outer(v: int, from: string, to: string, signer: Option<string>, body: Option<Body>)
  datatype Wire = Wire(bytes: nat, version: Option<int>, outer: Option<Outer>)

  /** What decryption, the spillover fetch and the dispatcher answer; None means no error. */
  datatype Reaction = Reaction(decrypts: bool, resolve: Option<string>, dispatch: Option<string>)

  datatype Received = Accepted(body: Body) | Rejected(error: string)

  /** Agent ids are base64url text, so none of them contains the separator of the stream key. */
  predicate ValidId(id: string) {
    '\0' !in id
  }

  function StreamKey(thread: string, from: string): string {
    thread + ['\0'] + from
  }

  /** The separator in front of a valid id is the last one in the key. */
  lemma LastSeparator(t: string, f: string, n: nat)
    requires ValidId(f) && |t| < n < |StreamKey(t, f)|
    ensures StreamKey(t, f)[|t|] == '\0' && StreamKey(t, f)[n] != '\0'
  {
  }

  /** Two streams share a key only if they are one stream. */
  lemma StreamKeyInjective(t: string, f: string, t': string, f': string)
    requires ValidId(f) && ValidId(f') && StreamKey(t, f) == StreamKey(t', f')
    ensures t == t' && f == f'
  {
    var k := StreamKey(t, f);
    forall n | |t| < n < |k| ensures k[n] != '\0' { LastSeparator(t, f, n); }
    forall n | |t'| < n < |k| ensures k[n] != '\0' { LastSeparator(t', f', n); }
    assert k[|t|] == '\0' && k[|t'|] == '\0';
    assert |t| == |t'|;
    assert k[..|t|] == t && StreamKey(t', f')[..|t'|] == t';
    assert k[|t| + 1..] == f && StreamKey(t', f')[|t'| + 1..] == f';
  }

  /** Without that charset the joined key is ambiguous. */
  lemma SeparatorInIdCollides()
    ensures StreamKey("a", ['\0']) == StreamKey(['a', '\0'], "")
  {
  }

  function Last(streams: map<string, int>, thread: string, from: string): int {
    var k := StreamKey(thread, from);
    if k in streams then streams[k] else 0
  }

  function Committed(streams: map<string, int>, thread: string, from: string, seqNo: int): map<string, int> {
    if seqNo < 0 then streams else streams[StreamKey(thread, from) := seqNo]
  }

  /** Why an envelope is refused: the first check it fails. */
  function Refusal(w: Wire, self: string, bonded: set<string>, streams: map<string, int>, now: int, re: Reaction): Option<string> {
    if w.bytes > MAX_WIRE_BYTES then Some("envelope_too_large")
    else if w.version.Some? && w.version.value != 1 then Some("unsupported_version")
    else if w.outer.None? || w.outer.value.body.None? then Some("invalid_json")
    else
      var outer, body := w.outer.value, w.outer.value.body.value;
      if body.v != outer.v then Some("version_mismatch")
      else if body.from !in bonded then Some("recipient_not_allowed")
      else if !ValidId(body.from) || outer.signer != Some(body.from) then Some("invalid_signature")
      else if outer.to != body.to || outer.from != body.from || body.to != self then Some("routing_mismatch")
      else if body.seqNo <= Last(streams, body.thread, body.from) then Some("stale_seq")
      else if body.ttl <= now then Some("envelope_expired")
      else if !re.decrypts then Some("invalid_payload")
      else if re.resolve.Some? then re.resolve
      else re.dispatch
  }

  function After(w: Wire, self: string, bonded: set<string>, streams: map<string, int>, now: int, re: Reaction): map<string, int> {
    if Refusal(w, self, bonded, streams, now, re).Some? then streams
    else
      var body := w.outer.value.body.value;
      Committed(streams, body.thread, body.from, body.seqNo)
  }

  // ---- the checks, told apart from the code ----

  /** A check by the error it answers, and whether it holds. */
  datatype Check = Check(error: string, holds: bool)

  /** A wire whose outer envelope and body both parse. */
  predicate Parsed(w: Wire) {
    w.outer.Some? && w.outer.value.body.Some?
  }

  /** The checks in the order the protocol document numbers them, the reaction of the host last. */
  function Checks(w: Wire, self: string, bonded: set<string>, last: int, now: int, re: Reaction): seq<Check> {
    var early := [Check("envelope_too_large", w.bytes <= MAX_WIRE_BYTES),
                  Check("unsupported_version", w.version.None? || w.version.value == 1),
                  Check("invalid_json", Parsed(w))];
    if !Parsed(w) then early
    else
      var outer, body := w.outer.value, w.outer.value.body.value;
      early + [Check("version_mismatch", outer.v == body.v),
               Check("recipient_not_allowed", body.from in bonded),
               Check("invalid_signature", ValidId(body.from) && outer.signer == Some(body.from)),
               Check("routing_mismatch", body.from == outer.from && body.to == outer.to && body.to == self),
               Check("stale_seq", body.seqNo > last),
               Check("envelope_expired", now < body.ttl),
               Check("invalid_payload", re.decrypts),
               Check(if re.resolve.Some? then re.resolve.value else "", re.resolve.None?),
               Check(if re.dispatch.Some? then re.dispatch.value else "", re.dispatch.None?)]
  }

  /** The number last accepted in the stream a wire belongs to. */
  function LastOf(w: Wire, streams: map<string, int>): int {
    if Parsed(w) then Last(streams, w.outer.value.body.value.thread, w.outer.value.body.value.from) else 0
  }

  /** `why` names the first check that fails, and nothing if none does. */
  ghost predicate Names(why: Option<string>, checks: seq<Check>) {
    match why
    case None => forall i :: 0 <= i < |checks| ==> checks[i].holds
    case Some(error) =>
      exists i :: 0 <= i < |checks| && !checks[i].holds && checks[i].error == error && forall j :: 0 <= j < i ==> checks[j].holds
  }

  /** `r` names the first check that fails, or accepts the body if none does. */
  ghost predicate Answers(r: Received, w: Wire, checks: seq<Check>) {
    match r
    case Accepted(body) => Names(None, checks) && Parsed(w) && body == w.outer.value.body.value
    case Rejected(error) => Names(Some(error), checks)
  }

  class SeqStore {
    var streams: map<string, int>

    constructor ()
      ensures streams == map[]
    {
      streams := map[];
    }

    method GetLastAccepted(thread: string, from: string) returns (last: int)
      ensures last == Last(streams, thread, from)
    {
      var k := StreamKey(thread, from);
      last := if k in streams then streams[k] else 0;
    }

    method CommitAccepted(thread: string, from: string, seqNo: int)
      modifies this
      ensures streams == Committed(old(streams), thread, from, seqNo)
    {
      if seqNo < 0 {
        return;
      }
      streams := streams[StreamKey(thread, from) := seqNo];
    }
  }

  function AnswerOf(w: Wire, self: string, bonded: set<string>, streams: map<string, int>, now: int, re: Reaction): Received {
    var why := Refusal(w, self, bonded, streams, now, re);
    if why.Some? then Rejected(why.value) else Accepted(w.outer.value.body.value)
  }

  /** The answer is the first failing check's, and acceptance means that every check holds. */
  lemma AnswersInOrder(w: Wire, self: string, bonded: set<string>, streams: map<string, int>, now: int, re: Reaction)
    ensures Answers(AnswerOf(w, self, bonded, streams, now, re), w, Checks(w, self, bonded, LastOf(w, streams), now, re))
  {
    var checks := Checks(w, self, bonded, LastOf(w, streams), now, re);
    var r := AnswerOf(w, self, bonded, streams, now, re);
    if r.Rejected? {
      FirstFails(checks);
      if FirstFailing(checks) == |checks| {
        AllHold(w, self, bonded, streams, now, re);
        assert false;
      }
      ErrorOfFirst(w, self, bonded, streams, now, re, FirstFailing(checks));
    } else {
      assert |checks| == 12;
    }
  }

  lemma AllHold(w: Wire, self: string, bonded: set<string>, streams: map<string, int>, now: int, re: Reaction)
    requires var checks := Checks(w, self, bonded, LastOf(w, streams), now, re);
             forall j :: 0 <= j < |checks| ==> checks[j].holds
    ensures AnswerOf(w, self, bonded, streams, now, re).Accepted?
  {
    var checks := Checks(w, self, bonded, LastOf(w, streams), now, re);
    assert checks[0].holds && checks[1].holds && checks[2].holds;
    assert checks[3].holds && checks[4].holds && checks[5].holds && checks[6].holds && checks[7].holds;
    assert checks[8].holds && checks[9].holds && checks[10].holds && checks[11].holds;
  }

  lemma ErrorOfFirst(w: Wire, self: string, bonded: set<string>, streams: map<string, int>, now: int, re: Reaction, i: nat)
    requires var checks := Checks(w, self, bonded, LastOf(w, streams), now, re);
             i < |checks| && !checks[i].holds && forall j :: 0 <= j < i ==> checks[j].holds
    ensures var checks := Checks(w, self, bonded, LastOf(w, streams), now, re);
            AnswerOf(w, self, bonded, streams, now, re) == Rejected(checks[i].error)
  {
    var checks := Checks(w, self, bonded, LastOf(w, streams), now, re);
    assert i > 0 ==> checks[0].holds;
    assert i > 1 ==> checks[1].holds;
    assert i > 2 ==> checks[2].holds;
    assert i > 3 ==> checks[3].holds;
    assert i > 4 ==> checks[4].holds;
    assert i > 5 ==> checks[5].holds;
    assert i > 6 ==> checks[6].holds;
    assert i > 7 ==> checks[7].holds;
    assert i > 8 ==> checks[8].holds;
    assert i > 9 ==> checks[9].holds;
    assert i > 10 ==> checks[10].holds;
  }

  /** How many checks hold before the first that fails. */
  function FirstFailing(checks: seq<Check>): nat {
    if checks == [] || !checks[0].holds then 0 else 1 + FirstFailing(checks[1..])
  }

  lemma {:induction false} FirstFails(checks: seq<Check>)
    ensures var i := FirstFailing(checks);
            && i <= |checks| && (forall j :: 0 <= j < i ==> checks[j].holds) && (i < |checks| ==> !checks[i].holds)
    decreases |checks|
  {
    if checks != [] && checks[0].holds {
      FirstFails(checks[1..]);
    }
  }

  /** A host that can decrypt, resolve and dispatch. */
  const WORKING := Reaction(true, None, None)

  /**
   * A wire whose only fault was the host's reaction leaves no trace: redelivered in time to a host that
   * reacts, it is accepted, and only then its number counts.
   */
  lemma FailedReactionMayBeRetried(
    w: Wire, self: string, bonded: set<string>, streams: map<string, int>, now: int, re: Reaction, later: int)
    requires AnswerOf(w, self, bonded, streams, now, WORKING).Accepted? && later < w.outer.value.body.value.ttl
    ensures var first, kept := AnswerOf(w, self, bonded, streams, now, re), After(w, self, bonded, streams, now, re);
            && (first.Accepted? <==> re == WORKING)
            && (first.Rejected? ==>
                  && kept == streams
                  && AnswerOf(w, self, bonded, kept, later, WORKING) == Accepted(w.outer.value.body.value))
  {
  }

  /** Every check in order; the sequence number is committed only after everything else succeeded. */
  method ReceiveEnvelope(w: Wire, self: string, bonded: set<string>, store: SeqStore, now: int, re: Reaction)
    returns (r: Received)
    modifies store
    ensures store.streams == After(w, self, bonded, old(store.streams), now, re)
    ensures var why := Refusal(w, self, bonded, old(store.streams), now, re);
            r == if why.Some? then Rejected(why.value) else Accepted(w.outer.value.body.value)
    ensures Answers(r, w, Checks(w, self, bonded, LastOf(w, old(store.streams)), now, re))
    ensures r.Rejected? ==> store.streams == old(store.streams)
    ensures r.Accepted? && r.body.seqNo >= 0 ==>
              store.streams == old(store.streams)[StreamKey(r.body.thread, r.body.from) := r.body.seqNo]
  {
    AnswersInOrder(w, self, bonded, store.streams, now, re);
    if w.bytes > MAX_WIRE_BYTES {
      return Rejected("envelope_too_large");
    }
    if w.version.Some? && w.version.value != 1 {
      return Rejected("unsupported_version");
    }
    if w.outer.None? || w.outer.value.body.None? {
      return Rejected("invalid_json");
    }
    var outer, body := w.outer.value, w.outer.value.body.value;
    if body.v != outer.v {
      return Rejected("version_mismatch");
    }
    if body.from !in bonded {
      return Rejected("recipient_not_allowed");
    }
    if !ValidId(body.from) || outer.signer != Some(body.from) {
      return Rejected("invalid_signature");
    }
    if outer.to != body.to || outer.from != body.from || body.to != self {
      return Rejected("routing_mismatch");
    }
    var last := store.GetLastAccepted(body.thread, body.from);
    if body.seqNo <= last {
      return Rejected("stale_seq");
    }
    if body.ttl <= now {
      return Rejected("envelope_expired");
    }
    if !re.decrypts {
      return Rejected("invalid_payload");
    }
    if re.resolve.Some? {
      return Rejected(re.resolve.value);
    }
    if re.dispatch.Some? {
      return Rejected(re.dispatch.value);
    }
    store.CommitAccepted(body.thread, body.from, body.seqNo);
    return Accepted(body);
  }

  // ---- runs against any relay ----

  /** One wire as it arrives, with the bonds, the clock and the reaction of that moment. */
  datatype Arrival = Arrival(wire: Wire, bonded: set<string>, now: int, re: Reaction)

  function Store(self: string, streams: map<string, int>, ins: seq<Arrival>): map<string, int>
    decreases |ins|
  {
    if ins == [] then streams
    else Store(self, After(ins[0].wire, self, ins[0].bonded, streams, ins[0].now, ins[0].re), ins[1..])
  }

  function AcceptedOf(self: string, streams: map<string, int>, ins: seq<Arrival>): seq<Body>
    decreases |ins|
  {
    if ins == [] then []
    else
      var a := ins[0];
      var rest := AcceptedOf(self, After(a.wire, self, a.bonded, streams, a.now, a.re), ins[1..]);
      if Refusal(a.wire, self, a.bonded, streams, a.now, a.re).Some? then rest else [a.wire.outer.value.body.value] + rest
  }

  ghost predicate Sensible(streams: map<string, int>) {
    forall k :: k in streams ==> 0 <= streams[k]
  }

  /** A committed sequence number never falls, and other streams are not touched. */
  lemma OneArrival(self: string, streams: map<string, int>, a: Arrival, thread: string, from: string)
    requires Sensible(streams) && ValidId(from)
    ensures var after := After(a.wire, self, a.bonded, streams, a.now, a.re);
            && Sensible(after) && Last(streams, thread, from) <= Last(after, thread, from)
            && (Refusal(a.wire, self, a.bonded, streams, a.now, a.re).Some? ==> after == streams)
            && (Refusal(a.wire, self, a.bonded, streams, a.now, a.re).None? ==>
                  var b := a.wire.outer.value.body.value;
                  && ValidId(b.from) && b.to == self && a.wire.outer.value.signer == Some(b.from) && b.from in a.bonded
                  && Last(streams, b.thread, b.from) < b.seqNo == Last(after, b.thread, b.from)
                  && ((thread, from) != (b.thread, b.from) ==> Last(after, thread, from) == Last(streams, thread, from)))
  {
    if Refusal(a.wire, self, a.bonded, streams, a.now, a.re).None? {
      var b := a.wire.outer.value.body.value;
      if StreamKey(thread, from) == StreamKey(b.thread, b.from) {
        StreamKeyInjective(thread, from, b.thread, b.from);
      }
    }
  }

  lemma {:induction false} LaterIsNewer(self: string, streams: map<string, int>, ins: seq<Arrival>)
    requires Sensible(streams)
    ensures forall b :: b in AcceptedOf(self, streams, ins) ==> ValidId(b.from) && Last(streams, b.thread, b.from) < b.seqNo
    decreases |ins|
  {
    if ins != [] {
      var a := ins[0];
      var after := After(a.wire, self, a.bonded, streams, a.now, a.re);
      OneArrival(self, streams, a, "", "");
      LaterIsNewer(self, after, ins[1..]);
      forall b | b in AcceptedOf(self, after, ins[1..]) ensures ValidId(b.from) && Last(streams, b.thread, b.from) < b.seqNo {
        OneArrival(self, streams, a, b.thread, b.from);
      }
    }
  }

  /** Within one (thread, sender) stream the sequence numbers strictly increase. */
  ghost predicate Rising(acc: seq<Body>) {
    forall i, j :: 0 <= i < j < |acc| && acc[i].thread == acc[j].thread && acc[i].from == acc[j].from ==>
      acc[i].seqNo < acc[j].seqNo
  }

  lemma RisingCons(b: Body, rest: seq<Body>)
    requires Rising(rest) && forall x :: x in rest && x.thread == b.thread && x.from == b.from ==> b.seqNo < x.seqNo
    ensures Rising([b] + rest)
  {
  }

  /**
   * Whatever a relay delivers, repeats or reorders: in every stream the accepted sequence numbers
   * strictly increase, so nothing is accepted twice.
   */
  lemma {:induction false} ReplaySafe(self: string, streams: map<string, int>, ins: seq<Arrival>)
    requires Sensible(streams)
    ensures Rising(AcceptedOf(self, streams, ins))
    decreases |ins|
  {
    if ins != [] {
      var a := ins[0];
      var after := After(a.wire, self, a.bonded, streams, a.now, a.re);
      OneArrival(self, streams, a, "", "");
      ReplaySafe(self, after, ins[1..]);
      if Refusal(a.wire, self, a.bonded, streams, a.now, a.re).None? {
        LaterIsNewer(self, after, ins[1..]);
        RisingCons(a.wire.outer.value.body.value, AcceptedOf(self, after, ins[1..]));
      }
    }
  }

  /** A wire accepted once is refused ever after, however it comes back. */
  lemma {:induction false} NeverAgain(self: string, streams: map<string, int>, a: Arrival, ins: seq<Arrival>, again: Arrival)
    requires Sensible(streams) && Refusal(a.wire, self, a.bonded, streams, a.now, a.re).None? && again.wire == a.wire
    ensures var after := After(a.wire, self, a.bonded, streams, a.now, a.re);
            Refusal(again.wire, self, again.bonded, Store(self, after, ins), again.now, again.re).Some?
  {
    var after := After(a.wire, self, a.bonded, streams, a.now, a.re);
    var b := a.wire.outer.value.body.value;
    OneArrival(self, streams, a, b.thread, b.from);
    LastNeverFalls(self, after, ins, b.thread, b.from);
  }

  lemma {:induction false} LastNeverFalls(self: string, streams: map<string, int>, ins: seq<Arrival>, thread: string, from: string)
    requires Sensible(streams) && ValidId(from)
    ensures Last(streams, thread, from) <= Last(Store(self, streams, ins), thread, from)
    decreases |ins|
  {
    if ins != [] {
      OneArrival(self, streams, ins[0], thread, from);
      LastNeverFalls(self, After(ins[0].wire, self, ins[0].bonded, streams, ins[0].now, ins[0].re), ins[1..], thread, from);
    }
  }
}

/**
 * Envelopes too large for the wire: the payload is sealed, stored as an artifact, and replaced by a
 * reference. Sizes and texts are those of the real byte strings; sealing and hashing are symbolic.
 */
module Spillover {
  import opened Options
  import opened Bytes
  import opened Base64
  import opened Json
  import Receive
  import Utf8

  const MAX_PLAINTEXT: int := 10 * 1024 * 1024
  const SUMMARY_CODE_POINTS: nat := 240

  // ---- artifacts ----

  /** A sealed artifact opens under its key only; anything else has some length and opens under none. */
  datatype Blob = Sealed(key: Bytes, plain: Bytes) | Forged(length: nat, tag: nat)

  /** Nonce and tag of the cipher. */
  function BlobLength(b: Blob): nat {
    if b.Sealed? then |b.plain| + 40 else b.length
  }

  function Open(b: Blob, key: Bytes): Option<Bytes> {
    if b.Sealed? && b.key == key then Some(b.plain) else None
  }

  predicate IsHash(s: seq<int>) {
    |s| == 64 && forall i :: 0 <= i < 64 ==> 48 <= s[i] <= 57 || 97 <= s[i] <= 102
  }

  type Hash = s: seq<Ascii> | IsHash(s) witness seq(64, _ => 48)

  /** The hash of an artifact in hex; nothing is assumed of it, not even that it has no collisions. */
  type Hasher = Blob -> Hash

  // ---- references ----

  datatype SpillRef = SpillRef(hash: Chars, size: nat, contentType: Chars, summary: Chars, key: Bytes)

  const SPILL := Plain("spill")
  const HASH := Plain("artifact_hash")
  const SIZE := Plain("size")
  const TYPE := Plain("content_type")
  const SUMMARY := Plain("summary")
  const KEY := Plain("artifact_key")

  function Fields(hash: Hash, size: nat, contentType: seq<Ascii>, summary: Utf8.Text, key: Bytes): seq<Field> {
    [NumberField(SPILL, 1), TextField(HASH, hash), NumberField(SIZE, size), TextField(TYPE, contentType),
     TextField(SUMMARY, summary), TextField(KEY, Base64Url(key))]
  }

  function RefText(hash: Hash, size: nat, contentType: seq<Ascii>, summary: Utf8.Text, key: Bytes): Utf8.Text {
    ObjectText(Fields(hash, size, contentType, summary, key))
  }

  /** A text member. */
  function TextAt(m: map<Chars, Value>, key: Chars): Option<Chars> {
    if key in m && m[key].Str? then Some(m[key].chars) else None
  }

  function IntegerAt(m: map<Chars, Value>, key: Chars): Option<int> {
    if key in m then IntegerOf(m[key]) else None
  }

  /** The strict schema: these six members and no others, each of its form. */
  function ParseSpillRef(m: map<Chars, Value>): Option<SpillRef> {
    var hash, size, contentType := TextAt(m, HASH), IntegerAt(m, SIZE), TextAt(m, TYPE);
    var summary, key := TextAt(m, SUMMARY), TextAt(m, KEY);
    if m.Keys != {SPILL, HASH, SIZE, TYPE, SUMMARY, KEY} || IntegerAt(m, SPILL) != Some(1) then None
    else if hash.None? || !IsHash(hash.value) || size.None? || size.value < 0 || contentType.None? then None
    else if summary.None? || |summary.value| > SUMMARY_CODE_POINTS || key.None? then None
    else
      var secret := Decode64(key.value);
      if secret.None? || |secret.value| != 32 then None
      else Some(SpillRef(hash.value, size.value, contentType.value, summary.value, secret.value))
  }

  /** What parsing makes of a payload: no spill marker, a marker that is no valid reference, or a reference. */
  datatype Kind = NoMarker | BadRef | GoodRef(ref: SpillRef)

  /** The top-level object of a payload that is one. */
  function Top(p: Bytes): Option<map<Chars, Value>> {
    var v := Parse(Utf8.LossyText(p));
    if v.Some? && v.value.Obj? then Some(v.value.members) else None
  }

  predicate HasSpillMarker(p: Bytes) {
    Top(p).Some? && SPILL in Top(p).value
  }

  function KindOf(p: Bytes): Kind {
    if !HasSpillMarker(p) then NoMarker
    else
      var ref := ParseSpillRef(Top(p).value);
      if ref.None? then BadRef else GoodRef(ref.value)
  }

  // ---- what is derived from a payload ----

  function ContentType(p: Bytes): seq<Ascii> {
    var t := Utf8.DecodeText(p);
    if t.Some? && Parse(t.value).Some? then Plain("application/json") else Plain("application/octet-stream")
  }

  /** The first code points of a payload that is text. */
  function Summary(p: Bytes): (t: Utf8.Text)
    ensures |t| <= SUMMARY_CODE_POINTS
  {
    var t := Utf8.DecodeText(p);
    if t.None? then [] else if |t.value| <= SUMMARY_CODE_POINTS then t.value else t.value[..SUMMARY_CODE_POINTS]
  }

  /** Of a text the summary is the beginning, up to 240 code points. */
  lemma TextSummary(t: Utf8.Text)
    requires t == [] || t[0] != Utf8.BOM
    ensures var s := Summary(Utf8.Encode(t)); s <= t && |s| == if |t| <= 240 then |t| else 240
    ensures ContentType(Utf8.Encode(t)) == Plain(if Parse(t).Some? then "application/json" else "application/octet-stream")
  {
    Utf8.DecodeComplete(t);
  }

  /** Of anything else it is empty, and the content is plain bytes. */
  lemma NoTextNoSummary(p: Bytes)
    requires forall t :: Utf8.Encode(t) != p
    ensures Summary(p) == [] && ContentType(p) == Plain("application/octet-stream")
  {
    if Utf8.Decode(p).Some? {
      Utf8.DecodeSound(p);
      assert false;
    }
  }

  // ---- sizes on the wire ----

  /** The fields around the payload; type and thread already as JSON strings. */
  datatype Head = Head(id: Bytes, from: Bytes, to: Bytes, typeJson: Bytes, threadJson: Bytes, seqText: Bytes, ttlText: Bytes)

  /** A UUID, two agent ids, and two numbers as JSON prints them. */
  predicate HeadOk(h: Head) {
    |h.id| == 36 && |h.from| == 51 && |h.to| == 51 && 1 <= |h.seqText| <= 24 && 1 <= |h.ttlText| <= 24
  }

  function BodyBytes(h: Head, payload: Bytes): Bytes {
    Plain("{\"v\":1,\"id\":\"") + h.id + Plain("\",\"from\":\"") + h.from + Plain("\",\"to\":\"") + h.to
    + Plain("\",\"type\":") + h.typeJson + Plain(",\"thread\":") + h.threadJson + Plain(",\"seq\":") + h.seqText
    + Plain(",\"ttl\":") + h.ttlText + Plain(",\"payload\":\"") + payload + Plain("\"}")
  }

  /** The outer envelope: the body and its signature in base64url. */
  function WireBytes(h: Head, sealed: Bytes, signature: Bytes): Bytes {
    Plain("{\"v\":1,\"from\":\"") + h.from + Plain("\",\"to\":\"") + h.to + Plain("\",\"blob\":\"")
    + Base64Url(BodyBytes(h, Base64Url(sealed))) + Plain("\",\"sig\":\"") + Base64Url(signature) + Plain("\"}")
  }

  function BodyLength(h: Head, plain: nat): nat {
    216 + |h.typeJson| + |h.threadJson| + |h.seqText| + |h.ttlText| + Length64(plain + 40)
  }

  function WireLength(h: Head, plain: nat): nat {
    232 + Length64(BodyLength(h, plain))
  }

  lemma BodyLengthExact(h: Head, payload: Bytes)
    requires HeadOk(h)
    ensures |BodyBytes(h, payload)| == 216 + |h.typeJson| + |h.threadJson| + |h.seqText| + |h.ttlText| + |payload|
  {
  }

  /** The length of the wire depends on the payload's length alone: 24 bytes of nonce and 16 of tag are added. */
  lemma WireLengthExact(h: Head, plain: nat, sealed: Bytes, signature: Bytes)
    requires HeadOk(h) && |sealed| == plain + 40 && |signature| == 64
    ensures |WireBytes(h, sealed, signature)| == WireLength(h, plain)
  {
    var payload := Base64Url(sealed);
    var body := Base64Url(BodyBytes(h, payload));
    Base64UrlLength(sealed);
    Base64UrlLength(signature);
    BodyLengthExact(h, payload);
    Base64UrlLength(BodyBytes(h, payload));
    assert |body| == Length64(BodyLength(h, plain));
  }

  // ---- wrapping and resolving ----

  /** What one call draws and is told: the key, and how the upload went. */
  datatype Draw = Draw(key: Bytes, put: Upload)
  datatype Upload = Stored | Failed(code: Option<string>)

  predicate DrawOk(d: Draw) {
    |d.key| == 32
  }

  datatype Wrapped = Sent(payload: Bytes, spilled: bool) | Error(code: string) | Thrown(why: string)

  function RefPayload(hasher: Hasher, p: Bytes, d: Draw): Bytes {
    Utf8.Encode(RefText(hasher(Sealed(d.key, p)), |p|, ContentType(p), Summary(p), d.key))
  }

  function WrapOrSpill(hasher: Hasher, h: Head, p: Bytes, d: Draw): Wrapped {
    if WireLength(h, |p|) <= Receive.MAX_WIRE_BYTES then Sent(p, false)
    else if |p| > MAX_PLAINTEXT then Error("artifact_too_large")
    else if d.put.Failed? then
      if d.put.code == Some("hash_mismatch") then Thrown("hash_mismatch")
      else if d.put.code.Some? && d.put.code.value != "" then Error(d.put.code.value)
      else Error("artifact_upload_failed")
    else if WireLength(h, |RefPayload(hasher, p, d)|) > Receive.MAX_WIRE_BYTES then
      Thrown("Spill envelope still exceeds wire cap")
    else Sent(RefPayload(hasher, p, d), true)
  }

  datatype Resolved = Content(payload: Bytes) | Failure(error: string)

  /** `fetched` is whatever the relay returns for the artifact, or its error. */
  function ResolveSpillover(hasher: Hasher, p: Bytes, fetched: Option<Blob>): Resolved {
    match KindOf(p)
    case NoMarker => Content(p)
    case BadRef => Failure("invalid_payload")
    case GoodRef(ref) =>
      if ref.size > MAX_PLAINTEXT then Failure("artifact_too_large")
      else if fetched.None? then Failure("artifact_fetch_failed")
      else if BlobLength(fetched.value) != ref.size + 40 then Failure("artifact_decrypt_failed")
      else if hasher(fetched.value) != ref.hash then Failure("artifact_decrypt_failed")
      else
        var plain := Open(fetched.value, ref.key);
        if plain.None? then Failure("artifact_decrypt_failed") else Content(plain.value)
  }

  // ---- reading a reference back ----

  lemma NamesDiffer()
    ensures SPILL != HASH && SPILL != SIZE && SPILL != TYPE && SPILL != SUMMARY && SPILL != KEY
    ensures HASH != SIZE && HASH != TYPE && HASH != SUMMARY && HASH != KEY
    ensures SIZE != TYPE && SIZE != SUMMARY && SIZE != KEY && TYPE != SUMMARY && TYPE != KEY && SUMMARY != KEY
    ensures |SPILL| == 5 && |HASH| == 13 && |SIZE| == 4 && |TYPE| == 12 && |SUMMARY| == 7 && |KEY| == 12
  {
    assert TYPE[0] == 99 && KEY[0] == 97;
  }

  /** What the six members of a reference are read as. */
  ghost predicate RefMembers(
    m: map<Chars, Value>, hash: Hash, size: nat, contentType: seq<Ascii>, summary: Utf8.Text, key: Bytes)
  {
    && m.Keys == {SPILL, HASH, SIZE, TYPE, SUMMARY, KEY}
    && m[SPILL] == Number(1, 0) && m[HASH] == Str(hash) && m[SIZE] == Number(size, 0)
    && m[TYPE] == Str(contentType) && m[SUMMARY] == Str(summary) && m[KEY] == Str(Base64Url(key))
  }

  lemma TwoMembers(m: map<Chars, Value>, fs: seq<Field>)
    requires |fs| >= 2
    ensures Members(m, fs) == Members(m[fs[0].key := ValueOf(fs[0])][fs[1].key := ValueOf(fs[1])], fs[2..])
  {
    assert fs[1..][1..] == fs[2..];
  }

  lemma SixMembers(fs: seq<Field>)
    requires |fs| == 6
    ensures Members(map[], fs)
            == map[][fs[0].key := ValueOf(fs[0])][fs[1].key := ValueOf(fs[1])][fs[2].key := ValueOf(fs[2])]
                    [fs[3].key := ValueOf(fs[3])][fs[4].key := ValueOf(fs[4])][fs[5].key := ValueOf(fs[5])]
  {
    var m := map[][fs[0].key := ValueOf(fs[0])][fs[1].key := ValueOf(fs[1])];
    var n := m[fs[2].key := ValueOf(fs[2])][fs[3].key := ValueOf(fs[3])];
    TwoMembers(map[], fs);
    TwoMembers(m, fs[2..]);
    TwoMembers(n, fs[4..]);
    assert fs[2..][2..] == fs[4..] && fs[4..][2..] == [];
  }

  lemma MembersOfRef(hash: Hash, size: nat, contentType: seq<Ascii>, summary: Utf8.Text, key: Bytes)
    ensures RefMembers(Members(map[], Fields(hash, size, contentType, summary, key)), hash, size, contentType, summary, key)
  {
    SixMembers(Fields(hash, size, contentType, summary, key));
    NamesDiffer();
  }

  lemma ParseMembers(m: map<Chars, Value>, hash: Hash, size: nat, contentType: seq<Ascii>, summary: Utf8.Text, key: Bytes)
    requires RefMembers(m, hash, size, contentType, summary, key) && |summary| <= SUMMARY_CODE_POINTS && |key| == 32
    ensures ParseSpillRef(m) == Some(SpillRef(hash, size, contentType, summary, key))
  {
    DecodeEncoded(key);
    assert Power10(0) == 1;
    assert IntegerAt(m, SPILL) == Some(1) && IntegerAt(m, SIZE) == Some(size);
  }

  lemma TopOfRef(fs: seq<Field>)
    requires fs != []
    ensures Top(Utf8.Encode(ObjectText(fs))) == Some(Members(map[], fs))
  {
    var text := ObjectText(fs);
    Utf8.DecodeComplete(text);
    Utf8.LossyIsExact(Utf8.Encode(text));
    assert text[0] == 123;
    ParseObject(fs);
  }

  /** The bytes of a reference are read back as that reference, whatever characters its summary has. */
  lemma ReferenceReadBack(hash: Hash, size: nat, contentType: seq<Ascii>, summary: Utf8.Text, key: Bytes)
    requires |summary| <= SUMMARY_CODE_POINTS && |key| == 32
    ensures KindOf(Utf8.Encode(RefText(hash, size, contentType, summary, key)))
            == GoodRef(SpillRef(hash, size, contentType, summary, key))
  {
    TopOfRef(Fields(hash, size, contentType, summary, key));
    MembersOfRef(hash, size, contentType, summary, key);
    ParseMembers(Members(map[], Fields(hash, size, contentType, summary, key)), hash, size, contentType, summary, key);
  }

  // ---- how large a reference is ----

  lemma SimpleLiteral(s: string)
    requires forall c :: c in s ==> ' ' <= c <= '~' && c != '\"' && c != '\\'
    ensures Simple(Plain(s)) && |Plain(s)| == |s|
  {
    assert forall i :: 0 <= i < |s| ==> s[i] in s;
  }

  lemma NamesAreSimple()
    ensures Simple(SPILL) && Simple(HASH) && Simple(SIZE) && Simple(TYPE) && Simple(SUMMARY) && Simple(KEY)
  {
    SimpleLiteral("spill");
    SimpleLiteral("artifact_hash");
    SimpleLiteral("size");
    SimpleLiteral("content_type");
    SimpleLiteral("summary");
    SimpleLiteral("artifact_key");
  }

  lemma RefSize(hash: Hash, size: nat, contentType: seq<Ascii>, summary: Utf8.Text, key: Bytes)
    requires |key| == 32 && Simple(contentType)
    ensures Size(RefText(hash, size, contentType, summary, key))
            == 194 + |Decimal(size)| + |contentType| + Size(EscapedAll(summary))
  {
    var fs := Fields(hash, size, contentType, summary, key);
    ObjectTextSize(fs);
    NamesAreSimple();
    SimpleSize(SPILL);
    SimpleSize(HASH);
    SimpleSize(SIZE);
    SimpleSize(TYPE);
    SimpleSize(SUMMARY);
    SimpleSize(KEY);
    SimpleSize(hash);
    SimpleSize(contentType);
    KeyIsSimple(key);
    SixFields(fs);
  }

  lemma KeyIsSimple(key: Bytes)
    requires |key| == 32
    ensures Size(EscapedAll(Base64Url(key))) == 43
  {
    Base64UrlLength(key);
    AlphabetOnly(key);
    SimpleSize(Base64Url(key));
  }

  lemma SixFields(fs: seq<Field>)
    requires |fs| == 6
    ensures FieldsSize(fs)
            == 5 + FieldSize(fs[0]) + FieldSize(fs[1]) + FieldSize(fs[2]) + FieldSize(fs[3]) + FieldSize(fs[4]) + FieldSize(fs[5])
  {
    assert fs[1..][1..] == fs[2..] && fs[2..][1..] == fs[3..] && fs[3..][1..] == fs[4..] && fs[4..][1..] == fs[5..];
    assert FieldsSize(fs[4..]) == FieldSize(fs[4]) + 1 + FieldSize(fs[5]);
    assert FieldsSize(fs[2..]) == FieldSize(fs[2]) + 1 + FieldSize(fs[3]) + 1 + FieldsSize(fs[4..]);
  }

  lemma ContentTypeIsSimple(p: Bytes)
    ensures Simple(ContentType(p)) && 16 <= |ContentType(p)| <= 24
  {
    SimpleLiteral("application/json");
    SimpleLiteral("application/octet-stream");
  }

  /** A reference stays small whatever it refers to. */
  lemma RefIsSmall(hasher: Hasher, p: Bytes, d: Draw)
    requires DrawOk(d) && |p| <= MAX_PLAINTEXT
    ensures 211 <= |RefPayload(hasher, p, d)| <= 1666
  {
    ContentTypeIsSimple(p);
    RefSize(hasher(Sealed(d.key, p)), |p|, ContentType(p), Summary(p), d.key);
    EscapedSize(Summary(p));
    DecimalLength(|p|);
  }

  lemma SmallFits(h: Head, n: nat)
    requires HeadOk(h) && n <= 1666 && |h.typeJson| + |h.threadJson| <= 46439
    ensures WireLength(h, n) <= Receive.MAX_WIRE_BYTES
  {
  }

  /** Nothing above the cap is sent, and with short enough type and thread a spilled envelope always fits. */
  lemma SpilledFits(hasher: Hasher, h: Head, p: Bytes, d: Draw)
    requires HeadOk(h) && DrawOk(d)
    ensures var r := WrapOrSpill(hasher, h, p, d);
            && (r.Sent? ==> WireLength(h, |r.payload|) <= Receive.MAX_WIRE_BYTES)
            && (|h.typeJson| + |h.threadJson| <= 46439 ==> r != Thrown("Spill envelope still exceeds wire cap"))
  {
    hide RefPayload, WireLength;
    if |p| <= MAX_PLAINTEXT {
      RefIsSmall(hasher, p, d);
      if |h.typeJson| + |h.threadJson| <= 46439 {
        SmallFits(h, |RefPayload(hasher, p, d)|);
      }
    }
  }

  predicate Fits(h: Head, p: Bytes) {
    WireLength(h, |p|) <= Receive.MAX_WIRE_BYTES
  }

  /** The reference would be worth sending: the plain wire is too large, the artifact is not, and the relay has it. */
  predicate Uploaded(h: Head, p: Bytes, d: Draw) {
    !Fits(h, p) && |p| <= MAX_PLAINTEXT && d.put.Stored?
  }

  /** A payload goes out as it is exactly if it fits, and as a reference exactly if the relay took the artifact. */
  lemma SentIff(hasher: Hasher, h: Head, p: Bytes, d: Draw)
    ensures var r, ref := WrapOrSpill(hasher, h, p, d), RefPayload(hasher, p, d);
            && (r.Sent? && !r.spilled <==> Fits(h, p))
            && (r.Sent? && r.spilled <==> Uploaded(h, p, d) && Fits(h, ref))
            && (r.Sent? ==> r.payload == if r.spilled then ref else p)
  {
    hide RefPayload, WireLength;
  }

  /** The errors: too large for an artifact, or the relay's own code for a failed upload. */
  lemma ErrorIff(hasher: Hasher, h: Head, p: Bytes, d: Draw, code: string)
    ensures WrapOrSpill(hasher, h, p, d) == Error(code) <==>
              && !Fits(h, p)
              && if |p| > MAX_PLAINTEXT then code == "artifact_too_large"
                 else
                   && d.put.Failed? && d.put.code != Some("hash_mismatch")
                   && code == (if d.put.code == None || d.put.code == Some("") then "artifact_upload_failed" else d.put.code.value)
  {
    hide RefPayload, WireLength;
  }

  /** The two exceptions: the relay computed another hash, or the reference itself does not fit. */
  lemma ThrownIff(hasher: Hasher, h: Head, p: Bytes, d: Draw, why: string)
    ensures WrapOrSpill(hasher, h, p, d) == Thrown(why) <==>
              && !Fits(h, p) && |p| <= MAX_PLAINTEXT
              && ((d.put == Failed(Some("hash_mismatch")) && why == "hash_mismatch")
                  || (d.put.Stored? && !Fits(h, RefPayload(hasher, p, d)) && why == "Spill envelope still exceeds wire cap"))
  {
    hide RefPayload, WireLength;
  }

  /** With longer names than this no reference fits either, so whatever had to spill is given up. */
  lemma LongNamesNeverFit(hasher: Hasher, h: Head, p: Bytes, d: Draw)
    requires HeadOk(h) && DrawOk(d) && |h.typeJson| + |h.threadJson| >= 48426
    requires WireLength(h, |p|) > Receive.MAX_WIRE_BYTES && |p| <= MAX_PLAINTEXT && d.put.Stored?
    ensures WrapOrSpill(hasher, h, p, d) == Thrown("Spill envelope still exceeds wire cap")
  {
    RefIsSmall(hasher, p, d);
  }

  function Ones(n: nat): Utf8.Text {
    seq(n, _ => 1)
  }

  lemma {:induction false} OnesLengths(n: nat)
    ensures |Utf8.Encode(Ones(n))| == n && Size(EscapedAll(Ones(n))) == 6 * n
  {
    if n > 0 {
      OnesLengths(n - 1);
      assert Ones(n)[1..] == Ones(n - 1);
      SizeAppend(Escaped(1), EscapedAll(Ones(n - 1)));
      SizeOfAscii(Escaped(1));
    }
  }

  /** Ten million control characters: text, but no JSON. */
  lemma OnesAreText(n: nat)
    requires n > SUMMARY_CODE_POINTS
    ensures var p := Utf8.Encode(Ones(n));
            ContentType(p) == Plain("application/octet-stream") && Summary(p) == Ones(SUMMARY_CODE_POINTS)
  {
    var t := Ones(n);
    Utf8.DecodeComplete(t);
    assert Utf8.WithoutBom(t) == t;
    assert SkipBlanks(t) == t && ReadNumber(t).None?;
    assert t[..SUMMARY_CODE_POINTS] == Ones(SUMMARY_CODE_POINTS);
  }

  /** The bound of `SpilledFits` is sharp: one byte more, and ten million control characters do not fit. */
  lemma BoundIsSharp(hasher: Hasher, h: Head, d: Draw)
    requires HeadOk(h) && DrawOk(d) && |h.typeJson| + |h.threadJson| == 46440 && |h.seqText| == 24 && |h.ttlText| == 24
    requires d.put.Stored?
    ensures WrapOrSpill(hasher, h, Utf8.Encode(Ones(10_000_000)), d) == Thrown("Spill envelope still exceeds wire cap")
  {
    var n := 10_000_000;
    var p := Utf8.Encode(Ones(n));
    OnesLengths(n);
    OnesAreText(n);
    OnesLengths(SUMMARY_CODE_POINTS);
    DecimalLength(n);
    ContentTypeIsSimple(p);
    RefSize(hasher(Sealed(d.key, p)), |p|, ContentType(p), Summary(p), d.key);
    assert |RefPayload(hasher, p, d)| == 1666;
  }

  // ---- the round trip ----

  lemma SpilledPayload(hasher: Hasher, h: Head, p: Bytes, d: Draw)
    requires WrapOrSpill(hasher, h, p, d).Sent? && WrapOrSpill(hasher, h, p, d).spilled
    ensures WrapOrSpill(hasher, h, p, d).payload == RefPayload(hasher, p, d) && |p| <= MAX_PLAINTEXT
  {
  }

  /** What a fetched artifact makes of a spilled payload. */
  lemma ResolvesTo(hasher: Hasher, p: Bytes, d: Draw, fetched: Option<Blob>)
    requires DrawOk(d) && |p| <= MAX_PLAINTEXT
    ensures var r := ResolveSpillover(hasher, RefPayload(hasher, p, d), fetched);
            && (fetched == Some(Sealed(d.key, p)) ==> r == Content(p))
            && (fetched.Some? && hasher(fetched.value) != hasher(Sealed(d.key, p)) ==> r.Failure?)
            && (fetched.None? ==> r.Failure?)
  {
    ReferenceReadBack(hasher(Sealed(d.key, p)), |p|, ContentType(p), Summary(p), d.key);
  }

  /** A payload that is a reference to a sealed copy of itself. */
  predicate RefersToItself(hasher: Hasher, p: Bytes, fetched: Option<Blob>) {
    && KindOf(p).GoodRef? && fetched.Some? && |p| <= MAX_PLAINTEXT
    && var ref := KindOf(p).ref; ref.size == |p| && fetched.value == Sealed(ref.key, p) && ref.hash == hasher(fetched.value)
  }

  lemma AsItIsIff(hasher: Hasher, p: Bytes, fetched: Option<Blob>)
    requires |p| <= MAX_PLAINTEXT
    ensures ResolveSpillover(hasher, p, fetched) == Content(p) <==> !HasSpillMarker(p) || RefersToItself(hasher, p, fetched)
  {
  }

  lemma SmallerThanTheCap(h: Head, n: nat)
    requires WireLength(h, n) <= Receive.MAX_WIRE_BYTES
    ensures n <= MAX_PLAINTEXT
  {
  }

  /** The relay's artifacts by hash. */
  type Artifacts = map<Chars, Blob>

  /** The relay keeps the sealed payload exactly if the upload succeeded. */
  function AfterUpload(hasher: Hasher, kept: Artifacts, p: Bytes, d: Draw): Artifacts {
    if d.put.Stored? then kept[hasher(Sealed(d.key, p)) := Sealed(d.key, p)] else kept
  }

  function Fetch(kept: Artifacts, payload: Bytes): Option<Blob> {
    if KindOf(payload).GoodRef? && KindOf(payload).ref.hash in kept then Some(kept[KindOf(payload).ref.hash]) else None
  }

  /** A spilled payload is in the relay's store when its reference goes out, and comes back whole from there. */
  lemma SpilledComesBack(hasher: Hasher, h: Head, p: Bytes, d: Draw, kept: Artifacts)
    requires DrawOk(d) && WrapOrSpill(hasher, h, p, d).Sent? && WrapOrSpill(hasher, h, p, d).spilled
    ensures var payload, store := WrapOrSpill(hasher, h, p, d).payload, AfterUpload(hasher, kept, p, d);
            Fetch(store, payload) == Some(Sealed(d.key, p))
            && ResolveSpillover(hasher, payload, Fetch(store, payload)) == Content(p)
  {
    hide RefPayload, WireLength, KindOf;
    SentIff(hasher, h, p, d);
    ReferenceIsRead(hasher, p, d);
    ResolvesTo(hasher, p, d, Some(Sealed(d.key, p)));
  }

  lemma ReferenceIsRead(hasher: Hasher, p: Bytes, d: Draw)
    requires DrawOk(d)
    ensures KindOf(RefPayload(hasher, p, d))
            == GoodRef(SpillRef(hasher(Sealed(d.key, p)), |p|, ContentType(p), Summary(p), d.key))
  {
    ReferenceReadBack(hasher(Sealed(d.key, p)), |p|, ContentType(p), Summary(p), d.key);
  }

  /**
   * A spilled payload comes back whole from the relay. One sent as it is comes back exactly if
   * its bytes are not a JSON object with a spill member of its own, or hold a reference to themselves.
   */
  lemma RoundTrip(hasher: Hasher, h: Head, p: Bytes, d: Draw, kept: Artifacts, fetched: Option<Blob>)
    requires DrawOk(d) && WrapOrSpill(hasher, h, p, d).Sent?
    ensures var r := WrapOrSpill(hasher, h, p, d);
            var store := AfterUpload(hasher, kept, p, d);
            if r.spilled then ResolveSpillover(hasher, r.payload, Fetch(store, r.payload)) == Content(p)
            else
              && r.payload == p
              && var back := ResolveSpillover(hasher, p, fetched) == Content(p);
                 back <==> !HasSpillMarker(p) || RefersToItself(hasher, p, fetched)
  {
    if WrapOrSpill(hasher, h, p, d).spilled {
      SpilledComesBack(hasher, h, p, d, kept);
    } else {
      SmallerThanTheCap(h, |p|);
      AsItIsIff(hasher, p, fetched);
    }
  }

  /** Whatever the relay returns, a spilled payload resolves to the original or to an error, unless hashes collide. */
  lemma TamperingIsNoticed(hasher: Hasher, h: Head, p: Bytes, d: Draw, fetched: Option<Blob>)
    requires DrawOk(d) && WrapOrSpill(hasher, h, p, d).Sent? && WrapOrSpill(hasher, h, p, d).spilled
    ensures var r := ResolveSpillover(hasher, WrapOrSpill(hasher, h, p, d).payload, fetched);
            || r == Content(p) || r.Failure?
            || (fetched.Some? && fetched.value != Sealed(d.key, p) && hasher(fetched.value) == hasher(Sealed(d.key, p)))
  {
    SpilledPayload(hasher, h, p, d);
    ResolvesTo(hasher, p, d, fetched);
  }

  /** A payload of one's own with a spill member, small enough to be sent as it is, is refused on arrival. */
  lemma OwnMarkerIsRefused(hasher: Hasher, fetched: Option<Blob>)
    ensures ResolveSpillover(hasher, Utf8.Encode(ObjectText([NumberField(SPILL, 1)])), fetched) == Failure("invalid_payload")
  {
    var fs := [NumberField(SPILL, 1)];
    TopOfRef(fs);
    NamesDiffer();
    assert Members(map[], fs) == map[SPILL := Number(1, 0)] by { assert fs[1..] == []; }
    assert HASH !in map[SPILL := Number(1, 0)];
  }
}

/**
 * The byte strings hashed into pairing fingerprints and bond tags: length-prefixed fields behind a
 * domain string. Fields are taken as the byte strings they encode to.
 */
module PairingPreimages {
  import opened Bytes
  import Utf8

  /** "agentpair-pair-" followed by "confirm-v1", "confirm-v2" and "bondok-v1". */
  const DOMAIN_V1: Bytes := [
    97, 103, 101, 110, 116, 112, 97, 105, 114, 45, 112, 97, 105, 114, 45,
    99, 111, 110, 102, 105, 114, 109, 45, 118, 49]
  const DOMAIN_V2: Bytes := [
    97, 103, 101, 110, 116, 112, 97, 105, 114, 45, 112, 97, 105, 114, 45,
    99, 111, 110, 102, 105, 114, 109, 45, 118, 50]
  const DOMAIN_BOND: Bytes := [
    97, 103, 101, 110, 116, 112, 97, 105, 114, 45, 112, 97, 105, 114, 45,
    98, 111, 110, 100, 111, 107, 45, 118, 49]

  /** Two bytes, the larger first; longer lengths wrap round. */
  function U16Be(n: nat): Bytes {
    [(n / 256) % 256, n % 256]
  }

  function Field(b: Bytes): Bytes {
    U16Be(|b|) + b
  }

  function Fields(bs: seq<Bytes>): Bytes {
    if bs == [] then [] else Field(bs[0]) + Fields(bs[1..])
  }

  function ProfileList(ps: seq<Bytes>): Bytes {
    U16Be(|ps|) + Fields(ps)
  }

  function PreimageV1(key: Bytes, initiator: Bytes, joiner: Bytes): Bytes {
    DOMAIN_V1 + (Field(key) + (Field(initiator) + Field(joiner)))
  }

  function PreimageV2(key: Bytes, initiator: Bytes, joiner: Bytes, ps: seq<Bytes>, qs: seq<Bytes>): Bytes {
    DOMAIN_V2 + (Field(key) + (Field(initiator) + (Field(joiner) + (ProfileList(ps) + ProfileList(qs)))))
  }

  function PreimageBond(key: Bytes, sender: Bytes): Bytes {
    DOMAIN_BOND + (Field(key) + Field(sender))
  }

  // ---- building them ----

  function Concat(parts: seq<Bytes>): Bytes {
    if parts == [] then [] else parts[0] + Concat(parts[1..])
  }

  lemma {:induction false} ConcatAppend(ps: seq<Bytes>, qs: seq<Bytes>)
    ensures Concat(ps + qs) == Concat(ps) + Concat(qs)
  {
    if ps == [] {
      assert ps + qs == qs;
    } else {
      ConcatAppend(ps[1..], qs);
      assert (ps + qs)[0] == ps[0] && (ps + qs)[1..] == ps[1..] + qs;
      Utf8.Associate(ps[0], Concat(ps[1..]), Concat(qs));
    }
  }

  lemma ConcatPair(a: Bytes, b: Bytes)
    ensures Concat([a, b]) == a + b
  {
    assert [a, b][1..] == [b];
    assert Concat([b]) == b + Concat([]);
  }

  method ConcatParts(parts: seq<Bytes>) returns (message: array<Byte>)
    ensures fresh(message) && message[..] == Concat(parts)
  {
    var total := 0;
    for n := 0 to |parts|
      invariant total == |Concat(parts[..n])|
    {
      assert parts[..n + 1] == parts[..n] + [parts[n]];
      ConcatAppend(parts[..n], [parts[n]]);
      total := total + |parts[n]|;
    }
    assert parts[..|parts|] == parts;
    message := new Byte[total](_ => 0);
    var offset := 0;
    for n := 0 to |parts|
      invariant offset == |Concat(parts[..n])| <= total
      invariant message[..offset] == Concat(parts[..n])
    {
      assert parts[..n + 1] == parts[..n] + [parts[n]];
      ConcatAppend(parts[..n], [parts[n]]);
      ConcatAppend(parts[..n + 1], parts[n + 1..]);
      assert parts == parts[..n + 1] + parts[n + 1..];
      ghost var was := message[..offset];
      forall k | 0 <= k < |parts[n]| {
        message[offset + k] := parts[n][k];
      }
      assert message[..offset] == was;
      assert message[..offset + |parts[n]|] == was + parts[n];
      offset := offset + |parts[n]|;
    }
    assert message[..] == message[..offset];
  }

  /** The parts of a profile list: its count, then each profile behind its length. */
  method EncodeProfileList(profiles: seq<Bytes>) returns (parts: seq<Bytes>)
    ensures Concat(parts) == ProfileList(profiles)
  {
    parts := [U16Be(|profiles|)];
    for n := 0 to |profiles|
      invariant Concat(parts) == U16Be(|profiles|) + Fields(profiles[..n])
    {
      var p := profiles[n];
      assert profiles[..n + 1] == profiles[..n] + [p];
      FieldsAppend(profiles[..n], p);
      ConcatAppend(parts, [U16Be(|p|), p]);
      ConcatPair(U16Be(|p|), p);
      parts := parts + [U16Be(|p|), p];
    }
    assert profiles[..|profiles|] == profiles;
  }

  lemma {:induction false} FieldsAppend(ps: seq<Bytes>, p: Bytes)
    ensures Fields(ps + [p]) == Fields(ps) + Field(p)
  {
    if ps == [] {
      assert ps + [p] == [p];
    } else {
      FieldsAppend(ps[1..], p);
      assert (ps + [p])[1..] == ps[1..] + [p];
    }
  }

  method BuildV2(key: Bytes, initiator: Bytes, joiner: Bytes, ps: seq<Bytes>, qs: seq<Bytes>) returns (message: array<Byte>)
    ensures fresh(message) && message[..] == PreimageV2(key, initiator, joiner, ps, qs)
  {
    var first := [DOMAIN_V2, U16Be(|key|), key, U16Be(|initiator|), initiator, U16Be(|joiner|), joiner];
    var second := EncodeProfileList(ps);
    var third := EncodeProfileList(qs);
    ConcatAppend(first, second + third);
    ConcatAppend(second, third);
    HeadParts(DOMAIN_V2, key, initiator, joiner);
    message := ConcatParts(first + (second + third));
  }

  lemma HeadParts(domain: Bytes, key: Bytes, initiator: Bytes, joiner: Bytes)
    ensures Concat([domain, U16Be(|key|), key, U16Be(|initiator|), initiator, U16Be(|joiner|), joiner])
            == domain + (Field(key) + (Field(initiator) + Field(joiner)))
  {
    var k, i, j := [U16Be(|key|), key], [U16Be(|initiator|), initiator], [U16Be(|joiner|), joiner];
    ConcatPair(U16Be(|key|), key);
    ConcatPair(U16Be(|initiator|), initiator);
    ConcatPair(U16Be(|joiner|), joiner);
    ConcatAppend(i, j);
    ConcatAppend(k, i + j);
    assert [domain, U16Be(|key|), key, U16Be(|initiator|), initiator, U16Be(|joiner|), joiner][1..] == k + (i + j);
  }

  // ---- reading them back ----

  predicate Short(b: Bytes) {
    |b| < 65536
  }

  predicate AllShort(bs: seq<Bytes>) {
    |bs| < 65536 && forall b :: b in bs ==> Short(b)
  }

  lemma U16Injective(m: nat, n: nat)
    requires m < 65536 && n < 65536 && U16Be(m) == U16Be(n)
    ensures m == n
  {
  }

  /** A short field ends where its length says, so what follows it starts at the same place. */
  lemma FieldSplit(a: Bytes, rest: Bytes, b: Bytes, rest': Bytes)
    requires Short(a) && Short(b) && Field(a) + rest == Field(b) + rest'
    ensures a == b && rest == rest'
  {
    var s, t := Field(a) + rest, Field(b) + rest';
    assert s[..2] == U16Be(|a|) && t[..2] == U16Be(|b|);
    U16Injective(|a|, |b|);
    assert s[2..2 + |a|] == a && t[2..2 + |b|] == b;
    assert s[2 + |a|..] == rest && t[2 + |b|..] == rest';
  }

  lemma {:induction false} FieldsSplit(ps: seq<Bytes>, rest: Bytes, qs: seq<Bytes>, rest': Bytes)
    requires |ps| == |qs| && (forall p :: p in ps ==> Short(p)) && (forall q :: q in qs ==> Short(q))
    requires Fields(ps) + rest == Fields(qs) + rest'
    ensures ps == qs && rest == rest'
    decreases |ps|
  {
    if ps == [] {
      assert Fields(ps) + rest == rest && Fields(qs) + rest' == rest';
    } else {
      assert Fields(ps) + rest == Field(ps[0]) + (Fields(ps[1..]) + rest);
      assert Fields(qs) + rest' == Field(qs[0]) + (Fields(qs[1..]) + rest');
      FieldSplit(ps[0], Fields(ps[1..]) + rest, qs[0], Fields(qs[1..]) + rest');
      FieldsSplit(ps[1..], rest, qs[1..], rest');
      assert ps == [ps[0]] + ps[1..] && qs == [qs[0]] + qs[1..];
    }
  }

  lemma ProfileListSplit(ps: seq<Bytes>, rest: Bytes, qs: seq<Bytes>, rest': Bytes)
    requires AllShort(ps) && AllShort(qs) && ProfileList(ps) + rest == ProfileList(qs) + rest'
    ensures ps == qs && rest == rest'
  {
    var s, t := ProfileList(ps) + rest, ProfileList(qs) + rest';
    assert s[..2] == U16Be(|ps|) && t[..2] == U16Be(|qs|);
    U16Injective(|ps|, |qs|);
    assert s[2..] == Fields(ps) + rest && t[2..] == Fields(qs) + rest';
    FieldsSplit(ps, rest, qs, rest');
  }

  lemma SameDomain(d: Bytes, x: Bytes, y: Bytes)
    requires d + x == d + y
    ensures x == y
  {
    assert (d + x)[|d|..] == x && (d + y)[|d|..] == y;
  }

  datatype Confirm = Confirm(key: Bytes, initiator: Bytes, joiner: Bytes, initProfiles: seq<Bytes>, joinProfiles: seq<Bytes>)

  predicate ShortConfirm(c: Confirm) {
    && Short(c.key) && Short(c.initiator) && Short(c.joiner)
    && AllShort(c.initProfiles) && AllShort(c.joinProfiles)
  }

  function PreimageOf(c: Confirm): Bytes {
    PreimageV2(c.key, c.initiator, c.joiner, c.initProfiles, c.joinProfiles)
  }

  /** One v2 preimage comes from one key, one pair of ids and one pair of profile lists. */
  lemma V2Injective(c: Confirm, d: Confirm)
    requires ShortConfirm(c) && ShortConfirm(d) && PreimageOf(c) == PreimageOf(d)
    ensures c == d
  {
    var c3, d3 := ProfileList(c.initProfiles) + ProfileList(c.joinProfiles), ProfileList(d.initProfiles) + ProfileList(d.joinProfiles);
    var c2, d2 := Field(c.joiner) + c3, Field(d.joiner) + d3;
    var c1, d1 := Field(c.initiator) + c2, Field(d.initiator) + d2;
    SameDomain(DOMAIN_V2, Field(c.key) + c1, Field(d.key) + d1);
    FieldSplit(c.key, c1, d.key, d1);
    FieldSplit(c.initiator, c2, d.initiator, d2);
    FieldSplit(c.joiner, c3, d.joiner, d3);
    ProfileListSplit(c.initProfiles, ProfileList(c.joinProfiles), d.initProfiles, ProfileList(d.joinProfiles));
    assert ProfileList(c.joinProfiles) + [] == ProfileList(c.joinProfiles);
    assert ProfileList(d.joinProfiles) + [] == ProfileList(d.joinProfiles);
    ProfileListSplit(c.joinProfiles, [], d.joinProfiles, []);
  }

  function EncodeAll(ts: seq<Utf8.Text>): (r: seq<Bytes>)
    ensures |r| == |ts| && forall i :: 0 <= i < |ts| ==> r[i] == Utf8.Encode(ts[i])
  {
    seq(|ts|, i requires 0 <= i < |ts| => Utf8.Encode(ts[i]))
  }

  lemma EncodeAllInjective(ts: seq<Utf8.Text>, us: seq<Utf8.Text>)
    requires EncodeAll(ts) == EncodeAll(us)
    ensures ts == us
  {
    forall i | 0 <= i < |ts| ensures ts[i] == us[i] {
      assert EncodeAll(ts)[i] == EncodeAll(us)[i];
      Utf8.EncodeInjective(ts[i], us[i]);
    }
  }

  /** The fields of a fingerprint as the texts they are before encoding. */
  datatype TextConfirm = TextConfirm(
    key: Bytes, initiator: Utf8.Text, joiner: Utf8.Text, initProfiles: seq<Utf8.Text>, joinProfiles: seq<Utf8.Text>)

  function Encoded(c: TextConfirm): Confirm {
    Confirm(c.key, Utf8.Encode(c.initiator), Utf8.Encode(c.joiner), EncodeAll(c.initProfiles), EncodeAll(c.joinProfiles))
  }

  /** Also on the texts: one preimage, one key, one pair of ids, one pair of profile lists. */
  lemma V2InjectiveOnText(c: TextConfirm, d: TextConfirm)
    requires ShortConfirm(Encoded(c)) && ShortConfirm(Encoded(d)) && PreimageOf(Encoded(c)) == PreimageOf(Encoded(d))
    ensures c == d
  {
    V2Injective(Encoded(c), Encoded(d));
    Utf8.EncodeInjective(c.initiator, d.initiator);
    Utf8.EncodeInjective(c.joiner, d.joiner);
    EncodeAllInjective(c.initProfiles, d.initProfiles);
    EncodeAllInjective(c.joinProfiles, d.joinProfiles);
  }

  lemma BondInjective(key: Bytes, sender: Bytes, key': Bytes, sender': Bytes)
    requires Short(key) && Short(sender) && Short(key') && Short(sender')
    requires PreimageBond(key, sender) == PreimageBond(key', sender')
    ensures key == key' && sender == sender'
  {
    SameDomain(DOMAIN_BOND, Field(key) + Field(sender), Field(key') + Field(sender'));
    FieldSplit(key, Field(sender), key', Field(sender'));
    assert Field(sender) + [] == Field(sender) && Field(sender') + [] == Field(sender');
    FieldSplit(sender, [], sender', []);
  }

  lemma V1Injective(key: Bytes, i: Bytes, j: Bytes, key': Bytes, i': Bytes, j': Bytes)
    requires Short(key) && Short(i) && Short(j) && Short(key') && Short(i') && Short(j')
    requires PreimageV1(key, i, j) == PreimageV1(key', i', j')
    ensures key == key' && i == i' && j == j'
  {
    SameDomain(DOMAIN_V1, Field(key) + (Field(i) + Field(j)), Field(key') + (Field(i') + Field(j')));
    FieldSplit(key, Field(i) + Field(j), key', Field(i') + Field(j'));
    FieldSplit(i, Field(j), i', Field(j'));
    assert Field(j) + [] == Field(j) && Field(j') + [] == Field(j');
    FieldSplit(j, [], j', []);
  }

  /** No preimage of one kind is one of another, whatever the fields and however long they are. */
  lemma DomainsSeparate(c: Confirm, key: Bytes, i: Bytes, j: Bytes, key': Bytes, sender: Bytes)
    ensures PreimageOf(c) != PreimageV1(key, i, j)
    ensures PreimageOf(c) != PreimageBond(key', sender)
    ensures PreimageV1(key, i, j) != PreimageBond(key', sender)
  {
    assert PreimageOf(c)[24] == 50 && PreimageV1(key, i, j)[24] == 49;
    assert PreimageOf(c)[15] == 99 && PreimageV1(key, i, j)[15] == 99 && PreimageBond(key', sender)[15] == 98;
  }

  function Zeros(n: nat): Bytes {
    seq(n, _ => 0)
  }

  /** The length bound matters: two fields of 65536 zero bytes, one empty and one not, can trade places. */
  lemma LongFieldsCollide(key: Bytes)
    ensures PreimageV1(key, Zeros(65536), []) == PreimageV1(key, [], Zeros(65536))
  {
  }
}

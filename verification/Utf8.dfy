/**
 * UTF-8 over code points (sections 3 and 4 of RFC 3629), a decoder that accepts nothing else, and the
 * truncation of peer text to a byte cap.
 */
module Utf8 {
  import opened Options
  import opened Bytes

  /** A Unicode scalar value: no surrogates. */
  type Scalar = c: int | 0 <= c < 0xD800 || 0xE000 <= c < 0x110000
  type Text = seq<Scalar>

  const BOM: Scalar := 0xFEFF

  function EncodeOne(c: Scalar): Bytes {
    var q1 := c / 64;
    var q2 := q1 / 64;
    if c < 0x80 then [c]
    else if c < 0x800 then [0xC0 + q1, 0x80 + c % 64]
    else if c < 0x10000 then [0xE0 + q2, 0x80 + q1 % 64, 0x80 + c % 64]
    else [0xF0 + q2 / 64, 0x80 + q2 % 64, 0x80 + q1 % 64, 0x80 + c % 64]
  }

  function Encode(t: Text): Bytes {
    if t == [] then [] else EncodeOne(t[0]) + Encode(t[1..])
  }

  predicate Tail(b: Byte) {
    0x80 <= b < 0xC0
  }

  /** How many bytes a sequence with this first byte has. */
  function Width(b: Byte): nat {
    if b < 0x80 then 1 else if b < 0xE0 then 2 else if b < 0xF0 then 3 else 4
  }

  /** A six-bit group appended to the value read so far. */
  function Shift(n: int, b: Byte): int {
    n * 64 + (b as int - 0x80)
  }

  lemma ShiftSplits(n: int, b: Byte)
    requires Tail(b)
    ensures Shift(n, b) / 64 == n && 0x80 + Shift(n, b) % 64 == b as int
  {
  }

  function Second(b: Bytes): int
    requires |b| >= 2
  {
    Shift(b[0] as int - (if b[0] < 0xE0 then 0xC0 else if b[0] < 0xF0 then 0xE0 else 0xF0), b[1])
  }

  /** The first code point of a byte string, refusing stray, overlong, surrogate and out-of-range forms. */
  function DecodeOne(b: Bytes): Option<Scalar>
    requires b != []
  {
    if b[0] < 0x80 then Some(b[0] as int)
    else if b[0] < 0xC2 || b[0] > 0xF4 || |b| < Width(b[0]) || !Tail(b[1]) then None
    else if b[0] < 0xE0 then Some(Second(b))
    else if !Tail(b[2]) then None
    else
      var three := Shift(Second(b), b[2]);
      if b[0] < 0xF0 then
        if three >= 0x800 && !(0xD800 <= three < 0xE000) then Some(three) else None
      else if !Tail(b[3]) then None
      else if 0x10000 <= Shift(three, b[3]) < 0x110000 then Some(Shift(three, b[3])) else None
  }

  /** Fatal decoding: the whole byte string or nothing. */
  function Decode(b: Bytes): Option<Text>
    decreases |b|
  {
    if b == [] then Some([])
    else
      var c := DecodeOne(b);
      if c.None? then None
      else
        var rest := Decode(b[Width(b[0])..]);
        if rest.None? then None else Some([c.value] + rest.value)
  }

  /** What the platform decoder returns: a leading byte order mark is dropped. */
  function DecodeText(b: Bytes): Option<Text> {
    var t := Decode(b);
    if t.Some? then Some(WithoutBom(t.value)) else None
  }

  function WithoutBom(t: Text): Text {
    if t != [] && t[0] == BOM then t[1..] else t
  }

  lemma DecodeOneSound(b: Bytes)
    requires b != [] && DecodeOne(b).Some?
    ensures |b| >= Width(b[0]) && EncodeOne(DecodeOne(b).value) == b[..Width(b[0])]
  {
    if b[0] >= 0x80 {
      var lead := b[0] as int - (if b[0] < 0xE0 then 0xC0 else if b[0] < 0xF0 then 0xE0 else 0xF0);
      ShiftSplits(lead, b[1]);
      if b[0] >= 0xE0 {
        ShiftSplits(Second(b), b[2]);
        if b[0] >= 0xF0 {
          ShiftSplits(Shift(Second(b), b[2]), b[3]);
        }
      }
    }
  }

  lemma EncodeOneWidth(c: Scalar)
    ensures |EncodeOne(c)| == Width(EncodeOne(c)[0])
  {
  }

  lemma DecodeOneComplete(c: Scalar, rest: Bytes)
    ensures DecodeOne(EncodeOne(c) + rest) == Some(c)
  {
  }

  lemma EncodeCons(c: Scalar, t: Text)
    ensures Encode([c] + t) == EncodeOne(c) + Encode(t)
  {
  }

  lemma {:induction false} DecodeSound(b: Bytes)
    requires Decode(b).Some?
    ensures Encode(Decode(b).value) == b
    decreases |b|
  {
    hide DecodeOne, EncodeOne;
    if b != [] {
      var n, c := Width(b[0]), DecodeOne(b).value;
      DecodeOneSound(b);
      var rest := Decode(b[n..]).value;
      DecodeSound(b[n..]);
      EncodeCons(c, rest);
      assert Decode(b) == Some([c] + rest);
      assert b == b[..n] + b[n..];
    }
  }

  lemma {:induction false} DecodeComplete(t: Text)
    ensures Decode(Encode(t)) == Some(t)
  {
    if t != [] {
      var b, e := Encode(t), EncodeOne(t[0]);
      DecodeOneComplete(t[0], Encode(t[1..]));
      EncodeOneWidth(t[0]);
      assert b[0] == e[0] && b[Width(b[0])..] == Encode(t[1..]);
      DecodeComplete(t[1..]);
      assert t == [t[0]] + t[1..];
    }
  }

  /** The decoder accepts exactly the encodings, and gives back what was encoded. */
  lemma DecodeExact(b: Bytes, t: Text)
    ensures Decode(b) == Some(t) <==> Encode(t) == b
  {
    if Decode(b) == Some(t) {
      DecodeSound(b);
    }
    DecodeComplete(t);
  }

  lemma EncodeInjective(t: Text, u: Text)
    requires Encode(t) == Encode(u)
    ensures t == u
  {
    DecodeComplete(t);
    DecodeComplete(u);
  }

  // ---- decoding with replacement ----

  const REPLACEMENT: Scalar := 0xFFFD

  /** Whether a second byte can follow this lead byte. */
  predicate Follows(lead: Byte, b: Byte) {
    if lead == 0xE0 then 0xA0 <= b < 0xC0
    else if lead == 0xED then 0x80 <= b < 0xA0
    else if lead == 0xF0 then 0x90 <= b < 0xC0
    else if lead == 0xF4 then 0x80 <= b < 0x90
    else Tail(b)
  }

  /** How many bytes of an ill-formed start one replacement stands for: the longest start of a sequence. */
  function BadRun(b: Bytes): (n: nat)
    requires b != []
    ensures 1 <= n <= |b|
  {
    if b[0] < 0xC2 || b[0] > 0xF4 || |b| < 2 || !Follows(b[0], b[1]) then 1
    else if |b| < 3 || !Tail(b[2]) then 2
    else 3
  }

  /** Decoding that never fails: what is ill-formed becomes replacement characters. */
  function Lossy(b: Bytes): Text
    decreases |b|
  {
    if b == [] then []
    else
      var c := DecodeOne(b);
      if c.Some? then [c.value] + Lossy(b[Width(b[0])..]) else [REPLACEMENT] + Lossy(b[BadRun(b)..])
  }

  function LossyText(b: Bytes): Text {
    WithoutBom(Lossy(b))
  }

  /** On well-formed bytes the two decoders agree. */
  lemma {:induction false} LossyIsExact(b: Bytes)
    requires Decode(b).Some?
    ensures Lossy(b) == Decode(b).value
    decreases |b|
  {
    if b != [] {
      LossyIsExact(b[Width(b[0])..]);
    }
  }

  /** And where the strict one fails, the loss shows: a replacement character stands in the text. */
  lemma {:induction false} LossShows(b: Bytes)
    requires Decode(b).None?
    ensures REPLACEMENT in Lossy(b)
    decreases |b|
  {
    var c := DecodeOne(b);
    if c.Some? {
      LossShows(b[Width(b[0])..]);
      assert Lossy(b) == [c.value] + Lossy(b[Width(b[0])..]);
    } else {
      assert Lossy(b)[0] == REPLACEMENT;
    }
  }

  lemma LossyOne(c: Scalar, rest: Bytes)
    ensures Lossy(EncodeOne(c) + rest) == [c] + Lossy(rest)
  {
    hide DecodeOne, BadRun;
    var e := EncodeOne(c);
    DecodeOneComplete(c, rest);
    EncodeOneWidth(c);
    assert (e + rest)[0] == e[0] && (e + rest)[|e|..] == rest;
  }

  /** Whatever follows, what was well encoded comes through whole. */
  lemma {:induction false} LossyKeepsText(t: Text, rest: Bytes)
    ensures Lossy(Encode(t) + rest) == t + Lossy(rest)
    decreases |t|
  {
    hide Lossy, EncodeOne;
    if t == [] {
      assert Encode(t) + rest == rest;
    } else {
      assert Encode(t) + rest == EncodeOne(t[0]) + (Encode(t[1..]) + rest);
      LossyOne(t[0], Encode(t[1..]) + rest);
      LossyKeepsText(t[1..], rest);
    }
  }

  // ---- truncation ----

  lemma Associate(a: Bytes, b: Bytes, c: Bytes)
    ensures a + (b + c) == (a + b) + c
  {
  }

  lemma {:induction false} EncodeAppend(t: Text, u: Text)
    ensures Encode(t + u) == Encode(t) + Encode(u)
  {
    if t == [] {
      assert t + u == u;
    } else {
      EncodeAppend(t[1..], u);
      EncodeCons(t[0], t[1..] + u);
      assert t + u == [t[0]] + (t[1..] + u);
      Associate(EncodeOne(t[0]), Encode(t[1..]), Encode(u));
    }
  }

  /** The number of code points of the longest prefix that fits into `cap` bytes. */
  function Fitting(t: Text, cap: int): (n: nat)
    ensures n <= |t|
  {
    if t == [] || |EncodeOne(t[0])| > cap then 0 else 1 + Fitting(t[1..], cap - |EncodeOne(t[0])|)
  }

  lemma {:induction false} FittingFits(t: Text, cap: int)
    requires cap >= 0
    ensures |Encode(t[..Fitting(t, cap)])| <= cap
    ensures Fitting(t, cap) < |t| ==> |Encode(t[..Fitting(t, cap)])| > cap - 4 && |Encode(t[..Fitting(t, cap) + 1])| > cap
    decreases |t|
  {
    var n := Fitting(t, cap);
    if n == 0 {
      assert t[..0] == [];
      if t != [] { assert t[..1] == [t[0]] && [t[0]][1..] == []; }
    } else {
      FittingFits(t[1..], cap - |EncodeOne(t[0])|);
      assert t[..n][1..] == t[1..][..n - 1];
      if n < |t| { assert t[..n + 1][1..] == t[1..][..n]; }
    }
  }

  lemma SliceOfRest(e: Bytes, rest: Bytes, end: nat)
    requires |e| <= end <= |e| + |rest|
    ensures (e + rest)[..end][|e|..] == rest[..end - |e|]
  {
  }

  /** A prefix of an encoding that decodes is the encoding of a prefix. */
  lemma {:induction false} DecodablePrefix(t: Text, end: nat)
    requires end <= |Encode(t)| && Decode(Encode(t)[..end]).Some?
    ensures var u := Decode(Encode(t)[..end]).value; u <= t && |Encode(u)| == end
    decreases |t|
  {
    var b := Encode(t)[..end];
    DecodeSound(b);
    if end > 0 {
      var e, n := EncodeOne(t[0]), Width(b[0]);
      EncodeOneWidth(t[0]);
      DecodeOneSound(b);
      assert b[..n] == e;
      SliceOfRest(e, Encode(t[1..]), end);
      DecodeOneComplete(t[0], b[n..]);
      assert e + b[n..] == b;
      DecodablePrefix(t[1..], end - n);
      assert t == [t[0]] + t[1..];
    }
  }

  lemma {:induction false} PrefixLonger(t: Text, m: nat, n: nat)
    requires m <= n <= |t|
    ensures |Encode(t[..m])| <= |Encode(t[..n])| && (m < n ==> |Encode(t[..m])| < |Encode(t[..n])|)
  {
    assert t[..n] == t[..m] + t[m..n];
    EncodeAppend(t[..m], t[m..n]);
  }

  /** No longer cut decodes. */
  lemma CutsBetweenFail(t: Text, cap: int, end: int)
    requires 0 <= cap < |Encode(t)| && |Encode(t[..Fitting(t, cap)])| < end <= cap
    ensures Decode(Encode(t)[..end]).None?
  {
    if Decode(Encode(t)[..end]).Some? {
      DecodablePrefix(t, end);
      var u, n := Decode(Encode(t)[..end]).value, Fitting(t, cap);
      assert u == t[..|u|];
      if |u| <= n {
        PrefixLonger(t, |u|, n);
        assert false;
      } else {
        FittingFits(t, cap);
        PrefixLonger(t, n + 1, |u|);
        assert false;
      }
    }
  }

  lemma CutDecodes(t: Text, n: nat)
    requires n <= |t|
    ensures |Encode(t[..n])| <= |Encode(t)| && Encode(t)[..|Encode(t[..n])|] == Encode(t[..n])
    ensures Decode(Encode(t[..n])) == Some(t[..n])
  {
    assert t == t[..n] + t[n..];
    EncodeAppend(t[..n], t[n..]);
    DecodeComplete(t[..n]);
  }

  /** What truncation gives: the longest prefix that fits, short of a leading byte order mark. */
  function Truncated(t: Text, cap: int): Text {
    if |Encode(t)| <= cap then t else WithoutBom(t[..Fitting(t, cap)])
  }

  /** Cuts the encoding back byte by byte until it decodes, which takes at most four attempts. */
  method TruncateUtf8ToBytes(t: Text, cap: int) returns (r: Text, ghost attempts: nat)
    ensures r == Truncated(t, cap)
    ensures attempts <= 4
  {
    attempts := 0;
    var bytes := Encode(t);
    if |bytes| <= cap {
      return t, 0;
    }
    var end := cap;
    ghost var target := |Encode(t[..Fitting(t, cap)])|;
    if cap >= 0 {
      FittingFits(t, cap);
      assert t[..|t|] == t;
    }
    CutDecodes(t, Fitting(t, cap));
    while end > 0
      invariant cap >= 0 ==> target <= end <= cap
      invariant cap >= 0 ==> attempts == cap - end
      invariant cap < 0 ==> end == cap && attempts == 0
    {
      attempts := attempts + 1;
      if end > target { CutsBetweenFail(t, cap, end); }
      var cut := DecodeText(bytes[..end]);
      if cut.Some? {
        return cut.value, attempts;
      }
      end := end - 1;
    }
    r := [];
  }

  /** `r` is the longest prefix of `t` whose encoding fits the cap. */
  ghost predicate LongestFitting(t: Text, cap: int, r: Text) {
    r <= t && |Encode(r)| <= cap && forall u :: u <= t && |Encode(u)| <= cap ==> |u| <= |r|
  }

  lemma FittingIsLongest(t: Text, cap: int)
    requires 0 <= cap < |Encode(t)|
    ensures LongestFitting(t, cap, t[..Fitting(t, cap)])
  {
    FittingFits(t, cap);
    assert t[..|t|] == t;
    var n := Fitting(t, cap);
    forall u | u <= t && |Encode(u)| <= cap ensures |u| <= n {
      assert u == t[..|u|];
      if |u| > n { PrefixLonger(t, n + 1, |u|); }
    }
  }

  /** A leading byte order mark, three bytes of it, survives the search for the longest prefix if it fits. */
  lemma BomFits(t: Text, cap: int)
    requires 0 <= cap < |Encode(t)| && t[0] == BOM
    ensures Fitting(t, cap) >= 1 <==> cap >= 3
  {
    assert t[..1] == [BOM] + [];
    EncodeCons(BOM, []);
    FittingIsLongest(t, cap);
    if cap >= 3 {
      assert t[..1] <= t;
    }
  }

  /**
   * The result is the longest prefix that fits, exactly unless the text is cut and starts with a byte order
   * mark that would fit: that mark is then dropped.
   */
  lemma TruncationIsLongestPrefixIff(t: Text, cap: int)
    requires cap >= 0
    ensures LongestFitting(t, cap, Truncated(t, cap)) <==> |Encode(t)| <= cap || t[0] != BOM || cap < 3
  {
    if |Encode(t)| > cap {
      var cut := t[..Fitting(t, cap)];
      FittingIsLongest(t, cap);
      if t[0] == BOM {
        BomFits(t, cap);
        assert cap >= 3 ==> |Truncated(t, cap)| < |cut|;
      }
    }
  }

  /** In any case the result stays within the cap, and it is at most three bytes short of it when no mark is lost. */
  lemma TruncationFillsTheCap(t: Text, cap: int)
    requires cap >= 0
    ensures var r := Truncated(t, cap);
            |Encode(r)| <= cap && (|Encode(t)| > cap && (t[0] != BOM || cap < 3) ==> |Encode(r)| >= cap - 3)
  {
    if |Encode(t)| > cap {
      FittingFits(t, cap);
      FittingIsLongest(t, cap);
      if t[0] == BOM { BomFits(t, cap); }
      assert t[..|t|] == t;
      var cut := t[..Fitting(t, cap)];
      if cut != [] && cut[0] == BOM {
        EncodeCons(cut[0], cut[1..]);
        assert cut == [cut[0]] + cut[1..];
      }
    }
  }

  /** A concrete loss: the mark is gone, and the result is no prefix of the text. */
  lemma BomIsLost()
    ensures Truncated([BOM, 0x41, 0x42], 4) == [0x41]
  {
    assert Fitting([BOM, 0x41, 0x42], 4) == 2 by {
      assert [BOM, 0x41, 0x42][1..] == [0x41, 0x42] && [0x41, 0x42][1..] == [0x42];
      assert Fitting([0x42], 0) == 0;
      assert Fitting([0x41, 0x42], 1) == 1;
    }
    assert [BOM, 0x41, 0x42] == [BOM] + ([0x41] + ([0x42] + []));
    EncodeCons(BOM, [0x41] + ([0x42] + []));
    EncodeCons(0x41, [0x42] + []);
    EncodeCons(0x42, []);
    assert [BOM, 0x41, 0x42][..2] == [BOM, 0x41];
  }

  /** Peer content as it is handed on: whole, or cut and marked with its original length in bytes. */
  datatype PeerContent = Whole(data: Text) | Cut(data: Text, originalLength: nat)

  method WrapPeerText(t: Text, cap: int) returns (c: PeerContent)
    ensures c == if |Encode(t)| <= cap then Whole(t) else Cut(Truncated(t, cap), |Encode(t)|)
  {
    var length := |Encode(t)|;
    if length <= cap {
      return Whole(t);
    }
    var data, _ := TruncateUtf8ToBytes(t, cap);
    return Cut(data, length);
  }
}

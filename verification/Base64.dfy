/** The unpadded base64url of section 5 of RFC 4648, and its strict decoder. */
module Base64 {
  import opened Options
  import opened Bytes

  type Sextet = v: int | 0 <= v < 64

  /** The base64url digit of a six-bit value. */
  function Digit64(v: Sextet): Ascii {
    if v < 26 then 65 + v else if v < 52 then 71 + v else if v < 62 then v - 4 else if v == 62 then 45 else 95
  }

  function Value64(c: int): Option<Sextet> {
    if 65 <= c <= 90 then Some(c - 65)
    else if 97 <= c <= 122 then Some(c - 71)
    else if 48 <= c <= 57 then Some(c + 4)
    else if c == 45 then Some(62)
    else if c == 95 then Some(63)
    else None
  }

  /** The values of the first group's digits, and the bytes after the group. */
  function Sextets(b: Bytes): (r: seq<Sextet>)
    requires 1 <= |b|
    ensures 2 <= |r| <= 4
  {
    if |b| == 1 then [b[0] / 4, b[0] % 4 * 16]
    else if |b| == 2 then [b[0] / 4, b[0] % 4 * 16 + b[1] / 16, b[1] % 16 * 4]
    else [b[0] / 4, b[0] % 4 * 16 + b[1] / 16, b[1] % 16 * 4 + b[2] / 64, b[2] % 64]
  }

  function Rest(b: Bytes): Bytes {
    if |b| <= 3 then [] else b[3..]
  }

  function Digits(v: seq<Sextet>): (r: seq<Ascii>)
    ensures |r| == |v|
  {
    if v == [] then [] else [Digit64(v[0])] + Digits(v[1..])
  }

  function Base64Url(b: Bytes): seq<Ascii>
    decreases |b|
  {
    if b == [] then [] else Digits(Sextets(b)) + Base64Url(Rest(b))
  }

  function Length64(n: nat): nat {
    (4 * n + 2) / 3
  }

  lemma {:induction false} Base64UrlLength(b: Bytes)
    ensures |Base64Url(b)| == Length64(|b|)
    decreases |b|
  {
    if b != [] {
      Base64UrlLength(Rest(b));
    }
  }

  /** The bytes of one to four digits; bits left over have to be zero. */
  function Group(v: seq<Sextet>): Option<Bytes>
    requires 1 <= |v| <= 4
  {
    if |v| == 1 then None
    else
      var first := v[0] as int * 4 + v[1] / 16;
      if |v| == 2 then if v[1] % 16 == 0 then Some([first]) else None
      else
        var second := v[1] as int % 16 * 16 + v[2] / 4;
        if |v| == 3 then if v[2] % 4 == 0 then Some([first, second]) else None
        else Some([first, second, v[2] as int % 4 * 64 + v[3]])
  }

  function Values(s: seq<int>): Option<seq<Sextet>> {
    if s == [] then Some([])
    else
      var first, rest := Value64(s[0]), Values(s[1..]);
      if first.None? || rest.None? then None else Some([first.value] + rest.value)
  }

  function Groups(v: seq<Sextet>): Option<Bytes> {
    if v == [] then Some([])
    else if |v| <= 4 then Group(v)
    else
      var first, rest := Group(v[..4]), Groups(v[4..]);
      if first.None? || rest.None? then None else Some(first.value + rest.value)
  }

  /** Refuses the empty text, other characters, and anything the encoder would not have written. */
  function Decode64(s: seq<int>): Option<Bytes> {
    if s == [] || Values(s).None? then None else Groups(Values(s).value)
  }

  lemma ValueOfDigit(v: Sextet)
    ensures Value64(Digit64(v)) == Some(v)
  {
  }

  lemma SextetsBack(b: Bytes)
    requires 1 <= |b|
    ensures Group(Sextets(b)).Some? && Group(Sextets(b)).value + Rest(b) == b
  {
    if |b| == 1 {
      assert b == [b[0]];
    } else if |b| == 2 {
      assert b == [b[0], b[1]];
    } else {
      assert b == [b[0], b[1], b[2]] + b[3..];
    }
  }

  lemma ValuesCons(v: Sextet, s: seq<int>)
    requires Values(s).Some?
    ensures Values([Digit64(v)] + s) == Some([v] + Values(s).value)
  {
    ValueOfDigit(v);
    assert ([Digit64(v)] + s)[1..] == s;
  }

  lemma {:induction false} ValuesOfDigits(v: seq<Sextet>, rest: seq<int>)
    requires Values(rest).Some?
    ensures Values(Digits(v) + rest) == Some(v + Values(rest).value)
    decreases |v|
  {
    if v == [] {
      assert Digits(v) + rest == rest && v + Values(rest).value == Values(rest).value;
    } else {
      ValuesOfDigits(v[1..], rest);
      ValuesCons(v[0], Digits(v[1..]) + rest);
      assert Digits(v) + rest == [Digit64(v[0])] + (Digits(v[1..]) + rest);
      assert v + Values(rest).value == [v[0]] + (v[1..] + Values(rest).value);
    }
  }

  /** What was encoded is decoded again. */
  lemma {:induction false} DecodeEncoded(b: Bytes)
    ensures Values(Base64Url(b)).Some? && Groups(Values(Base64Url(b)).value) == Some(b)
    ensures b != [] ==> Decode64(Base64Url(b)) == Some(b)
    decreases |b|
  {
    if b != [] {
      var v, rest := Sextets(b), Rest(b);
      DecodeEncoded(rest);
      SextetsBack(b);
      ValuesOfDigits(v, Base64Url(rest));
      GroupsOfMore(v, Values(Base64Url(rest)).value, |b| <= 3);
    }
  }

  lemma GroupsOfMore(v: seq<Sextet>, more: seq<Sextet>, last: bool)
    requires 1 <= |v| <= 4 && Group(v).Some? && Groups(more).Some? && (if last then more == [] else |v| == 4)
    ensures Groups(v + more) == Some(Group(v).value + Groups(more).value)
  {
    if more == [] {
      assert v + more == v && Group(v).value + [] == Group(v).value;
    } else {
      assert (v + more)[..4] == v && (v + more)[4..] == more;
    }
  }

  /** The alphabet has letters, digits, a hyphen and an underscore. */
  lemma {:induction false} AlphabetOnly(b: Bytes)
    ensures forall i :: 0 <= i < |Base64Url(b)| ==> Value64(Base64Url(b)[i]).Some?
    decreases |b|
  {
    if b != [] {
      AlphabetOnly(Rest(b));
      DigitsOnly(Sextets(b));
    }
  }

  lemma {:induction false} DigitsOnly(v: seq<Sextet>)
    ensures forall i :: 0 <= i < |v| ==> Value64(Digits(v)[i]).Some?
    decreases |v|
  {
    if v != [] {
      ValueOfDigit(v[0]);
      DigitsOnly(v[1..]);
    }
  }
}

/**
 * JSON text as the platform parser reads it (RFC 8259): a key given twice keeps its last value, and an escaped
 * surrogate pair is one code point. Flat objects of strings and numbers are also written, and read back.
 */
module Json {
  import opened Options
  import opened Bytes
  import opened Utf8

  /** A code point of a parsed string; an escape can also name a lone surrogate. */
  type Char = c: int | 0 <= c < 0x110000
  type Chars = seq<Char>

  /** A number is kept exactly, as mantissa and power of ten. */
  datatype Value =
    | Null
    | Bool(b: bool)
    | Number(mantissa: int, exponent: int)
    | Str(chars: Chars)
    | Arr(items: seq<Value>)
    | Obj(members: map<Chars, Value>)

  /** What was read, and what is left of the text. */
  type Read<T> = Option<(T, Text)>

  predicate Blank(c: int) {
    c == 32 || c == 9 || c == 10 || c == 13
  }

  function SkipBlanks(s: Text): (r: Text)
    ensures |r| <= |s|
  {
    if s != [] && Blank(s[0]) then SkipBlanks(s[1..]) else s
  }

  // ---- strings ----

  function HexValue(c: int): (r: Option<int>)
    ensures r.Some? ==> 0 <= r.value < 16
  {
    if 48 <= c <= 57 then Some(c - 48)
    else if 97 <= c <= 102 then Some(c - 87)
    else if 65 <= c <= 70 then Some(c - 55)
    else None
  }

  function ReadHex4(s: Text): (r: Read<Char>)
    ensures r.Some? ==> |r.value.1| == |s| - 4 && r.value.0 < 0x10000
  {
    if |s| < 4 then None
    else
      var a, b, c, d := HexValue(s[0]), HexValue(s[1]), HexValue(s[2]), HexValue(s[3]);
      if a.None? || b.None? || c.None? || d.None? then None
      else Some((4096 * a.value + 256 * b.value + 16 * c.value + d.value, s[4..]))
  }

  /** Behind the backslash. */
  function ReadEscape(s: Text): (r: Read<Char>)
    ensures r.Some? ==> |r.value.1| < |s|
  {
    if s == [] then None
    else if s[0] == 34 || s[0] == 92 || s[0] == 47 then Some((s[0], s[1..]))
    else if s[0] == 98 then Some((8, s[1..]))
    else if s[0] == 102 then Some((12, s[1..]))
    else if s[0] == 110 then Some((10, s[1..]))
    else if s[0] == 114 then Some((13, s[1..]))
    else if s[0] == 116 then Some((9, s[1..]))
    else if s[0] == 117 then ReadUnicode(s[1..])
    else None
  }

  /** Behind the u; a high surrogate joins with an escaped low one. */
  function ReadUnicode(s: Text): (r: Read<Char>)
    ensures r.Some? ==> |r.value.1| < |s|
  {
    var first := ReadHex4(s);
    if first.None? then None
    else
      var (high, rest) := first.value;
      var second := if |rest| >= 2 && rest[0] == 92 && rest[1] == 117 then ReadHex4(rest[2..]) else None;
      if 0xD800 <= high < 0xDC00 && second.Some? && 0xDC00 <= second.value.0 < 0xE000 then
        Some((0x10000 + (high - 0xD800) * 0x400 + (second.value.0 - 0xDC00), second.value.1))
      else Some((high, rest))
  }

  /** Behind the opening quote. */
  function ReadString(s: Text): (r: Read<Chars>)
    ensures r.Some? ==> |r.value.1| < |s|
    decreases |s|
  {
    if s == [] || s[0] < 32 then None
    else if s[0] == 34 then Some(([], s[1..]))
    else
      var first: Read<Char> := if s[0] == 92 then ReadEscape(s[1..]) else Some((s[0], s[1..]));
      if first.None? then None
      else
        var rest := ReadString(first.value.1);
        if rest.None? then None else Some(([first.value.0] + rest.value.0, rest.value.1))
  }

  // ---- numbers ----

  predicate IsDigit(c: int) {
    48 <= c <= 57
  }

  /** All digits from here on, appended to the value read so far, and how many there were. */
  function ReadDigits(s: Text, n: nat): (r: (nat, nat, Text))
    ensures |r.2| + r.1 == |s|
    decreases |s|
  {
    if s != [] && IsDigit(s[0]) then
      var r := ReadDigits(s[1..], n * 10 + (s[0] - 48));
      (r.0, r.1 + 1, r.2)
    else (n, 0, s)
  }

  /** The whole part: a zero alone, or digits that do not start with one. */
  function ReadWhole(s: Text): (r: Read<nat>)
    ensures r.Some? ==> |r.value.1| < |s|
  {
    if s == [] || !IsDigit(s[0]) then None
    else if s[0] == 48 then Some((0, s[1..]))
    else var (n, _, rest) := ReadDigits(s, 0); Some((n, rest))
  }

  /** The mantissa with the fraction's digits appended, and their number. */
  function ReadFraction(n: nat, s: Text): (r: Read<(nat, nat)>)
    ensures r.Some? ==> |r.value.1| <= |s|
  {
    if s == [] || s[0] != 46 then Some(((n, 0), s))
    else
      var (m, count, rest) := ReadDigits(s[1..], n);
      if count == 0 then None else Some(((m, count), rest))
  }

  function Signed(n: int, negative: bool): int {
    if negative then -n else n
  }

  function ReadExponent(s: Text): (r: Read<int>)
    ensures r.Some? ==> |r.value.1| <= |s|
  {
    if s == [] || (s[0] != 101 && s[0] != 69) then Some((0, s))
    else
      var signed := |s| >= 2 && (s[1] == 43 || s[1] == 45);
      var (n, count, rest) := ReadDigits(if signed then s[2..] else s[1..], 0);
      if count == 0 then None else Some((Signed(n, signed && s[1] == 45), rest))
  }

  function ReadNumber(s: Text): (r: Read<Value>)
    ensures r.Some? ==> |r.value.1| < |s|
  {
    var negative := s != [] && s[0] == 45;
    var whole := ReadWhole(if negative then s[1..] else s);
    if whole.None? then None
    else
      var fraction := ReadFraction(whole.value.0, whole.value.1);
      if fraction.None? then None
      else
        var exponent := ReadExponent(fraction.value.1);
        if exponent.None? then None
        else
          var ((m, places), _) := fraction.value;
          Some((Number(Signed(m, negative), exponent.value.0 - places), exponent.value.1))
  }

  function Power10(n: nat): nat {
    if n == 0 then 1 else 10 * Power10(n - 1)
  }

  lemma PowerPositive(n: nat)
    ensures Power10(n) > 0
  {
  }

  /** The integer a value stands for, if it stands for one. */
  function IntegerOf(v: Value): Option<int> {
    if !v.Number? then None
    else if v.exponent >= 0 then Some(v.mantissa * Power10(v.exponent))
    else
      PowerPositive(-v.exponent);
      if v.mantissa % Power10(-v.exponent) == 0 then Some(v.mantissa / Power10(-v.exponent)) else None
  }

  // ---- values ----

  function ReadWord(s: Text, word: Text, v: Value): (r: Read<Value>)
    requires word != []
    ensures r.Some? ==> |r.value.1| < |s|
  {
    if word <= s then Some((v, s[|word|..])) else None
  }

  function ReadValue(s: Text): (r: Read<Value>)
    ensures r.Some? ==> |r.value.1| < |s|
    decreases |s|, 1
  {
    if s == [] then None
    else if s[0] == 123 then
      var t := SkipBlanks(s[1..]);
      if t != [] && t[0] == 125 then Some((Obj(map[]), t[1..])) else ReadMembers(t, map[])
    else if s[0] == 91 then
      var t := SkipBlanks(s[1..]);
      if t != [] && t[0] == 93 then Some((Arr([]), t[1..])) else ReadItems(t, [])
    else if s[0] == 34 then
      var r := ReadString(s[1..]);
      if r.None? then None else Some((Str(r.value.0), r.value.1))
    else if s[0] == 116 then ReadWord(s, Plain("true"), Bool(true))
    else if s[0] == 102 then ReadWord(s, Plain("false"), Bool(false))
    else if s[0] == 110 then ReadWord(s, Plain("null"), Null)
    else ReadNumber(s)
  }

  function ReadMembers(s: Text, sofar: map<Chars, Value>): (r: Read<Value>)
    ensures r.Some? ==> |r.value.1| < |s|
    decreases |s|, 0
  {
    if s == [] || s[0] != 34 then None
    else
      var key := ReadString(s[1..]);
      if key.None? then None
      else
        var t := SkipBlanks(key.value.1);
        if t == [] || t[0] != 58 then None
        else
          var v := ReadValue(SkipBlanks(t[1..]));
          if v.None? then None
          else
            var all := sofar[key.value.0 := v.value.0];
            var u := SkipBlanks(v.value.1);
            if u == [] then None
            else if u[0] == 125 then Some((Obj(all), u[1..]))
            else if u[0] == 44 then ReadMembers(SkipBlanks(u[1..]), all)
            else None
  }

  function ReadItems(s: Text, sofar: seq<Value>): (r: Read<Value>)
    ensures r.Some? ==> |r.value.1| < |s|
    decreases |s|, 2
  {
    var v := ReadValue(s);
    if v.None? then None
    else
      var u := SkipBlanks(v.value.1);
      if u == [] then None
      else if u[0] == 93 then Some((Arr(sofar + [v.value.0]), u[1..]))
      else if u[0] == 44 then ReadItems(SkipBlanks(u[1..]), sofar + [v.value.0])
      else None
  }

  /** The whole text, with blanks around it. */
  function Parse(s: Text): Option<Value> {
    var v := ReadValue(SkipBlanks(s));
    if v.Some? && SkipBlanks(v.value.1) == [] then Some(v.value.0) else None
  }

  // ---- writing ----

  /** A string literal as code points. */
  function Plain(s: string): (r: seq<Ascii>)
    ensures |r| == |s|
  {
    seq(|s|, i requires 0 <= i < |s| => s[i] as int % 128)
  }

  function HexDigit(v: int): Ascii
    requires 0 <= v < 16
  {
    if v < 10 then 48 + v else 87 + v
  }

  /** One code point inside a string. */
  function Escaped(c: Scalar): Text {
    if c == 34 || c == 92 then [92, c]
    else if c == 8 then [92, 98] else if c == 9 then [92, 116] else if c == 10 then [92, 110]
    else if c == 12 then [92, 102] else if c == 13 then [92, 114]
    else if c < 32 then [92, 117, 48, 48, HexDigit(c / 16), HexDigit(c % 16)]
    else [c]
  }

  function EscapedAll(t: Text): Text {
    if t == [] then [] else Escaped(t[0]) + EscapedAll(t[1..])
  }

  function Quoted(t: Text): Text {
    [34] + EscapedAll(t) + [34]
  }

  function Decimal(n: nat): seq<Ascii> {
    if n < 10 then [48 + n] else Decimal(n / 10) + [48 + n % 10]
  }

  /** A member of a flat object. */
  datatype Field = NumberField(key: Text, n: nat) | TextField(key: Text, text: Text)

  function ValueText(f: Field): Text {
    match f
    case NumberField(_, n) => Decimal(n)
    case TextField(_, t) => Quoted(t)
  }

  function ValueOf(f: Field): Value {
    match f
    case NumberField(_, n) => Number(n, 0)
    case TextField(_, t) => Str(t)
  }

  function FieldText(f: Field): Text {
    Quoted(f.key) + [58] + ValueText(f)
  }

  function FieldsText(fs: seq<Field>): Text {
    if fs == [] then [] else if |fs| == 1 then FieldText(fs[0]) else FieldText(fs[0]) + [44] + FieldsText(fs[1..])
  }

  function ObjectText(fs: seq<Field>): Text {
    [123] + FieldsText(fs) + [125]
  }

  function Members(sofar: map<Chars, Value>, fs: seq<Field>): map<Chars, Value>
    decreases |fs|
  {
    if fs == [] then sofar else Members(sofar[fs[0].key := ValueOf(fs[0])], fs[1..])
  }

  // ---- reading back what was written ----

  lemma ReadEscaped(c: Scalar, rest: Text)
    ensures var s := Escaped(c) + rest;
            && s != [] && s[0] >= 32 && s[0] != 34
            && (if s[0] == 92 then ReadEscape(s[1..]) == Some((c, rest)) else c == s[0] && s[1..] == rest)
  {
    if Escaped(c)[0] == 92 {
      var e := (Escaped(c) + rest)[1..];
      if |Escaped(c)| == 2 {
        assert e[1..] == rest;
      } else {
        assert e[1..][4..] == rest;
        assert HexValue(HexDigit(c / 16)) == Some(c / 16) && HexValue(HexDigit(c % 16)) == Some(c % 16);
        assert ReadHex4(e[1..]) == Some((c, rest));
      }
    }
  }

  /** Quotes, backslashes and control characters included, a string is read back as it was written. */
  lemma {:induction false} ReadQuoted(t: Text, rest: Text)
    ensures ReadString(EscapedAll(t) + [34] + rest) == Some((t, rest))
    decreases |t|
  {
    if t == [] {
      assert EscapedAll(t) + [34] + rest == [34] + rest;
    } else {
      var tail := EscapedAll(t[1..]) + [34] + rest;
      assert EscapedAll(t) + [34] + rest == Escaped(t[0]) + tail;
      ReadEscaped(t[0], tail);
      ReadQuoted(t[1..], rest);
      assert t == [t[0]] + t[1..];
    }
  }

  lemma {:induction false} DigitsAppend(a: Text, b: Text, n: nat)
    requires forall c :: c in a ==> IsDigit(c)
    ensures var x := ReadDigits(a, n);
            var y := ReadDigits(b, x.0);
            x.1 == |a| && x.2 == [] && ReadDigits(a + b, n) == (y.0, |a| + y.1, y.2)
    decreases |a|
  {
    if a == [] {
      assert a + b == b;
    } else {
      assert (a + b)[1..] == a[1..] + b;
      assert IsDigit(a[0]);
      DigitsAppend(a[1..], b, n * 10 + (a[0] - 48));
    }
  }

  lemma {:induction false} DecimalDigits(n: nat)
    ensures forall c :: c in Decimal(n) ==> IsDigit(c)
    ensures ReadDigits(Decimal(n), 0).0 == n
    ensures n > 0 ==> Decimal(n)[0] != 48
  {
    if n >= 10 {
      DecimalDigits(n / 10);
      DigitsAppend(Decimal(n / 10), [48 + n % 10], 0);
      assert ReadDigits([48 + n % 10], n / 10).0 == n;
    }
  }

  /** A text that continues no number. */
  predicate EndsNumber(rest: Text) {
    rest != [] && !IsDigit(rest[0]) && rest[0] != 46 && rest[0] != 101 && rest[0] != 69
  }

  lemma ReadDecimal(n: nat, rest: Text)
    requires EndsNumber(rest)
    ensures ReadNumber(Decimal(n) + rest) == Some((Number(n, 0), rest))
    ensures IsDigit((Decimal(n) + rest)[0])
  {
    DecimalDigits(n);
    DigitsAppend(Decimal(n), rest, 0);
    assert ReadDigits(rest, n) == (n, 0, rest);
    if n == 0 {
      assert (Decimal(n) + rest)[1..] == rest;
    }
  }

  lemma ReadNumberValue(n: nat, rest: Text)
    requires EndsNumber(rest)
    ensures ReadValue(Decimal(n) + rest) == Some((Number(n, 0), rest))
    ensures !Blank((Decimal(n) + rest)[0])
  {
    ReadDecimal(n, rest);
  }

  lemma ReadTextValue(t: Text, rest: Text)
    ensures ReadValue(Quoted(t) + rest) == Some((Str(t), rest))
  {
    hide ReadNumber, ReadMembers, ReadItems;
    ReadQuoted(t, rest);
    assert (Quoted(t) + rest)[1..] == EscapedAll(t) + [34] + rest;
  }

  lemma ReadFieldValue(f: Field, rest: Text)
    requires EndsNumber(rest)
    ensures ReadValue(ValueText(f) + rest) == Some((ValueOf(f), rest))
    ensures SkipBlanks(ValueText(f) + rest) == ValueText(f) + rest
  {
    match f {
      case NumberField(_, n) => ReadNumberValue(n, rest);
      case TextField(_, t) => ReadTextValue(t, rest);
    }
  }

  /** One member, followed by a comma or the closing brace. */
  lemma ReadField(f: Field, rest: Text, sofar: map<Chars, Value>)
    requires rest != [] && (rest[0] == 44 || rest[0] == 125)
    ensures ReadMembers(FieldText(f) + rest, sofar)
            == if rest[0] == 125 then Some((Obj(sofar[f.key := ValueOf(f)]), rest[1..]))
               else ReadMembers(SkipBlanks(rest[1..]), sofar[f.key := ValueOf(f)])
  {
    var s := FieldText(f) + rest;
    var behind := [58] + (ValueText(f) + rest);
    assert s[1..] == EscapedAll(f.key) + [34] + behind;
    ReadQuoted(f.key, behind);
    ReadFieldValue(f, rest);
    assert SkipBlanks(behind) == behind && behind[1..] == ValueText(f) + rest;
    assert SkipBlanks(rest) == rest;
  }

  lemma FieldsTextSplits(fs: seq<Field>, rest: Text)
    requires |fs| > 1
    ensures FieldsText(fs) + [125] + rest == FieldText(fs[0]) + ([44] + (FieldsText(fs[1..]) + [125] + rest))
  {
    Regroup(FieldText(fs[0]), [44], FieldsText(fs[1..]), [125], rest);
  }

  lemma Regroup(a: Text, b: Text, c: Text, d: Text, e: Text)
    ensures a + b + c + d + e == a + (b + (c + d + e))
  {
  }

  lemma FieldsTextStarts(fs: seq<Field>, rest: Text)
    requires fs != []
    ensures var s := FieldsText(fs) + [125] + rest; s[0] == 34 && SkipBlanks(s) == s
  {
  }

  lemma {:induction false} ReadFields(fs: seq<Field>, rest: Text, sofar: map<Chars, Value>)
    requires fs != []
    ensures ReadMembers(FieldsText(fs) + [125] + rest, sofar) == Some((Obj(Members(sofar, fs)), rest))
    decreases |fs|
  {
    var next := sofar[fs[0].key := ValueOf(fs[0])];
    if |fs| == 1 {
      var behind := [125] + rest;
      assert FieldsText(fs) + [125] + rest == FieldText(fs[0]) + behind;
      ReadField(fs[0], behind, sofar);
      assert behind[1..] == rest;
      assert Members(next, fs[1..]) == next;
    } else {
      var tail := FieldsText(fs[1..]) + [125] + rest;
      FieldsTextSplits(fs, rest);
      FieldsTextStarts(fs[1..], rest);
      ReadField(fs[0], [44] + tail, sofar);
      assert ([44] + tail)[1..] == tail;
      ReadFields(fs[1..], rest, next);
    }
  }

  /** A written object parses to exactly its members. */
  lemma ParseObject(fs: seq<Field>)
    requires fs != []
    ensures Parse(ObjectText(fs)) == Some(Obj(Members(map[], fs)))
  {
    var s := ObjectText(fs);
    ReadFields(fs, [], map[]);
    FieldsTextStarts(fs, []);
    assert s[1..] == FieldsText(fs) + [125] + [];
  }

  // ---- how many bytes the written text has ----

  function Size(t: Text): nat {
    |Encode(t)|
  }

  lemma SizeAppend(a: Text, b: Text)
    ensures Size(a + b) == Size(a) + Size(b)
  {
    EncodeAppend(a, b);
  }

  lemma {:induction false} SizeOfAscii(t: Text)
    requires forall i :: 0 <= i < |t| ==> t[i] < 128
    ensures Size(t) == |t|
    decreases |t|
  {
    if t != [] {
      SizeOfAscii(t[1..]);
    }
  }

  lemma {:induction false} EscapedSize(t: Text)
    ensures Size(EscapedAll(t)) <= 6 * |t|
    decreases |t|
  {
    if t != [] {
      EscapedSize(t[1..]);
      SizeAppend(Escaped(t[0]), EscapedAll(t[1..]));
      if |Escaped(t[0])| > 1 {
        SizeOfAscii(Escaped(t[0]));
      } else {
        EncodeCons(t[0], []);
        assert Escaped(t[0]) == [t[0]] + [];
      }
    }
  }

  /** Nothing in it has to be escaped. */
  predicate Simple(t: Text) {
    forall i :: 0 <= i < |t| ==> 32 <= t[i] < 128 && t[i] != 34 && t[i] != 92
  }

  lemma {:induction false} SimpleSize(t: Text)
    requires Simple(t)
    ensures EscapedAll(t) == t && Size(EscapedAll(t)) == |t|
    decreases |t|
  {
    if t != [] {
      SimpleSize(t[1..]);
      assert t == [t[0]] + t[1..];
    }
    SizeOfAscii(t);
  }

  function FieldSize(f: Field): nat {
    3 + Size(EscapedAll(f.key))
    + match f case NumberField(_, n) => |Decimal(n)| case TextField(_, t) => 2 + Size(EscapedAll(t))
  }

  function FieldsSize(fs: seq<Field>): nat {
    if fs == [] then 0 else if |fs| == 1 then FieldSize(fs[0]) else FieldSize(fs[0]) + 1 + FieldsSize(fs[1..])
  }

  lemma QuotedSize(t: Text)
    ensures Size(Quoted(t)) == 2 + Size(EscapedAll(t))
  {
    SizeAppend([34] + EscapedAll(t), [34]);
    SizeAppend([34], EscapedAll(t));
    SizeOfAscii([34]);
  }

  lemma FieldTextSize(f: Field)
    ensures Size(FieldText(f)) == FieldSize(f)
  {
    SizeAppend(Quoted(f.key) + [58], ValueText(f));
    SizeAppend(Quoted(f.key), [58]);
    SizeOfAscii([58]);
    QuotedSize(f.key);
    match f {
      case NumberField(_, n) => SizeOfAscii(Decimal(n));
      case TextField(_, t) => QuotedSize(t);
    }
  }

  lemma {:induction false} FieldsTextSize(fs: seq<Field>)
    ensures Size(FieldsText(fs)) == FieldsSize(fs)
    decreases |fs|
  {
    if |fs| > 0 {
      FieldTextSize(fs[0]);
    }
    if |fs| > 1 {
      FieldsTextSize(fs[1..]);
      SizeAppend(FieldText(fs[0]) + [44], FieldsText(fs[1..]));
      SizeAppend(FieldText(fs[0]), [44]);
      SizeOfAscii([44]);
    }
  }

  lemma ObjectTextSize(fs: seq<Field>)
    ensures Size(ObjectText(fs)) == 2 + FieldsSize(fs)
  {
    FieldsTextSize(fs);
    SizeAppend([123] + FieldsText(fs), [125]);
    SizeAppend([123], FieldsText(fs));
    SizeOfAscii([123]);
    SizeOfAscii([125]);
  }

  lemma DecimalLength(n: nat)
    requires n < 100_000_000
    ensures 1 <= |Decimal(n)| <= 8 && (n >= 10_000_000 ==> |Decimal(n)| == 8)
  {
    var a := n / 10;
    var b := a / 10;
    var c := b / 10;
    var d := c / 10;
    var e := d / 10;
    var f := e / 10;
    assert f / 10 < 10 && (n >= 10_000_000 ==> f / 10 >= 1);
    assert |Decimal(f)| <= 2 && (n >= 10_000_000 ==> |Decimal(f)| == 2);
    assert |Decimal(d)| <= 4 && (n >= 10_000_000 ==> |Decimal(d)| == 4);
    assert |Decimal(b)| <= 6 && (n >= 10_000_000 ==> |Decimal(b)| == 6);
  }
}

/**
 * The text both screens keep under the store key: `JSON.stringify` of the
 * record list, and the `JSON.parse` that reads it back. The encoder writes
 * exactly what `JSON.stringify` writes for an array of records whose keys were
 * created in the order id, type, data, timestamp; the decoder reads that
 * layout back and reports every other text as a parse failure.
 */
module Json {
  import opened Wrappers
  import opened Ledger

  /** A lower-case hexadecimal digit, as in the `\u00xx` escapes `JSON.stringify` writes. */
  function HexDigit(n: nat): (c: char)
    requires n < 16
  {
    if n < 10 then ('0' as int + n) as char else ('a' as int + n - 10) as char
  }

  /** The value of a lower-case hexadecimal digit. */
  function HexValue(c: char): (v: Option<nat>)
    ensures v.Some? ==> v.value < 16
  {
    if '0' <= c <= '9' then Some(c as int - '0' as int)
    else if 'a' <= c <= 'f' then Some(c as int - 'a' as int + 10)
    else None
  }

  /** How `JSON.stringify` writes one character inside a string literal. */
  function EscapeChar(c: char): string
  {
    if c == '"' then "\\\""
    else if c == '\\' then "\\\\"
    else if c == 8 as char then "\\b"
    else if c == '\t' then "\\t"
    else if c == '\n' then "\\n"
    else if c == 12 as char then "\\f"
    else if c == '\r' then "\\r"
    else if c < ' ' then "\\u00" + [HexDigit(c as int / 16), HexDigit(c as int % 16)]
    else [c]
  }

  function Escape(x: string): string
    decreases |x|
  {
    if x == [] then [] else EscapeChar(x[0]) + Escape(x[1..])
  }

  /** A string literal: the escaped characters between double quotes. */
  function Quote(x: string): string
  {
    "\"" + Escape(x) + "\""
  }

  const IdKey := "{\"id\":"
  const TypeKey := ",\"type\":"
  const DataKey := ",\"data\":"
  const TimestampKey := ",\"timestamp\":"

  /** A key (with the separator before it) and its string value. */
  function Field(key: string, x: string): string
  {
    key + Quote(x)
  }

  /** One record as an object literal with its keys in creation order. */
  function EncodeRecord(b: Barcode): string
  {
    Field(IdKey, b.id) + (Field(TypeKey, b.format) + (Field(DataKey, b.data)
      + (Field(TimestampKey, b.timestamp) + "}")))
  }

  /** The records separated by commas. */
  function EncodeItems(s: seq<Barcode>): string
    decreases |s|
  {
    if s == [] then ""
    else if |s| == 1 then EncodeRecord(s[0])
    else EncodeRecord(s[0]) + "," + EncodeItems(s[1..])
  }

  /** `JSON.stringify(barcodes)`: never the empty text, even for an empty list. */
  function Encode(s: seq<Barcode>): (t: string)
    ensures |t| >= 2 && t[0] == '[' && t[|t| - 1] == ']'
  {
    "[" + EncodeItems(s) + "]"
  }

  /** The rest of `t` after the literal `lit`, if `t` starts with it. */
  function Expect(lit: string, t: string): (r: Option<string>)
    ensures r.Some? ==> t == lit + r.value
    ensures forall rest {:trigger lit + rest} :: t == lit + rest ==> r == Some(rest)
  {
    if |lit| <= |t| && t[..|lit|] == lit then
      assert t == lit + t[|lit|..];
      Some(t[|lit|..])
    else None
  }

  /** The control characters `JSON.stringify` writes with a two-character escape. */
  predicate ShortEscaped(c: char) {
    c == 8 as char || c == '\t' || c == '\n' || c == 12 as char || c == '\r'
  }

  /**
   * The character an escape stands for (`t` is what follows the backslash),
   * and the text after it. Only the escapes `JSON.stringify` writes are read.
   */
  function Unescape(t: string): (r: Option<(char, string)>)
    ensures r.Some? ==> |r.value.1| < |t|
  {
    if t == [] then None
    else if t[0] == '"' then Some(('"', t[1..]))
    else if t[0] == '\\' then Some(('\\', t[1..]))
    else if t[0] == 'b' then Some((8 as char, t[1..]))
    else if t[0] == 'f' then Some((12 as char, t[1..]))
    else if t[0] == 'n' then Some(('\n', t[1..]))
    else if t[0] == 'r' then Some(('\r', t[1..]))
    else if t[0] == 't' then Some(('\t', t[1..]))
    else if |t| >= 5 && t[..3] == "u00" && t[3] in "01" then
      var lo :- HexValue(t[4]);
      var c := ((t[3] as int - '0' as int) * 16 + lo) as char;
      if ShortEscaped(c) then None else Some((c, t[5..]))
    else None
  }

  function Prepend(c: char, r: Option<(string, string)>): Option<(string, string)>
  {
    match r
    case None => None
    case Some((x, rest)) => Some(([c] + x, rest))
  }

  /** The characters of a string literal up to its closing quote, and the text after that quote. */
  function ParseChars(t: string): (r: Option<(string, string)>)
    ensures r.Some? ==> |r.value.1| < |t|
    decreases |t|
  {
    if t == [] then None
    else if t[0] == '"' then Some(([], t[1..]))
    else if t[0] == '\\' then
      match Unescape(t[1..])
      case None => None
      case Some((c, more)) => Prepend(c, ParseChars(more))
    else if t[0] < ' ' then None
    else Prepend(t[0], ParseChars(t[1..]))
  }

  /** A string literal at the front of `t`, and the text after it. */
  function ParseString(t: string): (r: Option<(string, string)>)
    ensures r.Some? ==> |r.value.1| < |t|
  {
    var after :- Expect("\"", t);
    ParseChars(after)
  }

  /** The key `key` and a string literal at the front of `t`: the string, and the text after it. */
  function ParseField(key: string, t: string): (r: Option<(string, string)>)
    ensures r.Some? ==> |r.value.1| < |t|
  {
    var after :- Expect(key, t);
    ParseString(after)
  }

  /** A record object at the front of `t`, and the text after it. */
  function ParseRecord(t: string): (r: Option<(Barcode, string)>)
    ensures r.Some? ==> |r.value.1| < |t|
  {
    var id :- ParseField(IdKey, t);
    var format :- ParseField(TypeKey, id.1);
    var data :- ParseField(DataKey, format.1);
    var timestamp :- ParseField(TimestampKey, data.1);
    var after :- Expect("}", timestamp.1);
    Some((Barcode(id.0, format.0, data.0, timestamp.0), after))
  }

  /** One or more comma-separated records and the closing bracket, and the text after the bracket. */
  function ParseItems(t: string): (r: Option<(seq<Barcode>, string)>)
    ensures r.Some? ==> |r.value.1| < |t|
    decreases |t|
  {
    var first :- ParseRecord(t);
    var rest := first.1;
    if rest != [] && rest[0] == ',' then
      var more :- ParseItems(rest[1..]);
      Some(([first.0] + more.0, more.1))
    else if rest != [] && rest[0] == ']' then
      Some(([first.0], rest[1..]))
    else None
  }

  /** `JSON.parse` of a stored list; `None` is the parse failure (a thrown `SyntaxError`). */
  function Decode(t: string): (r: Option<seq<Barcode>>)
    ensures t == "" ==> r == None
  {
    var body :- Expect("[", t);
    if body == "]" then Some([])
    else
      var items :- ParseItems(body);
      if items.1 == [] then Some(items.0) else None
  }

  lemma Assoc4(a: string, b: string, c: string, d: string, e: string)
    ensures a + b + c + d + e == a + (b + (c + d + e))
  {
  }

  lemma ExpectLiteral(lit: string, rest: string)
    ensures Expect(lit, lit + rest) == Some(rest)
  {
    assert (lit + rest)[..|lit|] == lit;
    assert (lit + rest)[|lit|..] == rest;
  }

  lemma HexDigitValue(n: nat)
    requires n < 16
    ensures HexValue(HexDigit(n)) == Some(n)
  {
  }

  /** The parser reads one escaped character back as that character. */
  lemma ParseEscapeChar(c: char, t: string)
    ensures ParseChars(EscapeChar(c) + t) == Prepend(c, ParseChars(t))
  {
    if ' ' <= c && c != '"' && c != '\\' {
      assert EscapeChar(c) == [c];
      Uncons([c] + t);
    } else if c == '"' || c == '\\' || ShortEscaped(c) {
      ParseShortEscape(c, t);
    } else {
      var u := "u00" + [HexDigit(c as int / 16), HexDigit(c as int % 16)];
      assert EscapeChar(c) == "\\" + u;
      Assoc("\\", u, t);
      ParseUnicodeEscape(c, t);
    }
  }

  /** A two-character escape reads back as the character it stands for. */
  lemma ParseShortEscape(c: char, t: string)
    requires c == '"' || c == '\\' || ShortEscaped(c)
    ensures ParseChars(EscapeChar(c) + t) == Prepend(c, ParseChars(t))
  {
    var e := EscapeChar(c);
    assert e == ['\\', e[1]];
    assert e + t == ['\\'] + ([e[1]] + t);
    Uncons([e[1]] + t);
  }

  /** The `\u00xx` escape of a control character reads back as that character. */
  lemma ParseUnicodeEscape(c: char, t: string)
    requires c < ' ' && !ShortEscaped(c)
    ensures Unescape("u00" + [HexDigit(c as int / 16), HexDigit(c as int % 16)] + t) == Some((c, t))
  {
    var hi, lo := c as int / 16, c as int % 16;
    HexDigitValue(lo);
    var u := "u00" + [HexDigit(hi), HexDigit(lo)] + t;
    assert u[..3] == "u00" && u[3] == HexDigit(hi) && u[4] == HexDigit(lo);
    assert u[5..] == t;
  }

  /** A string literal's characters read back as the string that was escaped. */
  lemma {:induction false} ParseEscape(x: string, rest: string)
    ensures ParseChars(Escape(x) + "\"" + rest) == Some((x, rest))
    decreases |x|
  {
    if x == [] {
      assert Escape(x) + "\"" + rest == "\"" + rest;
      assert ("\"" + rest)[1..] == rest;
    } else {
      var tail := Escape(x[1..]) + "\"" + rest;
      assert Escape(x) + "\"" + rest == EscapeChar(x[0]) + tail;
      ParseEscapeChar(x[0], tail);
      ParseEscape(x[1..], rest);
      assert [x[0]] + x[1..] == x;
    }
  }

  lemma ParseQuote(x: string, rest: string)
    ensures ParseString(Quote(x) + rest) == Some((x, rest))
  {
    QuoteLayout(Escape(x), rest);
    ExpectLiteral("\"", Escape(x) + "\"" + rest);
    ParseEscape(x, rest);
  }

  /** A string literal followed by more text, regrouped after its opening quote. */
  lemma QuoteLayout(e: string, rest: string)
    ensures "\"" + e + "\"" + rest == "\"" + (e + "\"" + rest)
  {
    Assoc("\"", e, "\"");
    Assoc("\"", e + "\"", rest);
  }

  lemma ParseFieldOf(key: string, x: string, rest: string)
    ensures ParseField(key, Field(key, x) + rest) == Some((x, rest))
  {
    Assoc(key, Quote(x), rest);
    ExpectLiteral(key, Quote(x) + rest);
    ParseQuote(x, rest);
  }

  /** A record reads back as itself, leaving the text that followed it. */
  lemma ParseEncodeRecord(b: Barcode, rest: string)
    ensures ParseRecord(EncodeRecord(b) + rest) == Some((b, rest))
  {
    var f1, f2, f3, f4 := Field(IdKey, b.id), Field(TypeKey, b.format), Field(DataKey, b.data),
      Field(TimestampKey, b.timestamp);
    var t := EncodeRecord(b) + rest;
    RecordLayout(f1, f2, f3, f4, rest);
    ParseFieldOf(IdKey, b.id, f2 + (f3 + (f4 + ("}" + rest))));
    ParseFieldOf(TypeKey, b.format, f3 + (f4 + ("}" + rest)));
    ParseFieldOf(DataKey, b.data, f4 + ("}" + rest));
    ParseFieldOf(TimestampKey, b.timestamp, "}" + rest);
    ExpectLiteral("}", rest);
  }

  /** A record's text followed by more text, regrouped field by field. */
  lemma RecordLayout(f1: string, f2: string, f3: string, f4: string, rest: string)
    ensures (f1 + (f2 + (f3 + (f4 + "}")))) + rest == f1 + (f2 + (f3 + (f4 + ("}" + rest))))
  {
    Assoc(f1, f2 + (f3 + (f4 + "}")), rest);
    Assoc(f2, f3 + (f4 + "}"), rest);
    Assoc(f3, f4 + "}", rest);
    Assoc(f4, "}", rest);
  }

  /** A non-empty list of records followed by the closing bracket reads back as that list. */
  lemma {:induction false} ParseEncodeItems(s: seq<Barcode>, rest: string)
    requires s != []
    ensures ParseItems(EncodeItems(s) + "]" + rest) == Some((s, rest))
    decreases |s|
  {
    if |s| == 1 {
      ParseEncodeOne(s, rest);
    } else {
      ParseEncodeItems(s[1..], rest);
      ParseEncodeCons(s, rest);
    }
  }

  lemma ParseEncodeOne(s: seq<Barcode>, rest: string)
    requires |s| == 1
    ensures ParseItems(EncodeItems(s) + "]" + rest) == Some((s, rest))
  {
    var t := EncodeItems(s) + "]" + rest;
    EncodeItemsOne(s, rest);
    ParseEncodeRecord(s[0], "]" + rest);
    ParseItemsLast(t, s[0], rest);
    assert [s[0]] == s;
  }

  lemma ParseEncodeCons(s: seq<Barcode>, rest: string)
    requires |s| > 1
    requires ParseItems(EncodeItems(s[1..]) + "]" + rest) == Some((s[1..], rest))
    ensures ParseItems(EncodeItems(s) + "]" + rest) == Some((s, rest))
  {
    var more := EncodeItems(s[1..]) + "]" + rest;
    EncodeItemsCons(s, rest);
    ParseRecordThenItems(s[0], more);
    Uncons(s);
  }

  /** A record, a comma and a list body read back as the longer list. */
  lemma ParseRecordThenItems(b: Barcode, more: string)
    requires ParseItems(more).Some?
    ensures ParseItems(EncodeRecord(b) + ("," + more)) ==
      Some(([b] + ParseItems(more).value.0, ParseItems(more).value.1))
  {
    ParseEncodeRecord(b, "," + more);
    ParseItemsNext(EncodeRecord(b) + ("," + more), b, more);
  }

  lemma EncodeItemsOne(s: seq<Barcode>, rest: string)
    requires |s| == 1
    ensures EncodeItems(s) + "]" + rest == EncodeRecord(s[0]) + ("]" + rest)
  {
    var e := EncodeRecord(s[0]);
    assert EncodeItems(s) == e;
    Assoc(e, "]", rest);
  }

  lemma EncodeItemsCons(s: seq<Barcode>, rest: string)
    requires |s| > 1
    ensures EncodeItems(s) + "]" + rest == EncodeRecord(s[0]) + ("," + (EncodeItems(s[1..]) + "]" + rest))
  {
    var e, i := EncodeRecord(s[0]), EncodeItems(s[1..]);
    assert EncodeItems(s) == e + "," + i;
    Assoc4(e, ",", i, "]", rest);
  }

  lemma ParseItemsLast(t: string, b: Barcode, rest: string)
    requires ParseRecord(t) == Some((b, "]" + rest))
    ensures ParseItems(t) == Some(([b], rest))
  {
    assert ("]" + rest)[1..] == rest;
  }

  lemma ParseItemsNext(t: string, b: Barcode, more: string)
    requires ParseRecord(t) == Some((b, "," + more))
    requires ParseItems(more).Some?
    ensures ParseItems(t) == Some(([b] + ParseItems(more).value.0, ParseItems(more).value.1))
  {
    assert ("," + more)[1..] == more;
  }

  /** Reading back what was stored gives the same records in the same order. */
  lemma DecodeEncode(s: seq<Barcode>)
    ensures Decode(Encode(s)) == Some(s)
  {
    var body := EncodeItems(s) + "]";
    ExpectLiteral("[", body);
    assert Encode(s) == "[" + body;
    if s == [] {
      assert body == "]";
    } else {
      assert EncodeItems(s)[0] == '{' by {
        var e := EncodeRecord(s[0]);
        assert e[0] == IdKey[0];
        assert EncodeItems(s)[0] == e[0];
      }
      assert body != "]";
      ParseEncodeItems(s, "");
      assert body + "" == body;
    }
  }

  lemma HexValueDigit(c: char)
    requires HexValue(c).Some?
    ensures HexDigit(HexValue(c).value) == c
  {
  }

  /** Every escape the parser reads is the one `JSON.stringify` writes for the character it yields. */
  lemma UnescapeSound(t: string)
    requires Unescape(t).Some?
    ensures "\\" + t == EscapeChar(Unescape(t).value.0) + Unescape(t).value.1
  {
    var (c, rest) := Unescape(t).value;
    if t[0] in "\"\\bfnrt" {
      assert t == [t[0]] + t[1..];
    } else {
      var lo := HexValue(t[4]).value;
      HexValueDigit(t[4]);
      var hi := t[3] as int - '0' as int;
      assert c as int == hi * 16 + lo;
      assert c as int / 16 == hi && c as int % 16 == lo;
      assert EscapeChar(c) == "\\u00" + [t[3], t[4]];
      assert t == t[..3] + [t[3], t[4]] + t[5..];
    }
  }

  /** Whatever the parser reads as a string literal's characters is their escaped form. */
  lemma {:induction false} ParseCharsSound(t: string)
    requires ParseChars(t).Some?
    ensures t == Escape(ParseChars(t).value.0) + "\"" + ParseChars(t).value.1
    decreases |t|
  {
    if t[0] == '"' {
      assert t == "\"" + t[1..];
    } else if t[0] == '\\' {
      var (c, more) := Unescape(t[1..]).value;
      ParseCharsSound(more);
      var (y, rest) := ParseChars(more).value;
      EscapedSound(t, c, more, y, rest);
    } else {
      ParseCharsSound(t[1..]);
      var (y, rest) := ParseChars(t[1..]).value;
      assert ParseChars(t) == Some(([t[0]] + y, rest));
      PlainSound(t, y, rest);
    }
  }

  /** An escape followed by the escaped form of `y` is the escaped form of `c` then `y`. */
  lemma EscapedSound(t: string, c: char, more: string, y: string, rest: string)
    requires t != [] && t[0] == '\\' && Unescape(t[1..]) == Some((c, more))
    requires more == Escape(y) + "\"" + rest
    ensures t == Escape([c] + y) + "\"" + rest
  {
    UnescapeSound(t[1..]);
    Uncons(t);
    EscapeCons(c, y);
    Assoc(EscapeChar(c), Escape(y), "\"");
    Assoc(EscapeChar(c), Escape(y) + "\"", rest);
  }

  lemma EscapeCons(c: char, y: string)
    ensures Escape([c] + y) == EscapeChar(c) + Escape(y)
  {
    assert ([c] + y)[1..] == y;
  }

  /** A character written as itself followed by the escaped form of `y`. */
  lemma PlainSound(t: string, y: string, rest: string)
    requires t != [] && t[0] != '"' && t[0] != '\\' && t[0] >= ' '
    requires t[1..] == Escape(y) + "\"" + rest
    ensures t == Escape([t[0]] + y) + "\"" + rest
  {
    Uncons(t);
    EscapeCons(t[0], y);
    assert EscapeChar(t[0]) == [t[0]];
    Assoc([t[0]], Escape(y), "\"");
    Assoc([t[0]], Escape(y) + "\"", rest);
  }

  lemma ParseFieldSound(key: string, t: string)
    requires ParseField(key, t).Some?
    ensures t == Field(key, ParseField(key, t).value.0) + ParseField(key, t).value.1
  {
    var (x, rest) := ParseField(key, t).value;
    var after := t[|key|..];
    assert t == t[..|key|] + after;
    var inner := after[1..];
    Uncons(after);
    ParseCharsSound(inner);
    QuoteLayout(Escape(x), rest);
    Assoc(key, Quote(x), rest);
  }

  lemma Uncons<T>(t: seq<T>)
    requires t != []
    ensures t == [t[0]] + t[1..]
  {
  }

  /** Whatever the parser reads as a record is that record's object literal. */
  lemma ParseRecordSound(t: string)
    requires ParseRecord(t).Some?
    ensures t == EncodeRecord(ParseRecord(t).value.0) + ParseRecord(t).value.1
  {
    var (b, rest) := ParseRecord(t).value;
    var (id, r1) := ParseField(IdKey, t).value;
    var (format, r2) := ParseField(TypeKey, r1).value;
    var (data, r3) := ParseField(DataKey, r2).value;
    var (timestamp, r4) := ParseField(TimestampKey, r3).value;
    ParseFieldSound(IdKey, t);
    ParseFieldSound(TypeKey, r1);
    ParseFieldSound(DataKey, r2);
    ParseFieldSound(TimestampKey, r3);
    Uncons(r4);
    RecordSoundLayout(t, Barcode(id, format, data, timestamp), r1, r2, r3, r4, rest);
  }

  /** Four fields and a closing brace, read one after another, make up the record's text. */
  lemma RecordSoundLayout(t: string, b: Barcode, r1: string, r2: string, r3: string, r4: string, rest: string)
    requires t == Field(IdKey, b.id) + r1 && r1 == Field(TypeKey, b.format) + r2
    requires r2 == Field(DataKey, b.data) + r3 && r3 == Field(TimestampKey, b.timestamp) + r4
    requires r4 == "}" + rest
    ensures t == EncodeRecord(b) + rest
  {
    RecordLayout(Field(IdKey, b.id), Field(TypeKey, b.format), Field(DataKey, b.data),
      Field(TimestampKey, b.timestamp), rest);
  }

  /** Whatever the parser reads as a list body is a non-empty list's comma-separated records. */
  lemma {:induction false} ParseItemsSound(t: string)
    requires ParseItems(t).Some?
    ensures ParseItems(t).value.0 != []
    ensures t == EncodeItems(ParseItems(t).value.0) + "]" + ParseItems(t).value.1
    decreases |t|
  {
    var (b, after) := ParseRecord(t).value;
    Uncons(after);
    if after[0] == ',' {
      ParseItemsSound(after[1..]);
      ParseItemsSoundNext(t, b, after[1..]);
    } else {
      ParseItemsSoundLast(t, b, after[1..]);
    }
  }

  lemma ParseItemsSoundNext(t: string, b: Barcode, more: string)
    requires ParseRecord(t) == Some((b, "," + more))
    requires ParseItems(more).Some? && ParseItems(more).value.0 != []
    requires more == EncodeItems(ParseItems(more).value.0) + "]" + ParseItems(more).value.1
    ensures ParseItems(t) == Some(([b] + ParseItems(more).value.0, ParseItems(more).value.1))
    ensures t == EncodeItems([b] + ParseItems(more).value.0) + "]" + ParseItems(more).value.1
  {
    var (s', rest) := ParseItems(more).value;
    ParseItemsNext(t, b, more);
    ParseRecordSound(t);
    var s := [b] + s';
    assert s[1..] == s' && s[0] == b;
    EncodeItemsCons(s, rest);
  }

  lemma ParseItemsSoundLast(t: string, b: Barcode, rest: string)
    requires ParseRecord(t) == Some((b, "]" + rest))
    ensures ParseItems(t) == Some(([b], rest))
    ensures t == EncodeItems([b]) + "]" + rest
  {
    ParseItemsLast(t, b, rest);
    ParseRecordSound(t);
    EncodeItemsOne([b], rest);
  }

  /** Whatever the parser accepts is exactly the text `JSON.stringify` writes for what it returns. */
  lemma DecodeSound(t: string)
    requires Decode(t).Some?
    ensures t == Encode(Decode(t).value)
  {
    var body := t[1..];
    Uncons(t);
    if body == "]" {
      assert Encode([]) == "[" + "" + "]";
    } else {
      ParseItemsSound(body);
      var (s, rest) := ParseItems(body).value;
      assert rest == [];
      assert body == EncodeItems(s) + "]";
      Assoc("[", EncodeItems(s), "]");
    }
  }

  /** A stored text reads back as a list exactly when it is that list's encoding. */
  lemma DecodeExactly(t: string, s: seq<Barcode>)
    ensures Decode(t) == Some(s) <==> t == Encode(s)
  {
    if Decode(t) == Some(s) {
      DecodeSound(t);
    }
    if t == Encode(s) {
      DecodeEncode(s);
    }
  }

  /** Two lists that are stored as the same text are the same list. */
  lemma EncodeInjective(s: seq<Barcode>, s': seq<Barcode>)
    requires Encode(s) == Encode(s')
    ensures s == s'
  {
    DecodeEncode(s);
    DecodeEncode(s');
  }
}

/**
 * JSON text for string-valued objects: JSON.stringify as ECMA-262 defines it
 * (section 25.5.2, with QuoteJSONString for the escapes), and JSON.parse
 * (the grammar of RFC 8259) restricted to objects whose values are strings,
 * which is every record the contract writes.
 */
module JsonCodec {
  import opened Wrappers
  import opened JsonObject

  /** The four whitespace characters JSON allows between tokens. */
  predicate IsWhitespace(c: char)
  {
    c == ' ' || c == '\t' || c == '\n' || c == '\r'
  }

  function HexDigit(n: int): (c: char)
    requires 0 <= n < 16
  {
    if n < 10 then ('0' as int + n) as char else ('a' as int + n - 10) as char
  }

  /** The value of an upper- or lower-case hexadecimal digit, or -1. */
  function HexValue(c: char): (n: int)
    ensures -1 <= n < 16
  {
    if '0' <= c <= '9' then c as int - '0' as int
    else if 'a' <= c <= 'f' then c as int - 'a' as int + 10
    else if 'A' <= c <= 'F' then c as int - 'A' as int + 10
    else -1
  }

  lemma HexValueOfDigit(n: int)
    requires 0 <= n < 16
    ensures HexValue(HexDigit(n)) == n
  {
  }

  // ---------------------------------------------------------------- writing

  /** How JSON.stringify writes one character of a string (QuoteJSONString). */
  function EscapeChar(c: char): string
  {
    if c == '"' then "\\\""
    else if c == '\\' then "\\\\"
    else if c as int == 0x08 then "\\b"
    else if c == '\t' then "\\t"
    else if c == '\n' then "\\n"
    else if c as int == 0x0C then "\\f"
    else if c == '\r' then "\\r"
    else if c as int < 0x20 then "\\u00" + [HexDigit(c as int / 16), HexDigit(c as int % 16)]
    else [c]
  }

  function Escape(s: string): string
  {
    if s == [] then [] else EscapeChar(s[0]) + Escape(s[1..])
  }

  /** A JSON string literal. */
  function Quote(s: string): string
  {
    "\"" + Escape(s) + "\""
  }

  function MemberText(m: Member): string
  {
    Quote(m.key) + (":" + Quote(m.value))
  }

  /** The members after the first, each preceded by a comma. */
  function MoreMembers(o: Obj): string
  {
    if o == [] then "" else "," + (MemberText(o[0]) + MoreMembers(o[1..]))
  }

  /** JSON.stringify(o): no whitespace, properties in insertion order. */
  function Stringify(o: Obj): string
  {
    if o == [] then "{}" else "{" + (MemberText(o[0]) + (MoreMembers(o[1..]) + "}"))
  }

  /** Every object text opens with a brace, so it is never empty. */
  lemma StringifyOpens(o: Obj)
    ensures |Stringify(o)| >= 2 && Stringify(o)[0] == '{'
  {
  }

  // ---------------------------------------------------------------- reading

  function SkipWhitespace(s: string): (r: string)
    ensures |r| <= |s|
    ensures r != [] ==> !IsWhitespace(r[0])
  {
    if s != [] && IsWhitespace(s[0]) then SkipWhitespace(s[1..]) else s
  }

  /** The value of four hexadecimal digits, or -1. */
  function Hex4(h: string): (n: int)
    requires |h| == 4
    ensures -1 <= n < 0x10000
  {
    var a, b, c, d := HexValue(h[0]), HexValue(h[1]), HexValue(h[2]), HexValue(h[3]);
    if a < 0 || b < 0 || c < 0 || d < 0 then -1 else ((a * 16 + b) * 16 + c) * 16 + d
  }

  /** One escape sequence, given the text after its backslash. */
  function ParseEscape(s: string): (r: Option<(char, string)>)
    ensures r.Some? ==> |r.value.1| < |s|
  {
    if s == [] then None
    else if s[0] == '"' || s[0] == '\\' || s[0] == '/' then Some((s[0], s[1..]))
    else if s[0] == 'b' then Some((0x08 as char, s[1..]))
    else if s[0] == 'f' then Some((0x0C as char, s[1..]))
    else if s[0] == 'n' then Some(('\n', s[1..]))
    else if s[0] == 'r' then Some(('\r', s[1..]))
    else if s[0] == 't' then Some(('\t', s[1..]))
    else if s[0] == 'u' && |s| >= 5 then
      var n := Hex4(s[1..5]);
      if n < 0 || 0xD800 <= n < 0xE000 then None else Some((n as char, s[5..]))
    else None
  }

  /** The characters of a string literal up to its closing quote, and the text after it. */
  function ParseChars(s: string): (r: Option<(string, string)>)
    ensures r.Some? ==> |r.value.1| < |s|
    decreases |s|
  {
    if s == [] then None
    else if s[0] == '"' then Some(([], s[1..]))
    else if s[0] == '\\' then
      match ParseEscape(s[1..])
      case None => None
      case Some((c, rest)) =>
        match ParseChars(rest)
        case None => None
        case Some((t, after)) => Some(([c] + t, after))
    else if s[0] as int < 0x20 then None
    else
      match ParseChars(s[1..])
      case None => None
      case Some((t, after)) => Some(([s[0]] + t, after))
  }

  function ParseString(s: string): (r: Option<(string, string)>)
    ensures r.Some? ==> |r.value.1| < |s|
  {
    if s != [] && s[0] == '"' then ParseChars(s[1..]) else None
  }

  /** One member `"name" : "value"`, and the text after it from its first non-blank character. */
  function ParseMember(s: string): (r: Option<(Member, string)>)
    ensures r.Some? ==> |r.value.1| < |s|
  {
    match ParseString(SkipWhitespace(s))
    case None => None
    case Some((k, s1)) =>
      var s2 := SkipWhitespace(s1);
      if s2 == [] || s2[0] != ':' then None
      else
        match ParseString(SkipWhitespace(s2[1..]))
        case None => None
        case Some((v, s3)) => Some((Member(k, v), SkipWhitespace(s3)))
  }

  /**
   * The members of an object after its opening brace, added to acc one by
   * one as JSON.parse does (a repeated name keeps its first place and takes
   * the last value), and the text after the closing brace.
   */
  function ParseMembers(s: string, acc: Obj): (r: Option<(Obj, string)>)
    ensures r.Some? ==> |r.value.1| < |s|
    ensures r.Some? && DistinctKeys(acc) ==> DistinctKeys(r.value.0)
    decreases |s|
  {
    match ParseMember(s)
    case None => None
    case Some((m, t)) =>
      var acc' := Set(acc, m.key, m.value);
      assert DistinctKeys(acc) ==> DistinctKeys(acc') by {
        if DistinctKeys(acc) {
          SetDistinct(acc, m.key, m.value);
        }
      }
      if t == [] then None
      else if t[0] == ',' then ParseMembers(t[1..], acc')
      else if t[0] == '}' then Some((acc', t[1..]))
      else None
  }

  function ParseObject(s: string): (r: Option<(Obj, string)>)
    ensures r.Some? ==> DistinctKeys(r.value.0)
  {
    if s == [] || s[0] != '{' then None
    else
      var t := SkipWhitespace(s[1..]);
      if t != [] && t[0] == '}' then Some(([], t[1..]))
      else ParseMembers(t, [])
  }

  /**
   * JSON.parse for a text that is one object with string values, surrounded
   * by optional whitespace. `None` is the SyntaxError JSON.parse throws.
   */
  function Parse(text: string): (r: Option<Obj>)
    ensures r.Some? ==> DistinctKeys(r.value)
  {
    match ParseObject(SkipWhitespace(text))
    case None => None
    case Some((o, rest)) => if SkipWhitespace(rest) == [] then Some(o) else None
  }

  // ------------------------------------------------------------ round trip

  /** Parsing the escape of c, then anything, reads c first. */
  lemma EscapeCharParses(c: char, tail: string)
    requires ParseChars(tail).Some?
    ensures ParseChars(EscapeChar(c) + tail) == Some(([c] + ParseChars(tail).value.0, ParseChars(tail).value.1))
  {
    var e := EscapeChar(c) + tail;
    if c == '"' || c == '\\' || c as int == 0x08 || c == '\t' || c == '\n' || c as int == 0x0C || c == '\r' {
      assert e[0] == '\\' && e[1..] == [EscapeChar(c)[1]] + tail;
      assert ParseEscape(e[1..]) == Some((c, tail));
    } else if c as int < 0x20 {
      var hi, lo := c as int / 16, c as int % 16;
      assert e[0] == '\\' && e[1..] == "u00" + [HexDigit(hi), HexDigit(lo)] + tail;
      assert e[1..][1..5] == ['0', '0', HexDigit(hi), HexDigit(lo)];
      HexValueOfDigit(0);
      HexValueOfDigit(hi);
      HexValueOfDigit(lo);
      assert Hex4(e[1..][1..5]) == c as int;
      assert e[1..][5..] == tail;
      assert ParseEscape(e[1..]) == Some((c, tail));
    } else {
      assert e[0] == c && e[1..] == tail;
    }
  }

  lemma {:induction false} EscapedParses(s: string, rest: string)
    ensures ParseChars(Escape(s) + "\"" + rest) == Some((s, rest))
  {
    if s == [] {
      assert Escape(s) + "\"" + rest == "\"" + rest;
    } else {
      var tail := Escape(s[1..]) + "\"" + rest;
      assert Escape(s) + "\"" + rest == EscapeChar(s[0]) + tail;
      EscapedParses(s[1..], rest);
      EscapeCharParses(s[0], tail);
      assert [s[0]] + s[1..] == s;
    }
  }

  /** Reading a written string literal gives back the string and the text after it. */
  lemma QuoteParses(s: string, rest: string)
    ensures ParseString(Quote(s) + rest) == Some((s, rest))
  {
    assert (Quote(s) + rest)[1..] == Escape(s) + "\"" + rest;
    EscapedParses(s, rest);
  }

  lemma SkipNothing(s: string)
    requires s != [] && !IsWhitespace(s[0])
    ensures SkipWhitespace(s) == s
  {
  }

  lemma Associative(a: string, b: string, c: string, d: string)
    ensures a + (b + c) + d == a + (b + (c + d))
  {
  }

  lemma QuoteReads(s: string, rest: string)
    ensures ParseString(SkipWhitespace(Quote(s) + rest)) == Some((s, rest))
  {
    SkipNothing(Quote(s) + rest);
    QuoteParses(s, rest);
  }

  /** Reading one written member gives it back, and the text after it. */
  lemma MemberReads(m: Member, tail: string)
    requires tail != [] && !IsWhitespace(tail[0])
    ensures ParseMember(MemberText(m) + tail) == Some((m, tail))
  {
    var s := MemberText(m) + tail;
    var s2 := ":" + (Quote(m.value) + tail);
    assert ParseString(SkipWhitespace(s)) == Some((m.key, s2)) by {
      Associative(Quote(m.key), ":", Quote(m.value), tail);
      QuoteReads(m.key, s2);
    }
    assert SkipWhitespace(s2) == s2 && s2[1..] == Quote(m.value) + tail by {
      SkipNothing(s2);
    }
    assert ParseString(SkipWhitespace(s2[1..])) == Some((m.value, tail)) by {
      QuoteReads(m.value, tail);
    }
    assert SkipWhitespace(tail) == tail by {
      SkipNothing(tail);
    }
  }

  /** Reading one written member and the separator after it. */
  lemma MemberParses(m: Member, tail: string, acc: Obj)
    requires tail != [] && (tail[0] == ',' || tail[0] == '}')
    ensures ParseMembers(MemberText(m) + tail, acc)
         == if tail[0] == ',' then ParseMembers(tail[1..], Set(acc, m.key, m.value))
            else Some((Set(acc, m.key, m.value), tail[1..]))
  {
    MemberReads(m, tail);
  }

  /** Reading the members of o, in order, after those already read into acc. */
  lemma {:induction false} MembersParse(o: Obj, acc: Obj, rest: string)
    requires o != [] && DistinctKeys(acc + o)
    ensures ParseMembers(MemberText(o[0]) + (MoreMembers(o[1..]) + ("}" + rest)), acc) == Some((acc + o, rest))
  {
    var m, o' := o[0], o[1..];
    var text := MemberText(m) + (MoreMembers(o') + ("}" + rest));
    assert Set(acc, m.key, m.value) == acc + [m] by {
      forall i | 0 <= i < |acc| ensures acc[i].key != m.key {
        assert (acc + o)[i] == acc[i] && (acc + o)[|acc|] == m;
      }
      SetNew(acc, m.key, m.value);
    }
    if o' == [] {
      assert ParseMembers(text, acc) == Some((acc + o, rest)) by {
        assert MoreMembers(o') + ("}" + rest) == "}" + rest;
        MemberParses(m, "}" + rest, acc);
        assert o == [m];
      }
    } else {
      assert ParseMembers(text, acc) == Some((acc + o, rest)) by {
        NextMemberParses(m, o', acc, rest);
        MoveFirst(acc, o);
        MembersParse(o', acc + [m], rest);
      }
    }
  }

  lemma MoveFirst(acc: Obj, o: Obj)
    requires o != []
    ensures (acc + [o[0]]) + o[1..] == acc + o
  {
  }

  lemma NextMemberParses(m: Member, o: Obj, acc: Obj, rest: string)
    requires o != []
    ensures ParseMembers(MemberText(m) + (MoreMembers(o) + ("}" + rest)), acc)
         == ParseMembers(MemberText(o[0]) + (MoreMembers(o[1..]) + ("}" + rest)), Set(acc, m.key, m.value))
  {
    var tail := MoreMembers(o) + ("}" + rest);
    assert tail[0] == ',' && tail[1..] == MemberText(o[0]) + (MoreMembers(o[1..]) + ("}" + rest)) by {
      Associative(",", MemberText(o[0]), MoreMembers(o[1..]), "}" + rest);
    }
    MemberParses(m, tail, acc);
  }

  /** Parse on an object text whose members ParseMembers reads to the end. */
  lemma ParseObjectText(text: string, o: Obj)
    requires text != [] && text[0] == '{'
    requires text[1..] != [] && text[1..][0] == '"'
    requires ParseMembers(text[1..], []) == Some((o, ""))
    ensures Parse(text) == Some(o)
  {
    SkipNothing(text);
    SkipNothing(text[1..]);
  }

  lemma ParseEmptyObject()
    ensures Parse("{}") == Some([])
  {
    var text := "{}";
    SkipNothing(text);
    assert text[1..] == "}";
    SkipNothing(text[1..]);
    assert text[1..][1..] == [];
    assert ParseObject(text) == Some(([], ""));
  }

  /** JSON.parse(JSON.stringify(o)) gives back o, properties in the same order. */
  lemma ParseStringify(o: Obj)
    requires DistinctKeys(o)
    ensures Parse(Stringify(o)) == Some(o)
  {
    var text := Stringify(o);
    if o == [] {
      assert text == "{}";
      ParseEmptyObject();
    } else {
      assert text[1..] == MemberText(o[0]) + (MoreMembers(o[1..]) + ("}" + "")) by {
        assert "}" + "" == "}";
      }
      assert text[1..][0] == '"';
      assert [] + o == o;
      MembersParse(o, [], "");
      ParseObjectText(text, o);
    }
  }

}

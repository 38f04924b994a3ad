/** JSON strings (section 7 of RFC 8259): what `json.dumps` writes for a string, and how a JSON reader reads it back. */
module Json {
  import opened Options

  // ---------- Writing ----------

  function HexDigit(n: nat): char
    requires n < 16
  {
    if n < 10 then ('0' as int + n) as char else ('a' as int + n - 10) as char
  }

  /** One character of the string; only quotes, backslashes and control characters are escaped. */
  function Escape(c: char): string {
    if c == '\"' then "\\\""
    else if c == '\\' then "\\\\"
    else if c == '\n' then "\\n"
    else if c == '\r' then "\\r"
    else if c == '\t' then "\\t"
    else if c == '\U{8}' then "\\b"
    else if c == '\U{C}' then "\\f"
    else if c < ' ' then "\\u00" + [HexDigit(c as int / 16), HexDigit(c as int % 16)]
    else [c]
  }

  function EscapeAll(s: string): string {
    if s == "" then "" else Escape(s[0]) + EscapeAll(s[1..])
  }

  /** `json_string`. */
  function Quote(s: string): string {
    "\"" + EscapeAll(s) + "\""
  }

  // ---------- Reading ----------

  function HexValue(c: char): Option<nat> {
    if '0' <= c <= '9' then Some(c as int - '0' as int)
    else if 'a' <= c <= 'f' then Some(c as int - 'a' as int + 10)
    else if 'A' <= c <= 'F' then Some(c as int - 'A' as int + 10)
    else None
  }

  /** The character of a four-digit escape; halves of surrogate pairs are not characters. */
  function ReadHex(t: string): Option<char>
    requires |t| == 4
  {
    var a :- HexValue(t[0]);
    var b :- HexValue(t[1]);
    var c :- HexValue(t[2]);
    var d :- HexValue(t[3]);
    var n := ((a * 16 + b) * 16 + c) * 16 + d;
    if n < 0xD800 || 0xE000 <= n < 0x1_0000 then Some(n as char) else None
  }

  /** An escape, after its backslash: the character it stands for and how long it is. */
  function ReadEscape(t: string): (r: Option<(char, nat)>)
    ensures r.Some? ==> 1 <= r.value.1 <= |t|
  {
    if t == "" then None
    else
      match t[0]
      case '\"' => Some(('\"', 1))
      case '\\' => Some(('\\', 1))
      case '/' => Some(('/', 1))
      case 'b' => Some(('\U{8}', 1))
      case 'f' => Some(('\U{C}', 1))
      case 'n' => Some(('\n', 1))
      case 'r' => Some(('\r', 1))
      case 't' => Some(('\t', 1))
      case 'u' =>
        if |t| < 5 then None
        else
          var c :- ReadHex(t[1..5]);
          Some((c, 5))
      case _ => None
  }

  /** One character as written, and how long its writing is. */
  function ReadChar(t: string): (r: Option<(char, nat)>)
    requires t != ""
    ensures r.Some? ==> 1 <= r.value.1 <= |t|
  {
    if t[0] == '\\' then
      var (c, n) :- ReadEscape(t[1..]);
      Some((c, n + 1))
    else if t[0] < ' ' then None
    else Some((t[0], 1))
  }

  /** The characters up to the closing quote, and what follows it. */
  function ReadBody(t: string): Option<(string, string)>
    decreases |t|
  {
    if t == "" then None
    else if t[0] == '\"' then Some(("", t[1..]))
    else
      var (c, n) :- ReadChar(t);
      var (s, rest) :- ReadBody(t[n..]);
      Some(([c] + s, rest))
  }

  /** A JSON string at the start of t, and what follows it. */
  function ReadQuoted(t: string): Option<(string, string)> {
    if t != "" && t[0] == '\"' then ReadBody(t[1..]) else None
  }

  // ---------- The two are inverse ----------

  lemma EscapeReadsBack(c: char, t: string)
    ensures Escape(c)[0] != '\"' && ReadChar(Escape(c) + t) == Some((c, |Escape(c)|))
  {
    var w := Escape(c) + t;
    if |Escape(c)| == 6 {
      var high, low := c as int / 16, c as int % 16;
      assert w[1..][1..5] == w[2..6] == Escape(c)[2..];
      assert Escape(c)[2..] == ['0', '0', HexDigit(high), HexDigit(low)];
      assert HexValue(HexDigit(high)) == Some(high) && HexValue(HexDigit(low)) == Some(low);
      assert ReadHex(w[1..][1..5]) == Some(c);
    }
  }

  /** An escaped character is read, and reading goes on behind it. */
  lemma {:induction false} BodyGoesOn(c: char, rest: string)
    requires ReadBody(rest).Some?
    ensures ReadBody(Escape(c) + rest) == Some(([c] + ReadBody(rest).value.0, ReadBody(rest).value.1))
  {
    EscapeReadsBack(c, rest);
    assert (Escape(c) + rest)[|Escape(c)|..] == rest;
  }

  lemma {:induction false} EmptyBody(t: string)
    ensures ReadBody("\"" + t) == Some(("", t))
  {
    assert ("\"" + t)[1..] == t;
  }

  lemma {:induction false} EscapeFirst(s: string, tail: string)
    requires s != ""
    ensures EscapeAll(s) + tail == Escape(s[0]) + (EscapeAll(s[1..]) + tail)
  {
  }

  lemma {:induction false} BodyStep(s: string, t: string, rest: string)
    requires s != "" && ReadBody(rest) == Some((s[1..], t))
    ensures ReadBody(Escape(s[0]) + rest) == Some((s, t))
  {
    BodyGoesOn(s[0], rest);
    assert s == [s[0]] + s[1..];
  }

  lemma {:induction false} BodyReadsBack(s: string, t: string, text: string)
    requires text == EscapeAll(s) + ("\"" + t)
    ensures ReadBody(text) == Some((s, t))
  {
    if s == "" {
      EmptyBody(t);
      assert text == "\"" + t;
    } else {
      var rest := EscapeAll(s[1..]) + ("\"" + t);
      BodyReadsBack(s[1..], t, rest);
      EscapeFirst(s, "\"" + t);
      BodyStep(s, t, rest);
    }
  }

  lemma {:induction false} QuoteParts(s: string, t: string)
    ensures var text := Quote(s) + t; text != "" && text[0] == '\"' && text[1..] == EscapeAll(s) + ("\"" + t)
  {
  }

  /** Every string is read back from its quoted form, whatever follows. */
  lemma QuoteReadsBack(s: string, t: string)
    ensures ReadQuoted(Quote(s) + t) == Some((s, t))
  {
    QuoteParts(s, t);
    BodyReadsBack(s, t, (Quote(s) + t)[1..]);
  }

  lemma {:induction false} EscapesArePrintable(s: string, c: char)
    requires c in EscapeAll(s)
    ensures ' ' <= c
  {
    if c !in Escape(s[0]) {
      EscapesArePrintable(s[1..], c);
    }
  }

  /** No quoted string holds a control character, and so none spans two lines. */
  lemma QuotesArePrintable(s: string)
    ensures forall c :: c in Quote(s) ==> ' ' <= c
  {
    forall c | c in Quote(s) ensures ' ' <= c {
      if c in EscapeAll(s) {
        EscapesArePrintable(s, c);
      }
    }
  }

  /** Characters that need no escape; letters with accents are among them. */
  predicate Unescaped(c: char) {
    c >= ' ' && c != '\"' && c != '\\'
  }

  /** Exactly the strings without quotes, backslashes and control characters are quoted as they stand. */
  lemma {:induction false} PlainIsKept(s: string)
    ensures |EscapeAll(s)| >= |s|
    ensures (forall c :: c in s ==> Unescaped(c)) <==> EscapeAll(s) == s
  {
    if s != "" {
      PlainIsKept(s[1..]);
      assert s == [s[0]] + s[1..];
      assert |Escape(s[0])| >= 1 && (Escape(s[0]) == [s[0]] <==> Unescaped(s[0]));
      assert EscapeAll(s) == s ==> EscapeAll(s)[1..] == s[1..] && EscapeAll(s)[0] == s[0];
    }
  }

  // ---------- No writing is shorter ----------

  lemma CharIsShortest(t: string)
    requires t != "" && ReadChar(t).Some? && t[0] != '\"'
    ensures |Escape(ReadChar(t).value.0)| <= ReadChar(t).value.1
  {
  }

  lemma {:induction false} BodyIsShortest(t: string)
    requires ReadBody(t).Some?
    ensures |EscapeAll(ReadBody(t).value.0)| + 1 + |ReadBody(t).value.1| <= |t|
    decreases |t|
  {
    if t[0] != '\"' {
      var (c, n) := ReadChar(t).value;
      var s := ReadBody(t[n..]).value.0;
      CharIsShortest(t);
      BodyIsShortest(t[n..]);
      assert EscapeAll([c] + s) == Escape(c) + EscapeAll(s) by {
        assert ([c] + s)[1..] == s;
      }
    }
  }

  /** Of all the ways to write a string in JSON, the quoted form is one of the shortest. */
  lemma QuoteIsShortest(written: string)
    requires ReadQuoted(written).Some? && ReadQuoted(written).value.1 == ""
    ensures |Quote(ReadQuoted(written).value.0)| <= |written|
  {
    BodyIsShortest(written[1..]);
  }
}

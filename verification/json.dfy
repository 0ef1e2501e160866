/**
 * `JSON.stringify` and `JSON.parse` for the values the client keeps in
 * browser storage: a string (the session summary), an array of strings (the
 * chat history) and an array of `{role, content}` records (the chat log).
 * Stringify produces exactly the text JavaScript produces; the parsers accept
 * that text and the other escape spellings JSON allows inside strings, except
 * `\u` escapes of surrogate code units, and return `None` for anything else.
 */
module Json {
  import opened Common
  import opened JsText

  /** One chat turn as the chat page stores it. */
  datatype Message = Message(role: string, content: string)

  // ---------------------------------------------------------------------------
  // Strings

  function HexDigitChar(d: nat): (c: char)
    requires d < 16
    ensures IsHexDigit(c) && HexDigitValue(c) == d
  {
    if d < 10 then DigitChar(d) else ('a' as int + d - 10) as char
  }

  /** How `JSON.stringify` writes one character inside a string literal. */
  function EscapeChar(c: char): (e: string)
    ensures e != []
  {
    if c == '"' then "\\\""
    else if c == '\\' then "\\\\"
    else if c == '\U{0008}' then "\\b"
    else if c == '\t' then "\\t"
    else if c == '\n' then "\\n"
    else if c == '\U{000C}' then "\\f"
    else if c == '\r' then "\\r"
    else if c < ' ' then "\\u00" + [HexDigitChar(c as int / 16), HexDigitChar(c as int % 16)]
    else [c]
  }

  function EscapeString(s: string): string {
    if s == [] then [] else EscapeChar(s[0]) + EscapeString(s[1..])
  }

  /** `JSON.stringify(s)` for a string `s`. */
  function Quote(s: string): (t: string)
    ensures t != [] && t[0] == '"'
  {
    "\"" + EscapeString(s) + "\""
  }

  /** The value of four hexadecimal digits. */
  function Hex4(t: string): nat
    requires |t| >= 4 && forall i :: 0 <= i < 4 ==> IsHexDigit(t[i])
  {
    ((HexDigitValue(t[0]) * 16 + HexDigitValue(t[1])) * 16 + HexDigitValue(t[2])) * 16 + HexDigitValue(t[3])
  }

  /**
   * Decodes the escape sequence that follows a backslash: the character it
   * stands for and the text after it. A `\u` escape naming a surrogate code
   * unit (D800 to DFFF) is refused, even as one half of a well-formed pair:
   * a `char` here is a Unicode scalar value, and pairs are not combined.
   */
  function Unescape(t: string): (r: Option<(char, string)>)
    ensures r.Some? ==> |r.value.1| < |t|
  {
    if t == [] then None
    else if t[0] == '"' || t[0] == '\\' || t[0] == '/' then Some((t[0], t[1..]))
    else if t[0] == 'b' then Some(('\U{0008}', t[1..]))
    else if t[0] == 'f' then Some(('\U{000C}', t[1..]))
    else if t[0] == 'n' then Some(('\n', t[1..]))
    else if t[0] == 'r' then Some(('\r', t[1..]))
    else if t[0] == 't' then Some(('\t', t[1..]))
    else if t[0] == 'u' && |t| >= 5 && forall i :: 1 <= i < 5 ==> IsHexDigit(t[i]) then
      var v := Hex4(t[1..]);
      if 0xD800 <= v < 0xE000 then None else Some((v as char, t[5..]))
    else None
  }

  /**
   * Reads the body of a string literal up to its closing quote: the decoded
   * string and the text after the quote. Raw control characters are refused,
   * as `JSON.parse` refuses them.
   */
  function ParseStringBody(t: string): (r: Option<(string, string)>)
    ensures r.Some? ==> |r.value.1| < |t|
    decreases |t|
  {
    if t == [] then None
    else if t[0] == '"' then Some(([], t[1..]))
    else if t[0] < ' ' then None
    else
      var head := if t[0] == '\\' then Unescape(t[1..]) else Some((t[0], t[1..]));
      match head
      case None => None
      case Some((c, after)) =>
        match ParseStringBody(after)
        case None => None
        case Some((s, rest)) => Some(([c] + s, rest))
  }

  /** Reads one string literal at the start of `t`: the string and the text after it. */
  function ParseString(t: string): (r: Option<(string, string)>)
    ensures r.Some? ==> |r.value.1| < |t|
  {
    if t != [] && t[0] == '"' then ParseStringBody(t[1..]) else None
  }

  lemma EscapeCharBody(c: char, t: string)
    ensures ParseStringBody(EscapeChar(c) + t) ==
      match ParseStringBody(t)
      case None => None
      case Some((s, rest)) => Some(([c] + s, rest))
  {
    var e := EscapeChar(c);
    var u := e + t;
    if c == '"' || c == '\\' || c == '\U{0008}' || c == '\t' || c == '\n' || c == '\U{000C}' || c == '\r' {
      assert u[0] == '\\' && u[2..] == t;
      assert Unescape(u[1..]) == Some((c, t));
    } else if c < ' ' {
      var hi, lo := c as int / 16, c as int % 16;
      assert u[0] == '\\' && u[1] == 'u' && u[2] == '0' && u[3] == '0';
      assert u[4] == HexDigitChar(hi) && u[5] == HexDigitChar(lo);
      assert u[6..] == t;
      var w := u[1..];
      assert w[1..][0] == '0' && w[1..][1] == '0' && w[1..][2] == u[4] && w[1..][3] == u[5];
      assert Hex4(w[1..]) == c as int;
      assert Unescape(w) == Some((c, t));
    } else {
      assert u[0] == c && u[1..] == t;
    }
  }

  lemma {:induction false} StringBodyRoundTrip(s: string, rest: string)
    ensures ParseStringBody(EscapeString(s) + "\"" + rest) == Some((s, rest))
  {
    if s == [] {
      assert EscapeString(s) + "\"" + rest == "\"" + rest;
    } else {
      var tail := EscapeString(s[1..]) + "\"" + rest;
      assert EscapeString(s) + "\"" + rest == EscapeChar(s[0]) + tail;
      StringBodyRoundTrip(s[1..], rest);
      EscapeCharBody(s[0], tail);
      assert [s[0]] + s[1..] == s;
    }
  }

  /** `JSON.parse` reads back what `JSON.stringify` wrote for a string, leaving what follows. */
  lemma StringRoundTrip(s: string, rest: string)
    ensures ParseString(Quote(s) + rest) == Some((s, rest))
  {
    var t := Quote(s) + rest;
    assert t[1..] == EscapeString(s) + "\"" + rest;
    StringBodyRoundTrip(s, rest);
  }

  /** `JSON.parse(text)` when `text` must be a single string literal. */
  function DecodeString(text: string): (r: Option<string>)
  {
    match ParseString(text)
    case Some((s, rest)) => if rest == [] then Some(s) else None
    case None => None
  }

  lemma DecodeQuote(s: string)
    ensures DecodeString(Quote(s)) == Some(s)
  {
    StringRoundTrip(s, []);
    assert Quote(s) + [] == Quote(s);
  }

  // ---------------------------------------------------------------------------
  // Arrays of strings

  /** The rest of an array after its first element: `,"b","c"]`. */
  function StringsTail(xs: seq<string>): string {
    if xs == [] then "]" else "," + (Quote(xs[0]) + StringsTail(xs[1..]))
  }

  /** `JSON.stringify(xs)` for an array of strings. */
  function EncodeStrings(xs: seq<string>): (t: string)
    ensures t != [] && t[0] == '['
  {
    if xs == [] then "[]" else "[" + (Quote(xs[0]) + StringsTail(xs[1..]))
  }

  function ParseStringsTail(t: string): (r: Option<(seq<string>, string)>)
    ensures r.Some? ==> |r.value.1| < |t|
    decreases |t|
  {
    if t == [] then None
    else if t[0] == ']' then Some(([], t[1..]))
    else if t[0] != ',' then None
    else
      match ParseString(t[1..])
      case None => None
      case Some((x, after)) =>
        match ParseStringsTail(after)
        case None => None
        case Some((xs, rest)) => Some(([x] + xs, rest))
  }

  /** `JSON.parse(text)` when `text` must be an array of strings. */
  function DecodeStrings(text: string): (r: Option<seq<string>>)
  {
    if |text| < 2 || text[0] != '[' then None
    else if text == "[]" then Some([])
    else
      match ParseString(text[1..])
      case None => None
      case Some((x, after)) =>
        match ParseStringsTail(after)
        case Some((xs, rest)) => if rest == [] then Some([x] + xs) else None
        case None => None
  }

  /** One more element in front of a parsed array tail. */
  lemma StringsTailCons(q: string, x: string, after: string, xs: seq<string>, rest: string)
    requires ParseString(q + after) == Some((x, after))
    requires ParseStringsTail(after) == Some((xs, rest))
    ensures ParseStringsTail("," + (q + after)) == Some(([x] + xs, rest))
  {
    assert ("," + (q + after))[1..] == q + after;
  }

  /** A non-empty array whose first element parses and whose tail parses to the end. */
  lemma DecodeStringsCons(q: string, x: string, after: string, xs: seq<string>)
    requires q != [] && q[0] == '"'
    requires ParseString(q + after) == Some((x, after))
    requires ParseStringsTail(after) == Some((xs, []))
    ensures DecodeStrings("[" + (q + after)) == Some([x] + xs)
  {
    var text := "[" + (q + after);
    assert text[1..] == q + after;
    assert text != "[]" by {
      assert text[1] == q[0];
    }
  }

  lemma {:induction false} StringsTailRoundTrip(xs: seq<string>, rest: string)
    ensures ParseStringsTail(StringsTail(xs) + rest) == Some((xs, rest))
  {
    if xs == [] {
      assert (StringsTail(xs) + rest)[1..] == rest;
    } else {
      var q := Quote(xs[0]);
      var tail := StringsTail(xs[1..]);
      var after := tail + rest;
      assert StringsTail(xs) + rest == "," + (q + after) by {
        assert StringsTail(xs) == "," + (q + tail);
      }
      StringRoundTrip(xs[0], after);
      StringsTailRoundTrip(xs[1..], rest);
      StringsTailCons(q, xs[0], after, xs[1..], rest);
      assert [xs[0]] + xs[1..] == xs;
    }
  }

  /** Reading back a stored array of strings gives the same array. */
  lemma {:induction false} StringsRoundTrip(xs: seq<string>)
    ensures DecodeStrings(EncodeStrings(xs)) == Some(xs)
  {
    if xs != [] {
      var q := Quote(xs[0]);
      var after := StringsTail(xs[1..]);
      StringRoundTrip(xs[0], after);
      StringsTailRoundTrip(xs[1..], []);
      assert after + [] == after;
      DecodeStringsCons(q, xs[0], after, xs[1..]);
      assert [xs[0]] + xs[1..] == xs;
    }
  }

  // ---------------------------------------------------------------------------
  // Arrays of messages

  const RoleField: string := "{\"role\":"
  const ContentField: string := ",\"content\":"

  /** `JSON.stringify({role, content})`. */
  function EncodeMessage(m: Message): (t: string)
    ensures t != [] && t[0] == '{'
  {
    RoleField + (Quote(m.role) + (ContentField + (Quote(m.content) + "}")))
  }

  /** The text after `lit` when `t` begins with it. */
  function Expect(lit: string, t: string): (r: Option<string>)
    ensures r.Some? ==> |r.value| == |t| - |lit|
  {
    if lit <= t then Some(t[|lit|..]) else None
  }

  function ParseMessage(t: string): (r: Option<(Message, string)>)
    ensures r.Some? ==> |r.value.1| < |t|
  {
    match Expect(RoleField, t)
    case None => None
    case Some(t1) =>
      match ParseString(t1)
      case None => None
      case Some((role, t2)) =>
        match Expect(ContentField, t2)
        case None => None
        case Some(t3) =>
          match ParseString(t3)
          case None => None
          case Some((content, t4)) =>
            match Expect("}", t4)
            case None => None
            case Some(rest) => Some((Message(role, content), rest))
  }

  lemma ExpectLiteral(lit: string, rest: string)
    ensures Expect(lit, lit + rest) == Some(rest)
  {
    assert lit <= lit + rest;
    assert (lit + rest)[|lit|..] == rest;
  }

  lemma MessageRoundTrip(m: Message, rest: string)
    ensures ParseMessage(EncodeMessage(m) + rest) == Some((m, rest))
  {
    var t4 := "}" + rest;
    var t3 := Quote(m.content) + t4;
    var t2 := ContentField + t3;
    var t1 := Quote(m.role) + t2;
    calc {
      EncodeMessage(m) + rest;
      RoleField + (Quote(m.role) + (ContentField + (Quote(m.content) + "}"))) + rest;
      RoleField + t1;
    }
    ExpectLiteral(RoleField, t1);
    StringRoundTrip(m.role, t2);
    ExpectLiteral(ContentField, t3);
    StringRoundTrip(m.content, t4);
    ExpectLiteral("}", rest);
  }

  function MessagesTail(ms: seq<Message>): string {
    if ms == [] then "]" else "," + (EncodeMessage(ms[0]) + MessagesTail(ms[1..]))
  }

  /** `JSON.stringify(messages)`. */
  function EncodeMessages(ms: seq<Message>): (t: string)
    ensures t != [] && t[0] == '['
  {
    if ms == [] then "[]" else "[" + (EncodeMessage(ms[0]) + MessagesTail(ms[1..]))
  }

  function ParseMessagesTail(t: string): (r: Option<(seq<Message>, string)>)
    ensures r.Some? ==> |r.value.1| < |t|
    decreases |t|
  {
    if t == [] then None
    else if t[0] == ']' then Some(([], t[1..]))
    else if t[0] != ',' then None
    else
      match ParseMessage(t[1..])
      case None => None
      case Some((m, after)) =>
        match ParseMessagesTail(after)
        case None => None
        case Some((ms, rest)) => Some(([m] + ms, rest))
  }

  /** `JSON.parse(text)` when `text` must be an array of `{role, content}` records. */
  function DecodeMessages(text: string): (r: Option<seq<Message>>)
  {
    if |text| < 2 || text[0] != '[' then None
    else if text == "[]" then Some([])
    else
      match ParseMessage(text[1..])
      case None => None
      case Some((m, after)) =>
        match ParseMessagesTail(after)
        case Some((ms, rest)) => if rest == [] then Some([m] + ms) else None
        case None => None
  }

  lemma MessagesTailCons(e: string, m: Message, after: string, ms: seq<Message>, rest: string)
    requires ParseMessage(e + after) == Some((m, after))
    requires ParseMessagesTail(after) == Some((ms, rest))
    ensures ParseMessagesTail("," + (e + after)) == Some(([m] + ms, rest))
  {
    assert ("," + (e + after))[1..] == e + after;
  }

  /** One more message in front of a tail that parses keeps it parsing. */
  lemma MessagesTailStep(m: Message, ms: seq<Message>, rest: string)
    requires ParseMessagesTail(MessagesTail(ms) + rest) == Some((ms, rest))
    ensures ParseMessagesTail(MessagesTail([m] + ms) + rest) == Some(([m] + ms, rest))
  {
    var e := EncodeMessage(m);
    var after := MessagesTail(ms) + rest;
    assert MessagesTail([m] + ms) + rest == "," + (e + after) by {
      assert ([m] + ms)[1..] == ms;
      assert MessagesTail([m] + ms) == "," + (e + MessagesTail(ms));
    }
    MessageRoundTrip(m, after);
    MessagesTailCons(e, m, after, ms, rest);
  }

  lemma {:induction false} MessagesTailRoundTrip(ms: seq<Message>, rest: string)
    ensures ParseMessagesTail(MessagesTail(ms) + rest) == Some((ms, rest))
  {
    if ms == [] {
      assert (MessagesTail(ms) + rest)[1..] == rest;
    } else {
      MessagesTailRoundTrip(ms[1..], rest);
      MessagesTailStep(ms[0], ms[1..], rest);
      assert [ms[0]] + ms[1..] == ms;
    }
  }

  /** A non-empty log whose first message parses and whose tail parses to the end. */
  lemma DecodeMessagesCons(e: string, m: Message, after: string, ms: seq<Message>)
    requires e != [] && e[0] == '{'
    requires ParseMessage(e + after) == Some((m, after))
    requires ParseMessagesTail(after) == Some((ms, []))
    ensures DecodeMessages("[" + (e + after)) == Some([m] + ms)
  {
    var text := "[" + (e + after);
    assert text[1..] == e + after;
    assert text != "[]" by {
      assert text[1] == e[0];
    }
  }

  /** Reading back a stored chat log gives the same log. */
  lemma {:induction false} MessagesRoundTrip(ms: seq<Message>)
    ensures DecodeMessages(EncodeMessages(ms)) == Some(ms)
  {
    if ms != [] {
      var e := EncodeMessage(ms[0]);
      var after := MessagesTail(ms[1..]);
      MessageRoundTrip(ms[0], after);
      MessagesTailRoundTrip(ms[1..], []);
      assert after + [] == after;
      DecodeMessagesCons(e, ms[0], after, ms[1..]);
      assert [ms[0]] + ms[1..] == ms;
    }
  }
}

// JSON.stringify of an array of strings, as hasPendingChanges uses it to compare
// selections (frontend/src/FiltersPanel.jsx:802-806). The escapes follow the
// QuoteJSONString operation of section 25.5.2 of ECMA-262: the two-character
// escapes for ", \, backspace, tab, line feed, form feed and carriage return,
// \u00xx with lower-case hex for the other control characters, every other
// character as itself. A decoder for that output shows the encoding is injective.
module Json {
  import opened Optional

  const Backspace: char := '\U{8}'
  const FormFeed: char := '\U{C}'

  function HexDigit(n: nat): (c: char)
    requires n < 16
    ensures IsHex(c) && HexValue(c) == n
  {
    if n < 10 then ('0' as int + n) as char else ('a' as int + n - 10) as char
  }

  predicate IsHex(c: char)
  {
    '0' <= c <= '9' || 'a' <= c <= 'f'
  }

  function HexValue(c: char): (n: nat)
    requires IsHex(c)
    ensures n < 16
  {
    if c <= '9' then c as int - '0' as int else c as int - 'a' as int + 10
  }

  /** The JSON text of one character inside a string literal. */
  function EscapeChar(c: char): (e: string)
    ensures |e| > 0 && e[0] != '"'
    ensures (e[0] == '\\') == (c == '"' || c == '\\' || c < ' ')
  {
    if c == '"' then "\\\""
    else if c == '\\' then "\\\\"
    else if c == Backspace then "\\b"
    else if c == '\t' then "\\t"
    else if c == '\n' then "\\n"
    else if c == FormFeed then "\\f"
    else if c == '\r' then "\\r"
    else if c < ' ' then "\\u00" + [HexDigit(c as int / 16), HexDigit(c as int % 16)]
    else [c]
  }

  function Escape(s: string): string
  {
    if s == [] then "" else EscapeChar(s[0]) + Escape(s[1..])
  }

  function Quote(s: string): string
  {
    "\"" + Escape(s) + "\""
  }

  /** The array elements separated by commas. */
  function Items(l: seq<string>): string
  {
    if l == [] then "" else if |l| == 1 then Quote(l[0]) else Quote(l[0]) + "," + Items(l[1..])
  }

  /** JSON.stringify(l) for an array of strings. */
  function Stringify(l: seq<string>): string
  {
    "[" + Items(l) + "]"
  }

  // ---- Decoding what Stringify writes ----

  /** The character an escape sequence at the head of t stands for, and the sequence's length. */
  function DecodeEscape(t: string): (r: Option<(char, nat)>)
    requires |t| >= 2 && t[0] == '\\'
    ensures r.Some? ==> 2 <= r.value.1 <= |t|
  {
    match t[1]
    case '"' => Some(('"', 2))
    case '\\' => Some(('\\', 2))
    case 'b' => Some((Backspace, 2))
    case 't' => Some(('\t', 2))
    case 'n' => Some(('\n', 2))
    case 'f' => Some((FormFeed, 2))
    case 'r' => Some(('\r', 2))
    case 'u' =>
      if |t| >= 6 && t[2] == '0' && t[3] == '0' && IsHex(t[4]) && IsHex(t[5])
      then Some(((HexValue(t[4]) * 16 + HexValue(t[5])) as char, 6))
      else None
    case _ => None
  }

  function Cons(c: char, r: Option<(string, string)>): Option<(string, string)>
  {
    if r.None? then None else Some(([c] + r.value.0, r.value.1))
  }

  /** Read string-literal content up to the closing quote: the characters and what follows the quote. */
  function Unescape(t: string): (r: Option<(string, string)>)
    ensures r.Some? ==> |r.value.1| < |t|
    decreases |t|
  {
    if t == [] then None
    else if t[0] == '"' then Some(("", t[1..]))
    else if t[0] == '\\' then
      if |t| < 2 then None
      else
        match DecodeEscape(t)
        case None => None
        case Some((c, n)) => Cons(c, Unescape(t[n..]))
    else Cons(t[0], Unescape(t[1..]))
  }

  /** Read comma-separated string literals up to the closing bracket, which must end the text. */
  function ParseItems(u: string): Option<seq<string>>
    decreases |u|
  {
    if u == [] || u[0] != '"' then None
    else
      match Unescape(u[1..])
      case None => None
      case Some((s, rest)) =>
        if rest == "]" then Some([s])
        else if rest != [] && rest[0] == ',' then
          match ParseItems(rest[1..])
          case None => None
          case Some(more) => Some([s] + more)
        else None
  }

  /** Read a JSON array of strings. */
  function Parse(t: string): Option<seq<string>>
  {
    if t == "[]" then Some([])
    else if t != [] && t[0] == '[' then ParseItems(t[1..])
    else None
  }

  lemma UnescapeChar(c: char, u: string)
    ensures Unescape(EscapeChar(c) + u) == Cons(c, Unescape(u))
  {
    var e := EscapeChar(c);
    var t := e + u;
    if e[0] == '\\' {
      if c < ' ' && c != Backspace && c != '\t' && c != '\n' && c != FormFeed && c != '\r' {
        assert |e| == 6 && t[..6] == e;
        assert t[1] == 'u' && t[2] == '0' && t[3] == '0';
        assert t[4] == HexDigit(c as int / 16) && t[5] == HexDigit(c as int % 16);
        assert DecodeEscape(t) == Some((c, 6));
        assert t[6..] == u;
      } else {
        assert |e| == 2 && t[..2] == e;
        assert t[2..] == u;
      }
    } else {
      assert e == [c];
      assert t[1..] == u;
    }
  }

  /** The content of a quoted string reads back as the string, leaving what follows the quote. */
  lemma {:induction false} UnescapeEscape(s: string, rest: string)
    ensures Unescape(Escape(s) + "\"" + rest) == Some((s, rest))
    decreases |s|
  {
    if s == [] {
      assert Escape(s) + "\"" + rest == "\"" + rest;
      assert ("\"" + rest)[1..] == rest;
    } else {
      UnescapeEscape(s[1..], rest);
      assert Escape(s) + "\"" + rest == EscapeChar(s[0]) + (Escape(s[1..]) + "\"" + rest);
      UnescapeChar(s[0], Escape(s[1..]) + "\"" + rest);
      assert [s[0]] + s[1..] == s;
    }
  }

  /** The text of a one-element array, up to its closing bracket. */
  lemma ItemsOne(l: seq<string>)
    requires |l| == 1
    ensures Items(l) + "]" == "\"" + (Escape(l[0]) + "\"" + "]")
  {
  }

  /** The text of a longer array: its first element, a comma and the rest. */
  lemma ItemsMany(l: seq<string>)
    requires |l| > 1
    ensures Items(l) + "]" == "\"" + (Escape(l[0]) + "\"" + ("," + (Items(l[1..]) + "]")))
  {
    var q, e, i := "\"", Escape(l[0]), Items(l[1..]);
    assert Items(l) == Quote(l[0]) + "," + i;
    Associate5(q, e, q, ",", i, "]");
  }

  lemma Associate5(a: string, b: string, c: string, d: string, e: string, f: string)
    ensures (a + b + c) + d + e + f == a + (b + c + (d + (e + f)))
  {
  }

  /** The last element: its quoted text followed by the closing bracket. */
  lemma ParseItemsLast(s: string)
    ensures ParseItems("\"" + (Escape(s) + "\"" + "]")) == Some([s])
  {
    var u := "\"" + (Escape(s) + "\"" + "]");
    assert u[1..] == Escape(s) + "\"" + "]";
    UnescapeEscape(s, "]");
  }

  /** An element followed by a comma and the rest of the array. */
  lemma ParseItemsMore(s: string, rest: string)
    requires ParseItems(rest).Some?
    ensures ParseItems("\"" + (Escape(s) + "\"" + ("," + rest))) == Some([s] + ParseItems(rest).value)
  {
    var tail := "," + rest;
    var body := Escape(s) + "\"" + tail;
    var u := "\"" + body;
    assert u[0] == '"' && u[1..] == body;
    UnescapeEscape(s, tail);
    assert tail[0] == ',' && tail != "]" && tail[1..] == rest;
  }

  lemma {:induction false} ParseItemsRoundTrip(l: seq<string>)
    requires l != []
    ensures ParseItems(Items(l) + "]") == Some(l)
    decreases |l|
  {
    if |l| == 1 {
      ItemsOne(l);
      ParseItemsLast(l[0]);
      assert l == [l[0]];
    } else {
      ItemsMany(l);
      ParseItemsRoundTrip(l[1..]);
      ParseItemsMore(l[0], Items(l[1..]) + "]");
      assert [l[0]] + l[1..] == l;
    }
  }

  /** Reading back what Stringify writes gives the array. */
  lemma ParseStringify(l: seq<string>)
    ensures Parse(Stringify(l)) == Some(l)
  {
    if l != [] {
      ParseItemsRoundTrip(l);
      assert Stringify(l)[0] == '[' && Stringify(l)[1..] == Items(l) + "]";
      assert Items(l)[0] == '"';
      assert Stringify(l)[1] == '"';
    }
  }

  /** Two string arrays have the same JSON text exactly when they are equal element by element. */
  lemma StringifyInjective(a: seq<string>, b: seq<string>)
    ensures Stringify(a) == Stringify(b) <==> a == b
  {
    ParseStringify(a);
    ParseStringify(b);
  }
}

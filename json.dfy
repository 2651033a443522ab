/** `JSON.stringify` and `JSON.parse` restricted to what the posts route
    stores in its `images` and `tags` columns: arrays of strings. The encoder
    follows ECMAScript's QuoteJSONString; the decoder reads the canonical
    text the encoder writes (no insignificant whitespace), accepting every
    escape JSON allows except surrogate pairs. */
module Json {
  import opened Common

  // ---------------------------------------------------------------------------
  // Encoding

  function HexDigit(n: int): (c: char)
    requires 0 <= n < 16
  {
    if n < 10 then ('0' as int + n) as char else ('a' as int + n - 10) as char
  }

  /** The escape JSON.stringify writes for one character. */
  function EscapeChar(c: char): (r: string)
    ensures r != []
  {
    if c == '"' then "\\\""
    else if c == '\\' then "\\\\"
    else if c == '\U{0008}' then "\\b"
    else if c == '\t' then "\\t"
    else if c == '\n' then "\\n"
    else if c == '\U{000C}' then "\\f"
    else if c == '\r' then "\\r"
    else if (c as int) < 0x20 then "\\u00" + [HexDigit(c as int / 16), HexDigit(c as int % 16)]
    else [c]
  }

  function EscapeString(s: string): string
    decreases |s|
  {
    if s == [] then [] else EscapeChar(s[0]) + EscapeString(s[1..])
  }

  function Quote(s: string): string {
    "\"" + EscapeString(s) + "\""
  }

  function QuoteAll(xs: seq<string>): string
    requires xs != []
    decreases |xs|
  {
    if |xs| == 1 then Quote(xs[0]) else Quote(xs[0]) + "," + QuoteAll(xs[1..])
  }

  /** `JSON.stringify(xs)` for an array of strings. */
  function Stringify(xs: seq<string>): string {
    if xs == [] then "[]" else "[" + QuoteAll(xs) + "]"
  }

  // ---------------------------------------------------------------------------
  // Decoding

  function HexValue(c: char): Option<int> {
    if '0' <= c <= '9' then Some(c as int - '0' as int)
    else if 'a' <= c <= 'f' then Some(c as int - 'a' as int + 10)
    else if 'A' <= c <= 'F' then Some(c as int - 'A' as int + 10)
    else None
  }

  /** The value of four hex digits. */
  function Hex4(s: string): (r: Option<int>)
    requires |s| >= 4
    ensures r.Some? ==> 0 <= r.value < 0x10000
  {
    match (HexValue(s[0]), HexValue(s[1]), HexValue(s[2]), HexValue(s[3]))
    case (Some(a), Some(b), Some(c), Some(d)) =>
      if 0 <= a < 16 && 0 <= b < 16 && 0 <= c < 16 && 0 <= d < 16
      then Some(((a * 16 + b) * 16 + c) * 16 + d) else None
    case _ => None
  }

  /** Reads the escape that follows a backslash: the character it stands for
      and how many characters it occupies. A `\u` escape of a surrogate half
      is rejected. */
  function ParseEscape(s: string): (r: Option<(char, nat)>)
    ensures r.Some? ==> 1 <= r.value.1 <= |s|
  {
    if s == [] then None
    else if s[0] == '"' then Some(('"', 1))
    else if s[0] == '\\' then Some(('\\', 1))
    else if s[0] == '/' then Some(('/', 1))
    else if s[0] == 'b' then Some(('\U{0008}', 1))
    else if s[0] == 'f' then Some(('\U{000C}', 1))
    else if s[0] == 'n' then Some(('\n', 1))
    else if s[0] == 'r' then Some(('\r', 1))
    else if s[0] == 't' then Some(('\t', 1))
    else if s[0] == 'u' && |s| >= 5 then
      match Hex4(s[1..5])
      case Some(v) => if v < 0xD800 || 0xE000 <= v then Some((v as char, 5)) else None
      case None => None
    else None
  }

  /** Reads the inside of a string literal up to its closing quote: the
      decoded string and the text after the quote. */
  function ParseStringBody(s: string): (r: Option<(string, string)>)
    ensures r.Some? ==> |r.value.1| < |s|
    decreases |s|
  {
    if s == [] then None
    else if s[0] == '"' then Some(([], s[1..]))
    else if (s[0] as int) < 0x20 then None
    else if s[0] == '\\' then
      match ParseEscape(s[1..])
      case None => None
      case Some((c, n)) =>
        match ParseStringBody(s[1 + n..])
        case None => None
        case Some((t, rest)) => Some(([c] + t, rest))
    else
      match ParseStringBody(s[1..])
      case None => None
      case Some((t, rest)) => Some(([s[0]] + t, rest))
  }

  /** Reads `"…","…",…]`. */
  function ParseItems(s: string): Option<seq<string>>
    decreases |s|
  {
    if s == [] || s[0] != '"' then None
    else
      match ParseStringBody(s[1..])
      case None => None
      case Some((x, rest)) =>
        if rest == "]" then Some([x])
        else if rest != [] && rest[0] == ',' then
          match ParseItems(rest[1..])
          case None => None
          case Some(xs) => Some([x] + xs)
        else None
  }

  /** `JSON.parse(text)` for an array of strings; None where parse throws
      (or the text holds something other than an array of strings). */
  function Parse(text: string): Option<seq<string>> {
    if text == "[]" then Some([])
    else if |text| >= 2 && text[0] == '[' then ParseItems(text[1..])
    else None
  }

  // ---------------------------------------------------------------------------
  // Round trip

  /** A backslash escape standing for `c` reads back as `c` before the rest. */
  lemma BackslashStep(e: string, c: char, rest: string)
    requires |e| >= 2 && e[0] == '\\' && ParseEscape(e[1..] + rest) == Some((c, |e| - 1))
    ensures ParseStringBody(e + rest) == (match ParseStringBody(rest)
      case None => None
      case Some((t, r)) => Some(([c] + t, r)))
  {
    var s := e + rest;
    assert s[0] == '\\' && s[1..] == e[1..] + rest;
    assert s[1 + (|e| - 1)..] == rest;
  }

  predicate ShortEscaped(c: char) {
    c == '"' || c == '\\' || c == '\U{0008}' || c == '\t' || c == '\n' || c == '\U{000C}' || c == '\r'
  }

  lemma ShortEscapeParses(c: char, rest: string)
    requires ShortEscaped(c)
    ensures var e := EscapeChar(c); |e| == 2 && e[0] == '\\' && ParseEscape(e[1..] + rest) == Some((c, 1))
  {
    var e := EscapeChar(c);
    assert (e[1..] + rest)[0] == e[1];
  }

  lemma UnicodeEscapeParses(c: char, rest: string)
    requires !ShortEscaped(c) && (c as int) < 0x20
    ensures var e := EscapeChar(c); |e| == 6 && e[0] == '\\' && ParseEscape(e[1..] + rest) == Some((c, 5))
  {
    var e := EscapeChar(c);
    var hi, lo := c as int / 16, c as int % 16;
    assert e == ['\\', 'u', '0', '0', HexDigit(hi), HexDigit(lo)];
    var t := e[1..] + rest;
    assert t[0] == 'u' && t[1..5] == ['0', '0', HexDigit(hi), HexDigit(lo)];
    assert HexValue(HexDigit(hi)) == Some(hi);
    assert HexValue(HexDigit(lo)) == Some(lo);
    assert Hex4(t[1..5]) == Some(c as int);
  }

  lemma EscapeCharRoundTrip(c: char, rest: string)
    ensures ParseStringBody(EscapeChar(c) + rest) == (match ParseStringBody(rest)
      case None => None
      case Some((t, r)) => Some(([c] + t, r)))
  {
    var e := EscapeChar(c);
    if ShortEscaped(c) {
      ShortEscapeParses(c, rest);
      BackslashStep(e, c, rest);
    } else if (c as int) < 0x20 {
      UnicodeEscapeParses(c, rest);
      BackslashStep(e, c, rest);
    } else {
      var s := e + rest;
      assert e == [c];
      assert s[1..] == rest;
    }
  }

  lemma {:induction false} StringBodyRoundTrip(x: string, rest: string)
    ensures ParseStringBody(EscapeString(x) + "\"" + rest) == Some((x, rest))
    decreases |x|
  {
    if x == [] {
      assert EscapeString(x) + "\"" + rest == ['"'] + rest;
      assert (['"'] + rest)[1..] == rest;
    } else {
      StringBodyRoundTrip(x[1..], rest);
      var tail := EscapeString(x[1..]) + "\"" + rest;
      assert EscapeString(x) + "\"" + rest == EscapeChar(x[0]) + tail;
      EscapeCharRoundTrip(x[0], tail);
      assert [x[0]] + x[1..] == x;
    }
  }

  /** A quoted item followed by `more` reads back as the item and `more`. */
  lemma QuotedItem(x: string, more: string)
    ensures Quote(x) + more != [] && (Quote(x) + more)[0] == '"'
    ensures ParseStringBody((Quote(x) + more)[1..]) == Some((x, more))
  {
    var s := Quote(x) + more;
    assert s[1..] == EscapeString(x) + "\"" + more;
    StringBodyRoundTrip(x, more);
  }

  /** One step of `ParseItems` past an item that a comma follows. */
  lemma ParseItemsStep(s: string, x: string, more: string)
    requires s != [] && s[0] == '"' && ParseStringBody(s[1..]) == Some((x, more))
    requires more != "]" && more != [] && more[0] == ','
    ensures ParseItems(s) == match ParseItems(more[1..]) case None => None case Some(xs) => Some([x] + xs)
  {
  }

  /** An item, a comma and a readable rest read back as the item before the
      rest's items. */
  lemma ItemsCons(x: string, rest: string, tail: seq<string>)
    requires ParseItems(rest) == Some(tail)
    ensures ParseItems(Quote(x) + [','] + rest) == Some([x] + tail)
  {
    var more := [','] + rest;
    var s := Quote(x) + more;
    QuotedItem(x, more);
    assert rest != [];
    assert more != "]" by {
      assert |more| >= 2;
    }
    assert more[1..] == rest;
    ParseItemsStep(s, x, more);
    assert Quote(x) + [','] + rest == s;
  }

  lemma ItemsSingle(x: string)
    ensures ParseItems(Quote(x) + "]") == Some([x])
  {
    QuotedItem(x, "]");
  }

  lemma {:induction false} ItemsRoundTrip(xs: seq<string>)
    requires xs != []
    ensures ParseItems(QuoteAll(xs) + "]") == Some(xs)
    decreases |xs|
  {
    if |xs| == 1 {
      ItemsSingle(xs[0]);
      assert xs == [xs[0]];
    } else {
      var rest := QuoteAll(xs[1..]) + "]";
      ItemsRoundTrip(xs[1..]);
      ItemsCons(xs[0], rest, xs[1..]);
      assert QuoteAll(xs) == Quote(xs[0]) + "," + QuoteAll(xs[1..]);
      assert QuoteAll(xs) + "]" == Quote(xs[0]) + [','] + rest;
      assert [xs[0]] + xs[1..] == xs;
    }
  }

  /** What `JSON.stringify` writes, `JSON.parse` reads back unchanged. */
  lemma ParseStringify(xs: seq<string>)
    ensures Parse(Stringify(xs)) == Some(xs)
  {
    if xs != [] {
      var t := Stringify(xs);
      assert t[1..] == QuoteAll(xs) + "]";
      assert t != "[]" by {
        assert t[1] == '"';
      }
      ItemsRoundTrip(xs);
    }
  }
}

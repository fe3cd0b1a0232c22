/** `JSON.stringify` and `JSON.parse` for the two values the session store
    persists: the bearer token (a JSON string literal) and the user profile (a JSON
    object with a fixed set of fields). Parsing returns `None` where `JSON.parse`
    throws. */
module Json {
  import opened Wrappers
  import opened Entities
  import Decimal
  import Text

  /** A lower-case hex digit, as `JSON.stringify` writes them. */
  function HexDigit(d: nat): (c: char)
    requires d < 16
  {
    if d < 10 then ('0' as int + d) as char else ('a' as int + d - 10) as char
  }

  function HexValue(c: char): (r: Option<nat>)
    ensures r.Some? ==> r.value < 16
  {
    if '0' <= c <= '9' then Some(c as int - '0' as int)
    else if 'a' <= c <= 'f' then Some(c as int - 'a' as int + 10)
    else if 'A' <= c <= 'F' then Some(c as int - 'A' as int + 10)
    else None
  }

  /** How `JSON.stringify` writes one character inside a string literal. */
  function EscapeChar(c: char): string {
    if c == '"' then "\\\""
    else if c == '\\' then "\\\\"
    else if c == '\n' then "\\n"
    else if c == '\r' then "\\r"
    else if c == '\t' then "\\t"
    else if c as int == 0x08 then "\\b"
    else if c as int == 0x0C then "\\f"
    else if c as int < 0x20 then "\\u00" + [HexDigit(c as int / 16), HexDigit(c as int % 16)]
    else [c]
  }

  function Escape(s: string): string {
    if s == [] then "" else EscapeChar(s[0]) + Escape(s[1..])
  }

  /** `JSON.stringify(s)` for a string `s`. */
  function Quote(s: string): string {
    "\"" + Escape(s) + "\""
  }

  /** Decodes the escape sequence that follows a backslash; returns the character
      and the text after the sequence. */
  function Unescape(s: string): (r: Option<(char, string)>)
    ensures r.Some? ==> |r.value.1| < |s|
  {
    if s == [] then None
    else if s[0] == '"' then Some(('"', s[1..]))
    else if s[0] == '\\' then Some(('\\', s[1..]))
    else if s[0] == '/' then Some(('/', s[1..]))
    else if s[0] == 'b' then Some((0x08 as char, s[1..]))
    else if s[0] == 'f' then Some((0x0C as char, s[1..]))
    else if s[0] == 'n' then Some(('\n', s[1..]))
    else if s[0] == 'r' then Some(('\r', s[1..]))
    else if s[0] == 't' then Some(('\t', s[1..]))
    else if s[0] == 'u' then UnescapeUnicode(s[1..])
    else None
  }

  /** The value of four hex digits, most significant first. */
  function HexNumber(a: nat, b: nat, c: nat, d: nat): (v: nat)
    requires a < 16 && b < 16 && c < 16 && d < 16
    ensures v < 0x10000
  {
    var hi := 16 * a + b;
    var lo := 16 * c + d;
    assert hi < 256 && lo < 256;
    256 * hi + lo
  }

  /** Decodes the four hex digits of a `\uXXXX` sequence. */
  function UnescapeUnicode(s: string): (r: Option<(char, string)>)
    ensures r.Some? ==> |r.value.1| < |s|
  {
    if |s| < 4 then None
    else
      match (HexValue(s[0]), HexValue(s[1]), HexValue(s[2]), HexValue(s[3]))
      case (Some(a), Some(b), Some(c), Some(d)) =>
        var v := HexNumber(a, b, c, d);
        // a lone surrogate half has no character of its own here
        if 0xD800 <= v < 0xE000 then None else Some((v as char, s[4..]))
      case _ => None
  }

  /** Reads the body of a string literal up to its closing quote; returns the
      decoded text and what follows the quote. */
  function ParseChars(s: string): Option<(string, string)>
    decreases |s|
  {
    if s == [] then None
    else if s[0] == '"' then Some(("", s[1..]))
    else if s[0] == '\\' then
      match Unescape(s[1..])
      case None => None
      case Some((c, rest)) =>
        match ParseChars(rest)
        case None => None
        case Some((v, after)) => Some(([c] + v, after))
    else if s[0] as int < 0x20 then None
    else
      match ParseChars(s[1..])
      case None => None
      case Some((v, after)) => Some(([s[0]] + v, after))
  }

  /** Reads a string literal from the front of `s`. */
  function ParseString(s: string): Option<(string, string)> {
    if s != [] && s[0] == '"' then ParseChars(s[1..]) else None
  }

  lemma UnescapeChar(c: char, rest: string)
    requires |EscapeChar(c)| > 1
    ensures EscapeChar(c)[0] == '\\'
    ensures Unescape(EscapeChar(c)[1..] + rest) == Some((c, rest))
  {
    var n := c as int;
    if c != '"' && c != '\\' && c != '\n' && c != '\r' && c != '\t' && n != 0x08 && n != 0x0C {
      assert n < 0x20;
      var hi, lo := HexDigit(n / 16), HexDigit(n % 16);
      assert EscapeChar(c) == "\\u00" + [hi, lo];
      UnescapeControl(c, rest);
      var t := EscapeChar(c)[1..] + rest;
      assert t == ['u'] + (['0', '0', hi, lo] + rest);
      assert t[1..] == ['0', '0', hi, lo] + rest;
    } else {
      assert EscapeChar(c)[1..] + rest == [EscapeChar(c)[1]] + rest;
    }
  }

  /** The four hex digits written for a control character read back as it. */
  lemma UnescapeControl(c: char, rest: string)
    requires c as int < 0x20
    ensures UnescapeUnicode(['0', '0', HexDigit(c as int / 16), HexDigit(c as int % 16)] + rest) == Some((c, rest))
  {
    var n := c as int;
    var t := ['0', '0', HexDigit(n / 16), HexDigit(n % 16)] + rest;
    assert HexValue(t[2]) == Some(n / 16);
    assert HexValue(t[3]) == Some(n % 16);
    assert t[4..] == rest;
  }

  lemma EscapeCharPlain(c: char)
    requires |EscapeChar(c)| <= 1
    ensures EscapeChar(c) == [c]
    ensures c != '"' && c != '\\' && c as int >= 0x20
  {
  }

  /** One step of the decoder over an escaped character followed by more text. */
  lemma ParseCharsStep(c: char, tail: string)
    ensures ParseChars(EscapeChar(c) + tail) ==
      match ParseChars(tail)
      case None => None
      case Some((v, after)) => Some(([c] + v, after))
  {
    var e := EscapeChar(c);
    if |e| > 1 {
      UnescapeChar(c, tail);
      assert (e + tail)[0] == '\\';
      assert (e + tail)[1..] == e[1..] + tail;
    } else {
      EscapeCharPlain(c);
      assert (e + tail)[0] == c;
      assert (e + tail)[1..] == tail;
    }
  }

  lemma {:induction false} ParseCharsRoundTrip(v: string, rest: string)
    ensures ParseChars(Escape(v) + "\"" + rest) == Some((v, rest))
  {
    if v == [] {
      assert Escape(v) + "\"" + rest == "\"" + rest;
    } else {
      var tail := Escape(v[1..]) + "\"" + rest;
      assert Escape(v) + "\"" + rest == EscapeChar(v[0]) + tail;
      ParseCharsRoundTrip(v[1..], rest);
      ParseCharsStep(v[0], tail);
      assert [v[0]] + v[1..] == v;
    }
  }

  /** Parsing the literal `JSON.stringify` writes for `v` gives back `v`. */
  lemma ParseStringRoundTrip(v: string, rest: string)
    ensures ParseString(Quote(v) + rest) == Some((v, rest))
  {
    ParseCharsRoundTrip(v, rest);
    var body := Escape(v) + "\"" + rest;
    assert Quote(v) + rest == ['"'] + body;
    assert (['"'] + body)[1..] == body;
  }

  /** `JSON.parse` of a stored token: `null` or a string literal, and nothing after. */
  function ParseToken(s: string): Option<Option<string>> {
    if s == "null" then Some(None)
    else
      match ParseString(s)
      case Some((v, rest)) => if rest == [] then Some(Some(v)) else None
      case None => None
  }

  lemma ParseTokenRoundTrip(t: string)
    ensures ParseToken(Quote(t)) == Some(Some(t))
  {
    ParseStringRoundTrip(t, []);
    assert Quote(t) + [] == Quote(t);
    assert Quote(t)[0] == '"';
  }

  /** The text after `lit`, if `s` starts with it. */
  function Expect(lit: string, s: string): Option<string> {
    if Text.StartsWith(s, lit) then Some(s[|lit|..]) else None
  }

  lemma ExpectLiteral(lit: string, rest: string)
    ensures Expect(lit, lit + rest) == Some(rest)
  {
    assert (lit + rest)[..|lit|] == lit;
    assert (lit + rest)[|lit|..] == rest;
  }

  function ParseBool(s: string): Option<(bool, string)> {
    if Text.StartsWith(s, "true") then Some((true, s[4..]))
    else if Text.StartsWith(s, "false") then Some((false, s[5..]))
    else None
  }

  function BoolText(b: bool): string {
    if b then "true" else "false"
  }

  lemma ParseBoolRoundTrip(b: bool, rest: string)
    ensures ParseBool(BoolText(b) + rest) == Some((b, rest))
  {
    var t := BoolText(b) + rest;
    assert t[..|BoolText(b)|] == BoolText(b);
    assert t[|BoolText(b)|..] == rest;
    if !b {
      assert t[0] == 'f';
      assert !Text.StartsWith(t, "true");
    }
  }

  /** `JSON.stringify(user)`, with the fields in a fixed order. */
  function StringifyUser(u: User): string {
    "{\"id\":" + (Decimal.IntToString(u.id)
    + (",\"username\":" + (Quote(u.username)
    + (",\"email\":" + (Quote(u.email)
    + (",\"blocked\":" + (BoolText(u.blocked) + "}")))))))
  }

  function ParseUserObject(s: string): Option<User> {
    var s1 :- Expect("{\"id\":", s);
    var id :- Decimal.ParseIntPrefix(s1);
    var s2 :- Expect(",\"username\":", id.1);
    var username :- ParseString(s2);
    var s3 :- Expect(",\"email\":", username.1);
    var email :- ParseString(s3);
    var s4 :- Expect(",\"blocked\":", email.1);
    var blocked :- ParseBool(s4);
    if blocked.1 == "}" then Some(User(id.0, username.0, email.0, blocked.0)) else None
  }

  /** `JSON.parse` of a stored user: `null` or a user object. */
  function ParseUser(s: string): Option<Option<User>> {
    if s == "null" then Some(None)
    else
      match ParseUserObject(s)
      case Some(u) => Some(Some(u))
      case None => None
  }

  /** Parsing what `JSON.stringify` wrote for a user gives back that user. */
  lemma ParseUserRoundTrip(u: User)
    ensures ParseUser(StringifyUser(u)) == Some(Some(u))
  {
    ParseUserObjectRoundTrip(u);
    var s := StringifyUser(u);
    assert s[0] == '{';
  }

  lemma ParseUserObjectRoundTrip(u: User)
    ensures ParseUserObject(StringifyUser(u)) == Some(u)
  {
    var tail4 := BoolText(u.blocked) + "}";
    var tail3 := Quote(u.email) + (",\"blocked\":" + tail4);
    var tail2 := Quote(u.username) + (",\"email\":" + tail3);
    var tail1 := Decimal.IntToString(u.id) + (",\"username\":" + tail2);
    var s := StringifyUser(u);
    assert s == "{\"id\":" + tail1;
    ExpectLiteral("{\"id\":", tail1);
    assert Expect("{\"id\":", s) == Some(tail1);
    Decimal.ParseIntRoundTrip(u.id, ",\"username\":" + tail2);
    ExpectLiteral(",\"username\":", tail2);
    ParseStringRoundTrip(u.username, ",\"email\":" + tail3);
    ExpectLiteral(",\"email\":", tail3);
    ParseStringRoundTrip(u.email, ",\"blocked\":" + tail4);
    ExpectLiteral(",\"blocked\":", tail4);
    ParseBoolRoundTrip(u.blocked, "}");
  }
}

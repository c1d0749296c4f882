/** The user profile the front end caches under the `'user'` key of
    `localStorage`, and its JSON text (`JSON.stringify` / `JSON.parse`). */
module UserJson {
  import opened Wrappers
  import opened Numerals

  /** The cached profile: id, display name, email and role. */
  datatype Profile = Profile(id: int, name: string, email: string, role: string)

  /** JSON string escaping of the two characters that must be escaped. */
  function Escape(s: string): string {
    if s == [] then []
    else (if s[0] == '"' || s[0] == '\\' then ['\\', s[0]] else [s[0]]) + Escape(s[1..])
  }

  /** `JSON.stringify(p)`: `{"id":…,"name":"…","email":"…","role":"…"}`. */
  function Stringify(p: Profile): string {
    "{\"id\":" + IntToString(p.id) + (",\"name\":\"" + NameTail(p))
  }

  function NameTail(p: Profile): string {
    Escape(p.name) + "\"" + (",\"email\":\"" + EmailTail(p))
  }

  function EmailTail(p: Profile): string {
    Escape(p.email) + "\"" + (",\"role\":\"" + RoleTail(p))
  }

  function RoleTail(p: Profile): string {
    Escape(p.role) + "\"" + "}"
  }

  /** Consumes the literal `prefix`. */
  function Expect(prefix: string, s: string): (r: Option<string>)
    ensures r.Some? ==> s == prefix + r.value
  {
    if |prefix| <= |s| && s[..|prefix|] == prefix then Some(s[|prefix|..]) else None
  }

  /** Reads the body of a JSON string up to its closing quote; returns the
      unescaped text and what follows the closing quote. */
  function ParseStringBody(s: string): Option<(string, string)>
    decreases |s|
  {
    if s == [] then None
    else if s[0] == '"' then Some(([], s[1..]))
    else if s[0] == '\\' then
      if |s| >= 2 && (s[1] == '"' || s[1] == '\\') then
        match ParseStringBody(s[2..])
        case None => None
        case Some(p) => Some(([s[1]] + p.0, p.1))
      else None
    else
      match ParseStringBody(s[1..])
      case None => None
      case Some(p) => Some(([s[0]] + p.0, p.1))
  }

  /** Length of the longest prefix of decimal digits. */
  function DigitRun(s: string): (n: nat)
    ensures n <= |s| && AllDigits(s[..n])
    ensures n < |s| ==> !IsDigit(s[n])
  {
    if s != [] && IsDigit(s[0]) then
      var n := 1 + DigitRun(s[1..]);
      assert s[..n] == [s[0]] + s[1..][..n - 1];
      n
    else 0
  }

  /** Reads a JSON integer (optional minus, then digits) and returns what follows. */
  function ParseNumber(s: string): Option<(int, string)> {
    var start := if s != [] && s[0] == '-' then 1 else 0;
    var n := DigitRun(s[start..]);
    match ParseInt(s[..start + n])
    case None => None
    case Some(v) => Some((v, s[start + n..]))
  }

  /** `JSON.parse(text)` for the texts of profiles in `JSON.stringify`'s
      layout; None for every other text. */
  function Parse(text: string): Option<Profile> {
    var r0 :- Expect("{\"id\":", text);
    var id :- ParseNumber(r0);
    var r1 :- Expect(",\"name\":\"", id.1);
    var fields :- ParseName(r1);
    Some(Profile(id.0, fields.0, fields.1, fields.2))
  }

  /** The whitespace JSON allows around a value. */
  predicate IsJsonSpace(c: char) {
    c == ' ' || c == '\t' || c == '\n' || c == '\r'
  }

  /** `text` without the JSON whitespace at either end. */
  function TrimJsonSpace(text: string): (r: string)
    ensures |r| <= |text|
    decreases |text|
  {
    if text != [] && IsJsonSpace(text[0]) then TrimJsonSpace(text[1..])
    else if text != [] && IsJsonSpace(text[|text| - 1]) then TrimJsonSpace(text[..|text| - 1])
    else text
  }

  /** The texts `JSON.parse` reads as `null`. */
  predicate IsNullText(text: string) {
    TrimJsonSpace(text) == "null"
  }

  /** Trimming a text that opens with a brace leaves it opening with one. */
  lemma {:induction false} TrimKeepsBrace(text: string)
    requires text != [] && text[0] == '{'
    ensures TrimJsonSpace(text) != [] && TrimJsonSpace(text)[0] == '{'
    decreases |text|
  {
    if IsJsonSpace(text[|text| - 1]) {
      TrimKeepsBrace(text[..|text| - 1]);
    }
  }

  /** A text that reads as a profile does not read as `null`. */
  lemma ParsedNotNull(text: string)
    ensures Parse(text).Some? ==> !IsNullText(text)
  {
    if Parse(text).Some? {
      var rest := Expect("{\"id\":", text).value;
      assert text == "{\"id\":" + rest;
      TrimKeepsBrace(text);
    }
  }

  /** From the body of the name string to the end: name, email and role. */
  function ParseName(s: string): Option<(string, string, string)> {
    var name :- ParseStringBody(s);
    var r :- Expect(",\"email\":\"", name.1);
    var rest :- ParseEmail(r);
    Some((name.0, rest.0, rest.1))
  }

  /** From the body of the email string to the end: email and role. */
  function ParseEmail(s: string): Option<(string, string)> {
    var email :- ParseStringBody(s);
    var r :- Expect(",\"role\":\"", email.1);
    var role :- ParseRole(r);
    Some((email.0, role))
  }

  /** From the body of the role string to the closing brace, which must end the text. */
  function ParseRole(s: string): Option<string> {
    var role :- ParseStringBody(s);
    if role.1 == "}" then Some(role.0) else None
  }

  lemma ExpectPrefix(prefix: string, rest: string)
    ensures Expect(prefix, prefix + rest) == Some(rest)
  {
    assert (prefix + rest)[..|prefix|] == prefix;
  }

  /** An escaped string followed by a closing quote reads back as the string. */
  lemma {:induction false} EscapeRoundTrip(x: string, rest: string)
    ensures ParseStringBody(Escape(x) + "\"" + rest) == Some((x, rest))
  {
    if x == [] {
      assert Escape(x) + "\"" + rest == "\"" + rest;
    } else {
      EscapeRoundTrip(x[1..], rest);
      var tail := Escape(x[1..]) + "\"" + rest;
      var head := if x[0] == '"' || x[0] == '\\' then ['\\', x[0]] else [x[0]];
      assert Escape(x) == head + Escape(x[1..]);
      assert Escape(x) + "\"" + rest == head + tail;
      EscapedHead(x[0], head, tail, x[1..], rest);
      assert [x[0]] + x[1..] == x;
    }
  }

  /** One escaped character in front of a string body that reads as `(y, rest)`. */
  lemma EscapedHead(c: char, head: string, tail: string, y: string, rest: string)
    requires head == if c == '"' || c == '\\' then ['\\', c] else [c]
    requires ParseStringBody(tail) == Some((y, rest))
    ensures ParseStringBody(head + tail) == Some(([c] + y, rest))
  {
    if c == '"' || c == '\\' {
      assert (head + tail)[0] == '\\' && (head + tail)[1] == c && (head + tail)[2..] == tail;
    } else {
      assert (head + tail)[0] == c && (head + tail)[1..] == tail;
    }
  }

  lemma DigitRunAll(d: string, rest: string)
    requires AllDigits(d)
    requires rest == [] || !IsDigit(rest[0])
    ensures DigitRun(d + rest) == |d|
    decreases |d|
  {
    if d != [] {
      assert (d + rest)[1..] == d[1..] + rest;
      DigitRunAll(d[1..], rest);
    }
  }

  /** The text of an integer followed by a non-digit reads back as the integer. */
  lemma NumberRoundTrip(n: int, rest: string)
    requires rest == [] || !IsDigit(rest[0])
    ensures ParseNumber(IntToString(n) + rest) == Some((n, rest))
  {
    var s := IntToString(n) + rest;
    IntToStringRoundTrip(n);
    if n < 0 {
      var d := NatToString(-n);
      assert s == "-" + (d + rest);
      assert s[1..] == d + rest;
      DigitRunAll(d, rest);
      assert s[..1 + |d|] == IntToString(n);
      assert s[1 + |d|..] == rest;
    } else {
      var d := NatToString(n);
      assert s[0] == d[0];
      DigitRunAll(d, rest);
      assert s[..|d|] == IntToString(n);
      assert s[|d|..] == rest;
    }
  }

  lemma RoleTailRoundTrip(p: Profile)
    ensures ParseRole(RoleTail(p)) == Some(p.role)
  {
    EscapeRoundTrip(p.role, "}");
  }

  lemma EmailTailRoundTrip(p: Profile)
    ensures ParseEmail(EmailTail(p)) == Some((p.email, p.role))
  {
    EscapeRoundTrip(p.email, ",\"role\":\"" + RoleTail(p));
    ExpectPrefix(",\"role\":\"", RoleTail(p));
    RoleTailRoundTrip(p);
  }

  lemma NameTailRoundTrip(p: Profile)
    ensures ParseName(NameTail(p)) == Some((p.name, p.email, p.role))
  {
    EscapeRoundTrip(p.name, ",\"email\":\"" + EmailTail(p));
    ExpectPrefix(",\"email\":\"", EmailTail(p));
    EmailTailRoundTrip(p);
  }

  /** Reading back the JSON text of a profile gives the profile:
      `JSON.parse(JSON.stringify(p))` is `p`. */
  lemma ProfileRoundTrip(p: Profile)
    ensures Parse(Stringify(p)) == Some(p)
  {
    var tId := IntToString(p.id) + (",\"name\":\"" + NameTail(p));
    assert Stringify(p) == "{\"id\":" + tId;
    ExpectPrefix("{\"id\":", tId);
    NumberRoundTrip(p.id, ",\"name\":\"" + NameTail(p));
    ExpectPrefix(",\"name\":\"", NameTail(p));
    NameTailRoundTrip(p);
  }

  /** Different profiles are stored as different texts. */
  lemma StringifyInjective(p: Profile, q: Profile)
    requires Stringify(p) == Stringify(q)
    ensures p == q
  {
    ProfileRoundTrip(p);
    ProfileRoundTrip(q);
  }
}

/** Character-level string helpers: ASCII case folding (the model of
    `toLowerCase`/`toUpperCase` and SQL `ilike`), substring search (the model of
    `String.prototype.includes` and of `LIKE '%term%'`), and `String.prototype.trim`. */
module Text {

  function LowerChar(c: char): char {
    if 'A' <= c <= 'Z' then (c as int + 32) as char else c
  }

  function UpperChar(c: char): char {
    if 'a' <= c <= 'z' then (c as int - 32) as char else c
  }

  /** `s.toLowerCase()`, restricted to ASCII letters. */
  function Lower(s: string): (r: string)
    ensures |r| == |s|
    ensures forall i :: 0 <= i < |s| ==> r[i] == LowerChar(s[i])
  {
    if s == [] then [] else [LowerChar(s[0])] + Lower(s[1..])
  }

  /** `s.toUpperCase()`, restricted to ASCII letters. */
  function Upper(s: string): (r: string)
    ensures |r| == |s|
    ensures forall i :: 0 <= i < |s| ==> r[i] == UpperChar(s[i])
  {
    if s == [] then [] else [UpperChar(s[0])] + Upper(s[1..])
  }

  predicate IsPrefix(t: string, s: string) {
    |t| <= |s| && s[..|t|] == t
  }

  /** `s.includes(t)`: `t` occurs in `s` at some position. */
  predicate Contains(s: string, t: string)
    decreases |s|
  {
    IsPrefix(t, s) || (|s| > 0 && Contains(s[1..], t))
  }

  /** `s.toLowerCase().includes(t.toLowerCase())`; also SQL `s ILIKE '%t%'`
      when `t` has no `LIKE` wildcard or escape. */
  predicate ContainsIgnoreCase(s: string, t: string) {
    Contains(Lower(s), Lower(t))
  }

  /** Every string contains the empty string. */
  lemma ContainsEmpty(s: string)
    ensures Contains(s, "")
  {
  }

  /** Every string contains itself, ignoring case. */
  lemma ContainsIgnoreCaseSelf(s: string)
    ensures ContainsIgnoreCase(s, s)
  {
    assert IsPrefix(Lower(s), Lower(s));
  }

  /** `t` occurs in `s` starting at index `i`. */
  predicate OccursAt(s: string, t: string, i: int) {
    0 <= i && i + |t| <= |s| && s[i..i + |t|] == t
  }

  /** `Contains` agrees with the direct definition "occurs at some index". */
  lemma {:induction false} ContainsAt(s: string, t: string)
    ensures Contains(s, t) <==> exists i :: OccursAt(s, t, i)
    decreases |s|
  {
    if Contains(s, t) {
      if IsPrefix(t, s) {
        assert OccursAt(s, t, 0);
      } else {
        ContainsAt(s[1..], t);
        var i :| OccursAt(s[1..], t, i);
        assert s[i + 1..i + 1 + |t|] == s[1..][i..i + |t|];
        assert OccursAt(s, t, i + 1);
      }
    }
    if exists i :: OccursAt(s, t, i) {
      var i :| OccursAt(s, t, i);
      if i == 0 {
        assert IsPrefix(t, s);
      } else {
        assert s[1..][i - 1..i - 1 + |t|] == s[i..i + |t|];
        assert OccursAt(s[1..], t, i - 1);
        ContainsAt(s[1..], t);
      }
    }
  }

  /** Whether `s` matches the SQL `LIKE` pattern `pat` as PostgreSQL reads it:
      `%` matches any run of characters, `_` any single character, and a
      backslash makes the character after it literal. (A lone backslash at
      the end, which PostgreSQL refuses, never ends the `'%term%'` patterns
      built from search terms; here it matches itself.) */
  predicate LikeMatch(s: string, pat: string)
    decreases |pat|, |s|
  {
    if pat == [] then s == []
    else if pat[0] == '%' then LikeMatch(s, pat[1..]) || (s != [] && LikeMatch(s[1..], pat))
    else if pat[0] == '_' then s != [] && LikeMatch(s[1..], pat[1..])
    else if pat[0] == '\\' && |pat| >= 2 then s != [] && s[0] == pat[1] && LikeMatch(s[1..], pat[2..])
    else s != [] && s[0] == pat[0] && LikeMatch(s[1..], pat[1..])
  }

  /** The characters `LIKE` gives a meaning of their own. */
  predicate IsLikeSpecial(c: char) {
    c == '%' || c == '_' || c == '\\'
  }

  predicate NoLikeSpecials(t: string) {
    forall i :: 0 <= i < |t| ==> !IsLikeSpecial(t[i])
  }

  /** `%` alone matches every string. */
  lemma {:induction false} LikeAnything(s: string)
    ensures LikeMatch(s, "%")
    decreases |s|
  {
    if s != [] {
      LikeAnything(s[1..]);
    }
  }

  /** A term free of `%`, `_` and backslash, followed by `%`, matches exactly
      the strings it begins. */
  lemma {:induction false} LikeLiteralPrefix(s: string, t: string)
    requires NoLikeSpecials(t)
    ensures LikeMatch(s, t + "%") <==> IsPrefix(t, s)
    decreases |t|
  {
    if t == [] {
      assert t + "%" == "%";
      LikeAnything(s);
    } else {
      assert (t + "%")[0] == t[0] && (t + "%")[1..] == t[1..] + "%";
      LikeLiteralPrefix(if s == [] then s else s[1..], t[1..]);
      if s != [] && s[0] == t[0] {
        assert IsPrefix(t, s) <==> IsPrefix(t[1..], s[1..]);
      }
    }
  }

  /** `LIKE '%t%'` on a term free of `%`, `_` and backslash is substring
      search. */
  lemma {:induction false} LikeContains(s: string, t: string)
    requires NoLikeSpecials(t)
    ensures LikeMatch(s, "%" + t + "%") <==> Contains(s, t)
    decreases |s|
  {
    var pat := "%" + t + "%";
    assert pat[0] == '%' && pat[1..] == t + "%";
    LikeLiteralPrefix(s, t);
    if s != [] {
      LikeContains(s[1..], t);
    }
  }

  /** JavaScript's `s.length`: the number of UTF-16 code units, two for each
      character beyond U+FFFF. */
  function Utf16Length(s: string): (n: nat)
    ensures |s| <= n <= 2 * |s|
  {
    if s == [] then 0 else (if s[0] as int > 0xFFFF then 2 else 1) + Utf16Length(s[1..])
  }

  /** On text within the Basic Multilingual Plane, `length` counts characters. */
  lemma {:induction false} Utf16LengthBmp(s: string)
    requires forall i :: 0 <= i < |s| ==> s[i] as int <= 0xFFFF
    ensures Utf16Length(s) == |s|
  {
    if s != [] {
      Utf16LengthBmp(s[1..]);
    }
  }

  /** The characters `String.prototype.trim` removes: ECMAScript WhiteSpace
      and LineTerminator code points. */
  predicate IsJsWhitespace(c: char) {
    c == '\t' || c == '\n' || c == '\U{B}' || c == '\U{C}' || c == '\r' || c == ' '
    || c == '\U{A0}' || c == '\U{1680}' || ('\U{2000}' <= c <= '\U{200A}')
    || c == '\U{2028}' || c == '\U{2029}' || c == '\U{202F}' || c == '\U{205F}'
    || c == '\U{3000}' || c == '\U{FEFF}'
  }

  predicate AllWhitespace(s: string) {
    forall i :: 0 <= i < |s| ==> IsJsWhitespace(s[i])
  }

  function TrimStart(s: string): (r: string)
    ensures |r| <= |s|
    decreases |s|
  {
    if s != [] && IsJsWhitespace(s[0]) then TrimStart(s[1..]) else s
  }

  function TrimEnd(s: string): (r: string)
    ensures |r| <= |s|
    decreases |s|
  {
    if s != [] && IsJsWhitespace(s[|s| - 1]) then TrimEnd(s[..|s| - 1]) else s
  }

  /** `s.trim()`. */
  function Trim(s: string): string {
    TrimEnd(TrimStart(s))
  }

  lemma {:induction false} TrimStartEmpty(s: string)
    ensures TrimStart(s) == [] <==> AllWhitespace(s)
    decreases |s|
  {
    if s != [] && IsJsWhitespace(s[0]) {
      TrimStartEmpty(s[1..]);
      assert AllWhitespace(s) <==> AllWhitespace(s[1..]) by {
        if AllWhitespace(s[1..]) {
          forall i | 0 <= i < |s| ensures IsJsWhitespace(s[i]) {
            if i > 0 { assert s[i] == s[1..][i - 1]; }
          }
        }
      }
    }
  }

  /** The result of `TrimStart` is empty or starts with a non-whitespace character. */
  lemma {:induction false} TrimStartHead(s: string)
    ensures TrimStart(s) == [] || !IsJsWhitespace(TrimStart(s)[0])
    decreases |s|
  {
    if s != [] && IsJsWhitespace(s[0]) {
      TrimStartHead(s[1..]);
    }
  }

  /** `s.trim()` is empty exactly when every character of `s` is whitespace. */
  lemma TrimEmpty(s: string)
    ensures Trim(s) == [] <==> AllWhitespace(s)
  {
    TrimStartEmpty(s);
    TrimStartHead(s);
    TrimEndKeepsNonWhitespaceHead(TrimStart(s));
  }

  lemma {:induction false} TrimEndKeepsNonWhitespaceHead(s: string)
    requires s == [] || !IsJsWhitespace(s[0])
    ensures TrimEnd(s) == [] <==> s == []
    decreases |s|
  {
    if s != [] && IsJsWhitespace(s[|s| - 1]) {
      assert |s| > 1;
      TrimEndKeepsNonWhitespaceHead(s[..|s| - 1]);
    }
  }

  /** `s.split(c)[0]`: the text before the first `c`, or all of `s`. */
  function UpTo(s: string, c: char): (r: string)
    ensures c !in r && IsPrefix(r, s)
    ensures |r| < |s| ==> s[|r|] == c
  {
    if s == [] || s[0] == c then [] else [s[0]] + UpTo(s[1..], c)
  }

  /** A segment free of `c` followed by `c` is cut back to the segment. */
  lemma {:induction false} UpToOfSegment(seg: string, c: char, rest: string)
    requires c !in seg && rest != [] && rest[0] == c
    ensures UpTo(seg + rest, c) == seg
  {
    if seg != [] {
      assert (seg + rest)[1..] == seg[1..] + rest;
      UpToOfSegment(seg[1..], c, rest);
    } else {
      assert seg + rest == rest;
    }
  }

  /** Without any `c`, the whole text is kept. */
  lemma {:induction false} UpToAbsent(s: string, c: char)
    requires c !in s
    ensures UpTo(s, c) == s
  {
    if s != [] {
      UpToAbsent(s[1..], c);
    }
  }
}

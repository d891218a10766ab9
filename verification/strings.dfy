/**
  The string primitives of JavaScript that the modelled code relies on:
  `toLowerCase`/`toUpperCase` (ASCII letters), `trim` and the `\s` class,
  `split` on one character, `join`, `includes`, `startsWith`, `endsWith`,
  `String(n)` for integers, and `length` in UTF-16 code units.
 */
module Strings {
  import opened Wrappers

  /** The characters JavaScript's `trim` removes and its regular-expression `\s` matches. */
  predicate IsWhitespace(c: char) {
    c == ' ' || c == '\t' || c == '\n' || c == '\r' || c == '\U{000B}' || c == '\U{000C}'
    || c == '\U{00A0}' || c == '\U{1680}' || ('\U{2000}' <= c <= '\U{200A}')
    || c == '\U{2028}' || c == '\U{2029}' || c == '\U{202F}' || c == '\U{205F}'
    || c == '\U{3000}' || c == '\U{FEFF}'
  }

  /** `\w`: ASCII letters, digits and underscore. */
  predicate IsWordChar(c: char) {
    ('a' <= c <= 'z') || ('A' <= c <= 'Z') || ('0' <= c <= '9') || c == '_'
  }

  predicate IsHexDigit(c: char) {
    ('0' <= c <= '9') || ('a' <= c <= 'f') || ('A' <= c <= 'F')
  }

  function LowerChar(c: char): char {
    if 'A' <= c <= 'Z' then (c as int + 32) as char else c
  }

  function UpperChar(c: char): char {
    if 'a' <= c <= 'z' then (c as int - 32) as char else c
  }

  function Lower(s: string): string {
    seq(|s|, i requires 0 <= i < |s| => LowerChar(s[i]))
  }

  function Upper(s: string): string {
    seq(|s|, i requires 0 <= i < |s| => UpperChar(s[i]))
  }

  /** Upper-casing forgets the original case: the basis of every case-insensitive lookup. */
  lemma UpperOfLower(s: string)
    ensures Upper(Lower(s)) == Upper(s)
  {
    forall i | 0 <= i < |s| ensures Upper(Lower(s))[i] == Upper(s)[i] {
    }
  }

  lemma LowerOfUpper(s: string)
    ensures Lower(Upper(s)) == Lower(s)
  {
    forall i | 0 <= i < |s| ensures Lower(Upper(s))[i] == Lower(s)[i] {
    }
  }

  lemma UpperIdempotent(s: string)
    ensures Upper(Upper(s)) == Upper(s)
  {
  }

  lemma LowerIdempotent(s: string)
    ensures Lower(Lower(s)) == Lower(s)
  {
  }

  lemma LowerConcat(a: string, b: string)
    ensures Lower(a + b) == Lower(a) + Lower(b)
  {
  }

  lemma UpperConcat(a: string, b: string)
    ensures Upper(a + b) == Upper(a) + Upper(b)
  {
  }

  /** Drops the leading whitespace. */
  function TrimStart(s: string): string {
    if |s| > 0 && IsWhitespace(s[0]) then TrimStart(s[1..]) else s
  }

  /** What `TrimStart` leaves is a suffix of the text that does not start with whitespace. */
  lemma {:induction false} TrimStartShape(s: string)
    ensures |TrimStart(s)| <= |s| && TrimStart(s) == s[|s| - |TrimStart(s)|..]
    ensures TrimStart(s) == [] || !IsWhitespace(TrimStart(s)[0])
  {
    if |s| > 0 && IsWhitespace(s[0]) {
      TrimStartShape(s[1..]);
    }
  }

  /** Drops the trailing whitespace. */
  function TrimEnd(s: string): string {
    if |s| > 0 && IsWhitespace(s[|s| - 1]) then TrimEnd(s[..|s| - 1]) else s
  }

  /** What `TrimEnd` leaves is a prefix of the text that does not end with whitespace. */
  lemma {:induction false} TrimEndShape(s: string)
    ensures |TrimEnd(s)| <= |s| && TrimEnd(s) == s[..|TrimEnd(s)|]
    ensures TrimEnd(s) == [] || !IsWhitespace(TrimEnd(s)[|TrimEnd(s)| - 1])
  {
    if |s| > 0 && IsWhitespace(s[|s| - 1]) {
      TrimEndShape(s[..|s| - 1]);
    }
  }

  /** `String.prototype.trim`. */
  function Trim(s: string): string {
    TrimStart(TrimEnd(s))
  }

  /** What `trim` leaves is no longer than the text and neither starts nor ends with whitespace. */
  lemma TrimShape(s: string)
    ensures |Trim(s)| <= |s|
    ensures Trim(s) == [] || (!IsWhitespace(Trim(s)[0]) && !IsWhitespace(Trim(s)[|Trim(s)| - 1]))
  {
    TrimEndShape(s);
    TrimStartShape(TrimEnd(s));
    var e := TrimEnd(s);
    var t := TrimStart(e);
    if t != [] {
      assert t == e[|e| - |t|..];
      assert t[|t| - 1] == e[|e| - 1];
    }
  }

  /** Lower-casing never turns a letter into whitespace or whitespace into anything else. */
  lemma LowerCharWhitespace(c: char)
    ensures IsWhitespace(LowerChar(c)) == IsWhitespace(c)
  {
  }

  lemma {:induction false} LowerTrimStart(s: string)
    ensures Lower(TrimStart(s)) == TrimStart(Lower(s))
    decreases |s|
  {
    if |s| > 0 {
      LowerCharWhitespace(s[0]);
      if IsWhitespace(s[0]) {
        assert Lower(s)[1..] == Lower(s[1..]);
        LowerTrimStart(s[1..]);
      }
    }
  }

  lemma {:induction false} LowerTrimEnd(s: string)
    ensures Lower(TrimEnd(s)) == TrimEnd(Lower(s))
    decreases |s|
  {
    if |s| > 0 {
      LowerCharWhitespace(s[|s| - 1]);
      if IsWhitespace(s[|s| - 1]) {
        assert Lower(s)[..|s| - 1] == Lower(s[..|s| - 1]);
        LowerTrimEnd(s[..|s| - 1]);
      }
    }
  }

  /** Trimming and lower-casing can be done in either order. */
  lemma LowerTrim(s: string)
    ensures Lower(Trim(s)) == Trim(Lower(s))
  {
    LowerTrimEnd(s);
    LowerTrimStart(TrimEnd(s));
  }

  /** A string made of whitespace only trims to the empty string, and only such a string does. */
  lemma {:induction false} TrimEmptyIffBlank(s: string)
    ensures Trim(s) == [] <==> forall i :: 0 <= i < |s| ==> IsWhitespace(s[i])
  {
    TrimEndBlank(s);
    TrimEndShape(s);
    var e := TrimEnd(s);
    TrimStartBlank(e);
    if Trim(s) == [] {
      assert e == [];
    }
  }

  lemma {:induction false} TrimEndBlank(s: string)
    ensures forall i :: |TrimEnd(s)| <= i < |s| ==> IsWhitespace(s[i])
    decreases |s|
  {
    if |s| > 0 && IsWhitespace(s[|s| - 1]) {
      TrimEndBlank(s[..|s| - 1]);
    }
  }

  lemma {:induction false} TrimStartBlank(s: string)
    ensures TrimStart(s) == [] <==> forall i :: 0 <= i < |s| ==> IsWhitespace(s[i])
    decreases |s|
  {
    if |s| > 0 && IsWhitespace(s[0]) {
      TrimStartBlank(s[1..]);
      if TrimStart(s) == [] {
        forall i | 0 <= i < |s| ensures IsWhitespace(s[i]) {
          if i > 0 { assert s[i] == s[1..][i - 1]; }
        }
      }
    }
  }

  /** Trimming the end twice is trimming it once. */
  lemma TrimEndIdempotent(s: string)
    ensures TrimEnd(TrimEnd(s)) == TrimEnd(s)
  {
  }

  /** Trimming the start twice is trimming it once. */
  lemma TrimStartIdempotent(s: string)
    ensures TrimStart(TrimStart(s)) == TrimStart(s)
  {
  }

  /** Trimming the end of a text that starts with a non-blank keeps that first character. */
  lemma {:induction false} TrimEndKeepsFirst(s: string)
    requires s != [] && !IsWhitespace(s[0])
    ensures TrimEnd(s) != [] && TrimEnd(s)[0] == s[0]
    decreases |s|
  {
    if |s| > 1 && IsWhitespace(s[|s| - 1]) {
      TrimEndKeepsFirst(s[..|s| - 1]);
    }
  }

  /** Trimming the start of a text that ends with a non-blank keeps that last character. */
  lemma {:induction false} TrimStartKeepsLast(s: string)
    requires s != [] && !IsWhitespace(s[|s| - 1])
    ensures TrimStart(s) != [] && TrimStart(s)[|TrimStart(s)| - 1] == s[|s| - 1]
    decreases |s|
  {
    if |s| > 1 && IsWhitespace(s[0]) {
      TrimStartKeepsLast(s[1..]);
    }
  }

  /** How trimming the end treats the first character: it goes only when everything after it goes too. */
  lemma {:induction false} TrimEndFront(s: string)
    requires s != []
    ensures (TrimEnd(s) == [] && TrimEnd(s[1..]) == [] && IsWhitespace(s[0]))
      || TrimEnd(s) == [s[0]] + TrimEnd(s[1..])
    decreases |s|
  {
    if |s| > 1 && IsWhitespace(s[|s| - 1]) {
      var p := s[..|s| - 1];
      TrimEndFront(p);
      assert p[1..] == s[1..][..|s[1..]| - 1];
    } else if |s| > 1 {
      assert TrimEnd(s[1..]) == s[1..];
    }
  }

  /** Trimming the start first changes nothing about what a full trim gives. */
  lemma {:induction false} TrimOfTrimStart(s: string)
    ensures Trim(TrimStart(s)) == Trim(s)
    decreases |s|
  {
    if s != [] && IsWhitespace(s[0]) {
      TrimOfTrimStart(s[1..]);
      TrimEndFront(s);
    }
  }

  /** Trimming the end first changes nothing about what a full trim gives. */
  lemma TrimOfTrimEnd(s: string)
    ensures Trim(TrimEnd(s)) == Trim(s)
  {
    TrimEndIdempotent(s);
  }

  /** `trim` is idempotent. */
  lemma TrimIdempotent(s: string)
    ensures Trim(Trim(s)) == Trim(s)
  {
    var e := TrimEnd(s);
    var t := TrimStart(e);
    TrimEndShape(s);
    if t != [] {
      TrimStartKeepsLast(e);
      assert TrimEnd(t) == t;
    }
    TrimStartIdempotent(e);
  }

  /** A text with non-blank ends is its own trim. */
  lemma TrimPlain(s: string)
    requires s != [] && !IsWhitespace(s[0]) && !IsWhitespace(s[|s| - 1])
    ensures Trim(s) == s
  {
  }

  /** Trimming never introduces a character. */
  lemma TrimSubstring(s: string, c: char)
    requires c !in s
    ensures c !in Trim(s)
  {
    var e := TrimEnd(s);
    TrimEndShape(s);
    TrimStartShape(e);
    assert c !in e by {
      forall i | 0 <= i < |e| ensures e[i] != c {
        assert e[i] == s[i];
      }
    }
    var t := TrimStart(e);
    forall i | 0 <= i < |t| ensures t[i] != c {
      assert t[i] == e[|e| - |t| + i];
    }
  }

  /** `String.prototype.split` with a one-character separator. */
  function Split(s: string, sep: char): (r: seq<string>)
    ensures |r| >= 1
    ensures forall k :: 0 <= k < |r| ==> sep !in r[k]
  {
    if s == [] then [""]
    else
      var rest := Split(s[1..], sep);
      if s[0] == sep then [""] + rest
      else [[s[0]] + rest[0]] + rest[1..]
  }

  /** `Array.prototype.join`. */
  function Join(parts: seq<string>, sep: string): string {
    if |parts| == 0 then ""
    else if |parts| == 1 then parts[0]
    else parts[0] + sep + Join(parts[1..], sep)
  }

  /** Splitting on a character and joining with it again gives back the original text. */
  lemma {:induction false} SplitJoin(s: string, sep: char)
    ensures Join(Split(s, sep), [sep]) == s
  {
    if s != [] {
      var rest := Split(s[1..], sep);
      SplitJoin(s[1..], sep);
      if s[0] == sep {
        assert Split(s, sep) == [""] + rest;
      } else {
        var r := Split(s, sep);
        assert r == [[s[0]] + rest[0]] + rest[1..];
        if |rest| == 1 {
          assert Join(r, [sep]) == [s[0]] + rest[0];
        } else {
          assert rest == [rest[0]] + rest[1..];
          assert Join(rest, [sep]) == rest[0] + [sep] + Join(rest[1..], [sep]);
          assert Join(r, [sep]) == [s[0]] + rest[0] + [sep] + Join(rest[1..], [sep]);
        }
      }
    }
  }

  /** Joining separator-free pieces and splitting again gives back the pieces. */
  lemma {:induction false} SplitOfJoin(parts: seq<string>, sep: char)
    requires |parts| >= 1
    requires forall k :: 0 <= k < |parts| ==> sep !in parts[k]
    ensures Split(Join(parts, [sep]), sep) == parts
  {
    if |parts| == 1 {
      SplitNoSeparator(parts[0], sep);
    } else {
      SplitOfJoin(parts[1..], sep);
      SplitAppend(parts[0], sep, Join(parts[1..], [sep]));
    }
  }

  /** A text without the separator splits into itself alone. */
  lemma {:induction false} SplitNoSeparator(s: string, sep: char)
    requires sep !in s
    ensures Split(s, sep) == [s]
  {
    if s != [] {
      SplitNoSeparator(s[1..], sep);
      assert [s[0]] + s[1..] == s;
    }
  }

  /** Splitting `a + [sep] + b` puts the pieces of `a` before the pieces of `b`, sharing no piece. */
  lemma {:induction false} SplitAppend(a: string, sep: char, b: string)
    requires sep !in a
    ensures Split(a + [sep] + b, sep) == [a] + Split(b, sep)
  {
    if a == [] {
      assert a + [sep] + b == [sep] + b;
      assert ([sep] + b)[1..] == b;
    } else {
      assert (a + [sep] + b)[1..] == a[1..] + [sep] + b;
      SplitAppend(a[1..], sep, b);
      assert [a[0]] + a[1..] == a;
    }
  }

  /** A separator between two texts separates their pieces: splitting the whole joins the two splits. */
  lemma {:induction false} SplitSeparated(a: string, sep: char, b: string)
    ensures Split(a + [sep] + b, sep) == Split(a, sep) + Split(b, sep)
  {
    hide Split;
    var w := a + [sep] + b;
    SplitCons(w, sep);
    if a == [] {
      assert w[0] == sep && w[1..] == b;
      SplitEmpty(sep);
    } else {
      assert w[0] == a[0] && w[1..] == a[1..] + [sep] + b;
      SplitCons(a, sep);
      SplitSeparated(a[1..], sep, b);
      var ra, rb := Split(a[1..], sep), Split(b, sep);
      if a[0] != sep {
        assert (ra + rb)[0] == ra[0];
        assert (ra + rb)[1..] == ra[1..] + rb;
      }
    }
  }

  /** One step of `Split`: the first character either starts a new piece or joins the first piece of the rest. */
  lemma SplitCons(s: string, sep: char)
    requires s != []
    ensures Split(s, sep) == if s[0] == sep then [""] + Split(s[1..], sep)
      else [[s[0]] + Split(s[1..], sep)[0]] + Split(s[1..], sep)[1..]
  {
  }

  lemma SplitEmpty(sep: char)
    ensures Split([], sep) == [""]
  {
  }

  /** The first piece is empty exactly when the text is empty or starts with the separator. */
  lemma SplitFirstEmpty(s: string, sep: char)
    ensures Split(s, sep)[0] == "" <==> s == [] || s[0] == sep
  {
  }

  /** The first piece of a split on `/` is `#` exactly for `#` itself and the texts that start with `#/`. */
  lemma SplitFirstIsHash(s: string)
    ensures Split(s, '/')[0] == "#" <==> (s == "#" || StartsWith(s, "#/"))
  {
    if s != [] && s[0] != '/' {
      SplitFirstEmpty(s[1..], '/');
      var rest := Split(s[1..], '/');
      assert Split(s, '/')[0] == [s[0]] + rest[0];
      if s[0] == '#' && (s[1..] == [] || s[1] == '/') {
        if s[1..] == [] {
          assert s == "#";
        } else {
          assert s[..2] == "#/";
        }
      }
      if StartsWith(s, "#/") {
        assert s[0] == '#' && s[1] == '/';
      }
    }
  }

  /** Text before a first `:` is fixed by the whole: two splits of one string at a first `:` agree. */
  lemma PrefixBeforeColon(a: string, b: string, c: string, d: string)
    requires ':' !in a && ':' !in c && a + ":" + b == c + ":" + d
    ensures a == c && b == d
  {
    var s := a + ":" + b;
    assert s[|a|] == ':';
    assert s[|c|] == (c + ":" + d)[|c|] == ':';
    assert forall k :: 0 <= k < |a| ==> s[k] == a[k] && s[k] != ':';
    assert forall k :: 0 <= k < |c| ==> s[k] == (c + ":" + d)[k] == c[k] && s[k] != ':';
    assert |a| == |c|;
    assert a == s[..|a|] && c == (c + ":" + d)[..|c|];
    assert b == s[|a| + 1..] && d == (c + ":" + d)[|c| + 1..];
  }

  /** `String.prototype.startsWith`. */
  predicate StartsWith(s: string, prefix: string) {
    prefix <= s
  }

  /** `String.prototype.endsWith`. */
  predicate EndsWith(s: string, suffix: string) {
    |suffix| <= |s| && s[|s| - |suffix|..] == suffix
  }

  /** `String.prototype.includes`. */
  predicate Contains(s: string, sub: string)
    decreases |s|
  {
    sub <= s || (s != [] && Contains(s[1..], sub))
  }

  /** `sub` occurs in `s` starting at position `i`. */
  predicate OccursAt(s: string, sub: string, i: int) {
    0 <= i <= |s| - |sub| && s[i..i + |sub|] == sub
  }

  /** `includes` holds exactly when the text occurs at some position. */
  lemma {:induction false} ContainsAt(s: string, sub: string)
    ensures Contains(s, sub) <==> exists i :: OccursAt(s, sub, i)
    decreases |s|
  {
    if sub <= s {
      assert OccursAt(s, sub, 0);
    } else if s == [] {
    } else {
      ContainsAt(s[1..], sub);
      if exists i :: OccursAt(s, sub, i) {
        var i :| OccursAt(s, sub, i);
        assert i != 0;
        assert OccursAt(s[1..], sub, i - 1);
      }
      if Contains(s[1..], sub) {
        var i :| OccursAt(s[1..], sub, i);
        assert OccursAt(s, sub, i + 1);
      }
    }
  }

  /** The empty text occurs in every text. */
  lemma ContainsEmpty(s: string)
    ensures Contains(s, "")
  {
  }

  /** A text occurs in itself. */
  lemma ContainsSelf(s: string)
    ensures Contains(s, s)
  {
  }

  /**
    `string.length`: JavaScript counts UTF-16 code units, so a character outside the Basic
    Multilingual Plane (an emoji, say) counts twice.
   */
  function Utf16Length(s: string): (n: nat)
    ensures |s| <= n <= 2 * |s|
    ensures (forall i :: 0 <= i < |s| ==> s[i] as int < 0x1_0000) ==> n == |s|
  {
    if s == [] then 0 else Utf16Length(s[..|s| - 1]) + if s[|s| - 1] as int < 0x1_0000 then 1 else 2
  }

  /** A single character outside the Basic Multilingual Plane is a surrogate pair: length 2. */
  lemma Utf16Pair(c: char)
    requires c as int >= 0x1_0000
    ensures Utf16Length([c]) == 2
  {
    assert [c][..0] == [];
  }

  function DigitChar(d: nat): char
    requires d < 10
  {
    ('0' as int + d) as char
  }

  function NatToString(n: nat): (r: string)
    ensures |r| >= 1
    ensures forall i :: 0 <= i < |r| ==> '0' <= r[i] <= '9'
  {
    if n < 10 then [DigitChar(n)] else NatToString(n / 10) + [DigitChar(n % 10)]
  }

  /** `String(n)` for an integer `n`. */
  function IntToString(n: int): string {
    if n < 0 then "-" + NatToString(-n) else NatToString(n)
  }

  /** The JavaScript idiom `s || fallback` on an optional string: an absent or empty string gives the fallback. */
  function OrElse(s: Option<string>, fallback: string): (r: string)
    ensures r == fallback || (s.Some? && r == s.value && s.value != "")
    ensures s.Some? && s.value != "" ==> r == s.value
  {
    if s.Some? && s.value != "" then s.value else fallback
  }

  /** The JavaScript idiom `a || b` on two optional strings. */
  function OrOption(a: Option<string>, b: Option<string>): (r: Option<string>)
    ensures a.Some? && a.value != "" ==> r == a
    ensures !(a.Some? && a.value != "") ==> r == b
  {
    if a.Some? && a.value != "" then a else b
  }
}

/**
 * The slice of JavaScript semantics the services depend on: request values as JSON delivers
 * them, truthiness, `typeof` tests, `String.prototype.trim`, `String.prototype.split` on one
 * character, `Number(...)` of a path segment and `Date.parse`.
 *
 * A string is a sequence of Unicode scalar values, one `char` each. JavaScript strings are
 * sequences of UTF-16 code units, so `|s|` agrees with JavaScript's `s.length` only for text
 * inside the Basic Multilingual Plane; a character outside it is one `char` here and two code
 * units there.
 */
module Js {
  import opened Outcomes

  /** A value read from a parsed request body; `Undefined` is a key the body does not have. */
  datatype Value =
    | Undefined
    | Null
    | Bool(b: bool)
    | Num(x: real)
    | Str(s: string)
    | Obj          // any object or array

  /** JavaScript truthiness: `false`, `0`, `""`, `null` and `undefined` are falsy. */
  predicate Truthy(v: Value) {
    match v
    case Undefined => false
    case Null => false
    case Bool(b) => b
    case Num(x) => x != 0.0
    case Str(s) => s != ""
    case Obj => true
  }

  /** The outcome of `Number(segment)` for a path parameter. Infinity is a NonInteger. */
  datatype Numeric = NaN | Integer(i: int) | NonInteger

  /** A JSON number as an integer id, or None when it has a fractional part. */
  function IntegerOf(x: real): (r: Option<int>)
    ensures r.Some? <==> x == x.Floor as real
    ensures r.Some? ==> r.value as real == x
  {
    if x == x.Floor as real then Some(x.Floor) else None
  }

  /** `Number.isNaN`-style test used by every `isNaN(id)` guard. */
  predicate IsNaN(n: Numeric) { n.NaN? }

  // ---------------------------------------------------------------------------------------
  // Whitespace and trim

  /** The WhiteSpace and LineTerminator characters, which both `trim` and the regex class `\s` use. */
  predicate IsWhitespace(c: char) {
    || c == ' ' || c == '\t' || c == '\n' || c == '\U{000B}' || c == '\U{000C}' || c == '\r'
    || c == '\U{00A0}' || c == '\U{1680}' || ('\U{2000}' <= c <= '\U{200A}')
    || c == '\U{2028}' || c == '\U{2029}' || c == '\U{202F}' || c == '\U{205F}'
    || c == '\U{3000}' || c == '\U{FEFF}'
  }

  predicate AllWhitespace(s: string) {
    forall i {:trigger IsWhitespace(s[i])} :: 0 <= i < |s| ==> IsWhitespace(s[i])
  }

  /** `s.trimStart()`: the longest suffix of `s` that does not start with whitespace. */
  function TrimStart(s: string): (r: string)
    ensures |r| <= |s| && r == s[|s| - |r|..]
    ensures AllWhitespace(s[..|s| - |r|])
    ensures r == [] || !IsWhitespace(r[0])
  {
    if s != [] && IsWhitespace(s[0]) then TrimStart(s[1..]) else s
  }

  /** `s.trimEnd()`: the longest prefix of `s` that does not end with whitespace. */
  function TrimEnd(s: string): (r: string)
    ensures |r| <= |s| && r == s[..|r|]
    ensures AllWhitespace(s[|r|..])
    ensures r == [] || !IsWhitespace(r[|r| - 1])
  {
    if s != [] && IsWhitespace(s[|s| - 1]) then
      var r := TrimEnd(s[..|s| - 1]);
      assert s[..|r|] == s[..|s| - 1][..|r|];
      assert s[|r|..] == s[..|s| - 1][|r|..] + [s[|s| - 1]];
      r
    else s
  }

  /** `s.trim()`: empty exactly for blank strings, and never begins or ends with whitespace. */
  function Trim(s: string): (r: string)
    ensures |r| <= |s|
    ensures r == [] <==> AllWhitespace(s)
    ensures r != [] ==> !IsWhitespace(r[0]) && !IsWhitespace(r[|r| - 1])
  {
    BlankIffTrimmedEmpty(s);
    TrimEnd(TrimStart(s))
  }

  /** Trimming both ends leaves nothing exactly when every character is whitespace. */
  lemma {:induction false} BlankIffTrimmedEmpty(s: string)
    ensures TrimEnd(TrimStart(s)) == [] <==> AllWhitespace(s)
  {
    EmptyTrimIsBlank(s, TrimStart(s));
    BlankTrimsStartToEmpty(s, TrimStart(s));
  }

  /** When nothing is left after trimming the end of `t == s.trimStart()`, `s` was blank. */
  lemma {:induction false} EmptyTrimIsBlank(s: string, t: string)
    requires t == TrimStart(s)
    ensures TrimEnd(t) == [] ==> AllWhitespace(s)
  {
    var r := TrimEnd(t);
    if r == [] {
      assert t[|r|..] == t;
      assert t == [];
      var p := s[..|s| - |t|];
      forall i | 0 <= i < |s|
        ensures IsWhitespace(s[i])
      {
        assert s[i] == p[i];
      }
    }
  }

  /** A blank `s` trims at the start to nothing, so both ends trim to nothing. */
  lemma {:induction false} BlankTrimsStartToEmpty(s: string, t: string)
    requires t == TrimStart(s)
    ensures AllWhitespace(s) ==> t == [] && TrimEnd(t) == []
  {
    if t != [] {
      assert t[0] == s[|s| - |t|];
    }
  }

  /**
   * What `trim` removes is whitespace on both sides of one contiguous piece of `s`; `a` is
   * where that piece starts.
   */
  lemma {:induction false} TrimIsInfix(s: string) returns (a: nat)
    ensures a + |Trim(s)| <= |s| && Trim(s) == s[a..a + |Trim(s)|]
    ensures AllWhitespace(s[..a]) && AllWhitespace(s[a + |Trim(s)|..])
  {
    var t := TrimStart(s);
    var r := TrimEnd(t);
    assert Trim(s) == r;
    a := PieceBetweenBlanks(s, t, r);
  }

  /**
   * A piece `r` cut from the front of a suffix `t` of `s`, with only whitespace before `t` and
   * after `r`, is a piece of `s` with only whitespace around it.
   */
  lemma PieceBetweenBlanks(s: string, t: string, r: string) returns (a: nat)
    requires |t| <= |s| && t == s[|s| - |t|..] && AllWhitespace(s[..|s| - |t|])
    requires |r| <= |t| && r == t[..|r|] && AllWhitespace(t[|r|..])
    ensures a == |s| - |t|
    ensures a + |r| <= |s| && r == s[a..a + |r|]
    ensures AllWhitespace(s[..a]) && AllWhitespace(s[a + |r|..])
  {
    a := |s| - |t|;
    assert s[a..][..|r|] == s[a..a + |r|];
    assert s[a..][|r|..] == s[a + |r|..];
  }

  /** Trimming is idempotent, so a stored trimmed value trims to itself. */
  lemma {:induction false} TrimIdempotent(s: string)
    ensures Trim(Trim(s)) == Trim(s)
  {
    TrimmedIsFixedPoint(Trim(s));
  }

  /** `typeof v === 'string' && v.trim() !== ''`. */
  predicate IsNonBlankText(v: Value) {
    v.Str? && Trim(v.s) != ""
  }

  /** `s` neither begins nor ends with whitespace. */
  predicate IsTrimmed(s: string) {
    s == [] || (!IsWhitespace(s[0]) && !IsWhitespace(s[|s| - 1]))
  }

  /** The strings `trim` leaves as they are are exactly the trimmed ones; every result of `trim` is one. */
  lemma {:induction false} TrimmedIsFixedPoint(s: string)
    ensures IsTrimmed(s) <==> Trim(s) == s
    ensures IsTrimmed(Trim(s))
  {
    if IsTrimmed(s) && s != [] {
      assert TrimStart(s) == s;
      assert TrimEnd(s) == s;
    }
  }

  /** Lower-case for the ASCII letters; every other character is left as it is. */
  function LowerChar(c: char): (d: char)
    ensures 'A' <= c <= 'Z' ==> d as int == c as int + 32
    ensures !('A' <= c <= 'Z') ==> d == c
  {
    if 'A' <= c <= 'Z' then (c as int + 32) as char else c
  }

  function Lower(s: string): (r: string)
    ensures |r| == |s| && forall i :: 0 <= i < |s| ==> r[i] == LowerChar(s[i])
  {
    seq(|s|, i requires 0 <= i < |s| => LowerChar(s[i]))
  }

  /** `needle` occurs in `hay` as a contiguous piece. */
  predicate Contains(hay: string, needle: string) {
    exists k :: 0 <= k <= |hay| - |needle| && OccursAt(hay, needle, k)
  }

  /** `needle` occurs in `hay` starting at position `k`. */
  predicate OccursAt(hay: string, needle: string, k: int)
    requires 0 <= k <= |hay| - |needle|
  {
    hay[k..k + |needle|] == needle
  }

  /** A substring test that ignores the case of ASCII letters. */
  predicate ContainsIgnoringCase(hay: string, needle: string) {
    Contains(Lower(hay), Lower(needle))
  }

  // ---------------------------------------------------------------------------------------
  // split

  /** Inverse of `Split`: the parts glued back together with `sep` between them. */
  function Join(parts: seq<string>, sep: char): string
    decreases |parts|
  {
    if parts == [] then []
    else if |parts| == 1 then parts[0]
    else parts[0] + [sep] + Join(parts[1..], sep)
  }

  /** `s.split(sep)` for a one-character separator. */
  function Split(s: string, sep: char): (parts: seq<string>)
    ensures |parts| >= 1
    ensures forall i :: 0 <= i < |parts| ==> sep !in parts[i]
    ensures Join(parts, sep) == s
    decreases |s|
  {
    if s == [] then [[]]
    else
      var rest := Split(s[1..], sep);
      if s[0] == sep then
        assert ([[]] + rest)[1..] == rest;
        [[]] + rest
      else
        var parts := [[s[0]] + rest[0]] + rest[1..];
        assert parts[1..] == rest[1..];
        assert Join(parts, sep) == s by {
          if |rest| == 1 {
            assert Join(parts, sep) == [s[0]] + rest[0];
          } else {
            assert Join(rest, sep) == rest[0] + [sep] + Join(rest[1..], sep);
            assert Join(parts, sep) == [s[0]] + rest[0] + [sep] + Join(rest[1..], sep);
          }
          assert s == [s[0]] + s[1..];
        }
        parts
  }

  /** A separator-free prefix becomes the first part, and the rest is split on its own. */
  lemma {:induction false} SplitAfterPrefix(a: string, sep: char, b: string)
    requires sep !in a
    ensures Split(a + [sep] + b, sep) == [a] + Split(b, sep)
    decreases |a|
  {
    var s := a + [sep] + b;
    if a == [] {
      assert s[0] == sep && s[1..] == b;
    } else {
      assert s[0] == a[0] && s[1..] == a[1..] + [sep] + b;
      SplitAfterPrefix(a[1..], sep, b);
      assert [a[0]] + a[1..] == a;
    }
  }

  /** A string without the separator splits into itself alone. */
  lemma {:induction false} SplitWithoutSeparator(a: string, sep: char)
    requires sep !in a
    ensures Split(a, sep) == [a]
    decreases |a|
  {
    if a != [] {
      assert a[1..] == a[1..] && sep !in a[1..];
      SplitWithoutSeparator(a[1..], sep);
      assert [a[0]] + a[1..] == a;
    }
  }

  // ---------------------------------------------------------------------------------------
  // Dates

  /** `Date.parse`, supplied from outside: milliseconds since the epoch, or None for NaN. */
  type DateParser = string -> Option<int>

  /** `Date.parse(s)`; the empty string never parses. */
  function DateParse(parse: DateParser, s: string): Option<int> {
    if s == "" then None else parse(s)
  }

  /** `typeof v === 'string' && !isNaN(Date.parse(v))`. */
  predicate IsValidDateString(parse: DateParser, v: Value) {
    v.Str? && DateParse(parse, v.s).Some?
  }

  /** `new Date(v)` for a value that passed `IsValidDateString`. */
  function DateOf(parse: DateParser, v: Value): int
    requires IsValidDateString(parse, v)
  {
    DateParse(parse, v.s).value
  }
}

/**
 * The PHP string built-ins the documentation pipeline relies on, written out
 * over `seq<char>`: `empty()`, `strtolower`/`strtoupper`, `ucfirst`, `ucwords`,
 * `trim`/`ltrim`/`rtrim` with an explicit character list, `explode`/`implode`,
 * `str_replace`, `Str::replaceFirst`, `strpos(...) === 0` and `Str::contains`.
 * Only ASCII letters are case-mapped, as PHP 8's byte-wise functions do.
 */
module Strings {

  /** PHP's `empty()` on a string: both "" and "0" are empty. */
  predicate EmptyStr(s: string) {
    s == "" || s == "0"
  }

  /** The characters `trim()` removes by default: " \t\n\r\0\x0B". */
  const DefaultTrim: set<char> := {' ', '\t', '\n', '\r', 0 as char, 11 as char}

  function LowerChar(c: char): char {
    if 'A' <= c <= 'Z' then (c as int + 32) as char else c
  }

  function UpperChar(c: char): char {
    if 'a' <= c <= 'z' then (c as int - 32) as char else c
  }

  /** `strtolower` */
  function Lower(s: string): (r: string)
    ensures |r| == |s|
    ensures forall i :: 0 <= i < |s| ==> r[i] == LowerChar(s[i])
  {
    seq(|s|, i requires 0 <= i < |s| => LowerChar(s[i]))
  }

  /** `strtoupper` */
  function Upper(s: string): (r: string)
    ensures |r| == |s|
    ensures forall i :: 0 <= i < |s| ==> r[i] == UpperChar(s[i])
  {
    seq(|s|, i requires 0 <= i < |s| => UpperChar(s[i]))
  }

  /** `ucfirst` */
  function Ucfirst(s: string): (r: string)
    ensures |r| == |s|
    ensures |s| > 0 ==> r[0] == UpperChar(s[0]) && r[1..] == s[1..]
  {
    if s == [] then s else [UpperChar(s[0])] + s[1..]
  }

  /** The word separators of `ucwords` with its default delimiters. */
  const WordDelimiters: set<char> := {' ', '\t', '\r', '\n', 12 as char, 11 as char}

  /** `ucwords`: the first character and every character after a delimiter is upper-cased. */
  function Ucwords(s: string): (r: string)
    ensures |r| == |s|
    ensures forall i :: 0 <= i < |s| ==>
      r[i] == (if i == 0 || s[i - 1] in WordDelimiters then UpperChar(s[i]) else s[i])
  {
    seq(|s|, i requires 0 <= i < |s| =>
      if i == 0 || s[i - 1] in WordDelimiters then UpperChar(s[i]) else s[i])
  }

  /** `strpos($s, $p) === 0`, and `Str::startsWith`. */
  predicate StartsWith(s: string, p: string) {
    |p| <= |s| && s[..|p|] == p
  }

  predicate EndsWith(s: string, p: string) {
    |p| <= |s| && s[|s| - |p|..] == p
  }

  /** `Str::contains` / `strpos($s, $p) !== false`. */
  predicate Contains(s: string, p: string)
    decreases |s|
  {
    StartsWith(s, p) || (|s| > 0 && Contains(s[1..], p))
  }

  /** Position of the first `c` in `s`. */
  function IndexOfChar(s: string, c: char): (i: nat)
    requires c in s
    ensures i < |s| && s[i] == c && c !in s[..i]
    ensures forall j :: 0 <= j < i ==> s[j] != c
  {
    if s[0] == c then 0 else 1 + IndexOfChar(s[1..], c)
  }

  /** `explode($sep, $s)` for a one-character separator. */
  function Split(s: string, sep: char): (parts: seq<string>)
    ensures |parts| >= 1
    ensures forall k :: 0 <= k < |parts| ==> sep !in parts[k]
    decreases |s|
  {
    if sep !in s then [s]
    else
      var i := IndexOfChar(s, sep);
      [s[..i]] + Split(s[i + 1..], sep)
  }

  /** `implode($sep, $parts)` */
  function Join(parts: seq<string>, sep: string): string {
    if parts == [] then ""
    else if |parts| == 1 then parts[0]
    else parts[0] + sep + Join(parts[1..], sep)
  }

  /** Splitting and joining again on the same separator gives the original string. */
  lemma {:induction false} JoinSplit(s: string, sep: char)
    ensures Join(Split(s, sep), [sep]) == s
    decreases |s|
  {
    if sep in s {
      var i := IndexOfChar(s, sep);
      var rest := Split(s[i + 1..], sep);
      var parts := [s[..i]] + rest;
      assert Split(s, sep) == parts;
      assert parts[0] == s[..i] && parts[1..] == rest;
      assert Join(parts, [sep]) == s[..i] + [sep] + Join(rest, [sep]);
      JoinSplit(s[i + 1..], sep);
      assert s == s[..i] + [sep] + s[i + 1..];
    }
  }

  /** The first piece of `explode` is the text before the first separator. */
  lemma SplitHead(a: string, sep: char, b: string)
    requires sep !in a
    ensures Split(a + [sep] + b, sep) == [a] + Split(b, sep)
  {
    var s := a + [sep] + b;
    var i := IndexOfChar(s, sep);
    assert s[|a|] == sep;
    assert forall j :: 0 <= j < |a| ==> s[j] == a[j];
    assert i == |a|;
    assert s[..i] == a;
    assert s[i + 1..] == b;
  }

  /** Joining pieces that do not contain the separator and splitting again gives the pieces back. */
  lemma {:induction false} SplitJoin(parts: seq<string>, sep: char)
    requires |parts| >= 1
    requires forall k :: 0 <= k < |parts| ==> sep !in parts[k]
    ensures Split(Join(parts, [sep]), sep) == parts
  {
    if |parts| > 1 {
      var rest := Join(parts[1..], [sep]);
      assert Join(parts, [sep]) == parts[0] + [sep] + rest;
      assert forall k :: 0 <= k < |parts[1..]| ==> sep !in parts[1..][k];
      SplitJoin(parts[1..], sep);
      SplitHead(parts[0], sep, rest);
      assert [parts[0]] + parts[1..] == parts;
    } else {
      assert Join(parts, [sep]) == parts[0];
    }
  }

  /** `ltrim($s, $cs)` */
  function TrimLeft(s: string, cs: set<char>): (r: string)
    ensures |r| <= |s| && r == s[|s| - |r|..]
    ensures r == [] || r[0] !in cs
  {
    if s != [] && s[0] in cs then TrimLeft(s[1..], cs) else s
  }

  /** `rtrim($s, $cs)` */
  function TrimRight(s: string, cs: set<char>): (r: string)
    ensures |r| <= |s| && r == s[..|r|]
    ensures r == [] || r[|r| - 1] !in cs
  {
    if s != [] && s[|s| - 1] in cs then TrimRight(s[..|s| - 1], cs) else s
  }

  /** `trim($s, $cs)` */
  function Trim(s: string, cs: set<char>): (r: string)
    ensures r == [] || (r[0] !in cs && r[|r| - 1] !in cs)
  {
    TrimRight(TrimLeft(s, cs), cs)
  }

  /** A string with no trimmable character at either end is its own trim. */
  lemma TrimStable(s: string, cs: set<char>)
    requires s == [] || (s[0] !in cs && s[|s| - 1] !in cs)
    ensures Trim(s, cs) == s
  {
  }

  /** `trim` is idempotent. */
  lemma TrimTwice(s: string, cs: set<char>)
    ensures Trim(Trim(s, cs), cs) == Trim(s, cs)
  {
    TrimStable(Trim(s, cs), cs);
  }

  /** `str_replace($from, $to, $s)`: one left-to-right pass; an empty needle changes nothing. */
  function ReplaceAll(s: string, from: string, to: string): string
    decreases |s|
  {
    if from == [] || s == [] then s
    else if StartsWith(s, from) then to + ReplaceAll(s[|from|..], from, to)
    else [s[0]] + ReplaceAll(s[1..], from, to)
  }

  /** `Str::replaceFirst($from, $to, $s)`: only the first occurrence is replaced. */
  function ReplaceFirst(s: string, from: string, to: string): (r: string)
    ensures !Contains(s, from) ==> r == s
    decreases |s|
  {
    if from == [] then s
    else if StartsWith(s, from) then to + s[|from|..]
    else if s == [] then s
    else [s[0]] + ReplaceFirst(s[1..], from, to)
  }

  /** A string that does not contain the needle is left alone by `str_replace`. */
  lemma {:induction false} ReplaceAllAbsent(s: string, from: string, to: string)
    requires !Contains(s, from)
    ensures ReplaceAll(s, from, to) == s
    decreases |s|
  {
    if from != [] && s != [] {
      ReplaceAllAbsent(s[1..], from, to);
    }
  }

  /** A string shorter than the needle is left alone by `str_replace`. */
  lemma ReplaceAllAbsentShort(s: string, from: string, to: string)
    requires |s| < |from|
    ensures ReplaceAll(s, from, to) == s
    decreases |s|
  {
  }

  /** Removing every occurrence leaves none behind, unless a new one forms across a cut. */
  lemma ReplaceAllSinglePass()
    ensures ReplaceAll("apapi/v1i/v1", "api/v1", "") == "api/v1"
  {
    var s := "apapi/v1i/v1";
    var from := "api/v1";
    assert !StartsWith(s, from) by {
      assert s[..6][2] != from[2];
    }
    ReplaceAllMiss(s, from, "");
    assert !StartsWith(s[1..], from) by {
      assert s[1..][0] != from[0];
    }
    ReplaceAllMiss(s[1..], from, "");
    assert s[1..][1..] == s[2..];
    assert StartsWith(s[2..], from) by {
      assert s[2..][..6] == from;
    }
    ReplaceAllHit(s[2..], from, "");
    assert s[2..][6..] == "i/v1";
    ReplaceAllAbsentShort("i/v1", from, "");
    assert [s[0]] + ([s[1]] + ("" + "i/v1")) == from;
  }

  /** Where the needle does not start, `str_replace` keeps the character and moves on. */
  lemma ReplaceAllMiss(s: string, from: string, to: string)
    requires from != [] && s != [] && !StartsWith(s, from)
    ensures ReplaceAll(s, from, to) == [s[0]] + ReplaceAll(s[1..], from, to)
  {
  }

  /** Where the needle starts, `str_replace` writes the replacement and skips the needle. */
  lemma ReplaceAllHit(s: string, from: string, to: string)
    requires from != [] && StartsWith(s, from)
    ensures ReplaceAll(s, from, to) == to + ReplaceAll(s[|from|..], from, to)
  {
  }

  function DigitChar(d: nat): char
    requires d < 10
  {
    ('0' as int + d) as char
  }

  /** Decimal text of a natural number, as PHP's string conversion writes it. */
  function NatToString(n: nat): (r: string)
    ensures |r| >= 1
    ensures forall i :: 0 <= i < |r| ==> '0' <= r[i] <= '9'
    decreases n
  {
    if n < 10 then [DigitChar(n)] else NatToString(n / 10) + [DigitChar(n % 10)]
  }

  function IntToString(n: int): string {
    if n < 0 then "-" + NatToString(-n) else NatToString(n)
  }

  predicate IsDigit(c: char) {
    '0' <= c <= '9'
  }

  // ---------------------------------------------------------------- character-wise replacement

  /** `s` with every `c` removed. */
  function Without(s: string, c: char): (r: string)
    ensures c !in r
    ensures |r| <= |s|
  {
    if s == [] then []
    else if s[0] == c then Without(s[1..], c)
    else [s[0]] + Without(s[1..], c)
  }

  /** `s` with every `a` written as `b`. */
  function Swapped(s: string, a: char, b: char): (r: string)
    ensures |r| == |s|
    ensures forall i :: 0 <= i < |s| ==> r[i] == if s[i] == a then b else s[i]
  {
    seq(|s|, i requires 0 <= i < |s| => if s[i] == a then b else s[i])
  }

  /** `str_replace` with a one-character needle and an empty replacement removes that character. */
  lemma {:induction false} ReplaceCharByEmpty(s: string, c: char)
    ensures ReplaceAll(s, [c], "") == Without(s, c)
    decreases |s|
  {
    if s != [] {
      ReplaceCharByEmpty(s[1..], c);
      if s[0] == c {
        assert StartsWith(s, [c]);
      } else {
        assert !StartsWith(s, [c]);
      }
    }
  }

  /** `str_replace` from one character to another rewrites exactly that character. */
  lemma {:induction false} ReplaceCharByChar(s: string, a: char, b: char)
    ensures ReplaceAll(s, [a], [b]) == Swapped(s, a, b)
    decreases |s|
  {
    if s != [] {
      ReplaceCharByChar(s[1..], a, b);
      if s[0] == a {
        assert StartsWith(s, [a]);
      } else {
        assert !StartsWith(s, [a]);
      }
      assert Swapped(s, a, b) == [if s[0] == a then b else s[0]] + Swapped(s[1..], a, b);
    }
  }

  /** Swapping a character out and back restores a text that did not hold the replacement. */
  lemma SwapBack(s: string, a: char, b: char)
    requires b !in s
    ensures Swapped(Swapped(s, a, b), b, a) == s
  {
  }

  /** Removing a character distributes over concatenation. */
  lemma {:induction false} WithoutAppend(x: string, y: string, c: char)
    ensures Without(x + y, c) == Without(x, c) + Without(y, c)
    decreases |x|
  {
    if x != [] {
      assert (x + y)[1..] == x[1..] + y;
      WithoutAppend(x[1..], y, c);
    } else {
      assert x + y == y;
    }
  }

  /** Removing one character does not bring back another. */
  lemma {:induction false} WithoutKeepsOut(s: string, c: char, d: char)
    requires c !in s
    ensures c !in Without(s, d)
    decreases |s|
  {
    if s != [] {
      WithoutKeepsOut(s[1..], c, d);
    }
  }

  /** A text without the character is left alone. */
  lemma {:induction false} WithoutAbsent(s: string, c: char)
    requires c !in s
    ensures Without(s, c) == s
    decreases |s|
  {
    if s != [] {
      WithoutAbsent(s[1..], c);
    }
  }

  /** Swapping distributes over concatenation. */
  lemma SwappedAppend(x: string, y: string, a: char, b: char)
    ensures Swapped(x + y, a, b) == Swapped(x, a, b) + Swapped(y, a, b)
  {
  }
}

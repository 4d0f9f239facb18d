/**
 * The JavaScript string operations the catalogue relies on (`trim`, `toLowerCase`,
 * `includes`, `split`, `join`, `padStart`, `String(n)`, the default `sort` order),
 * on `string` = `seq<char>`.
 */
module Strings {

  // ---- trim ----

  /** The characters `String.prototype.trim` removes, as modelled here. */
  predicate IsSpace(c: char) {
    c == ' ' || c == '\t' || c == '\n' || c == '\r' || c == '\U{000B}' || c == '\U{000C}'
    || c == '\U{00A0}' || c == '\U{2028}' || c == '\U{2029}' || c == '\U{FEFF}'
  }

  predicate AllSpace(s: string) {
    forall i | 0 <= i < |s| :: IsSpace(s[i])
  }

  /** Neither end of `s` is whitespace: what `trim` leaves unchanged. */
  predicate Trimmed(s: string) {
    s == [] || (!IsSpace(s[0]) && !IsSpace(s[|s| - 1]))
  }

  /** No character of `s` belongs to `cs`. */
  predicate FreeOf(s: string, cs: set<char>) {
    forall i | 0 <= i < |s| :: s[i] !in cs
  }

  function TrimStart(s: string): string
    decreases |s|
  {
    if |s| > 0 && IsSpace(s[0]) then TrimStart(s[1..]) else s
  }

  function TrimEnd(s: string): string
    decreases |s|
  {
    if |s| > 0 && IsSpace(s[|s| - 1]) then TrimEnd(s[..|s| - 1]) else s
  }

  /** `s.trim()`. */
  function Trim(s: string): string {
    TrimEnd(TrimStart(s))
  }

  /** `TrimStart` drops a blank prefix and leaves a suffix that starts with a non-space. */
  lemma {:induction false} TrimStartFacts(s: string)
    ensures |TrimStart(s)| <= |s| && TrimStart(s) == s[|s| - |TrimStart(s)|..]
    ensures AllSpace(s[..|s| - |TrimStart(s)|])
    ensures TrimStart(s) == [] || !IsSpace(TrimStart(s)[0])
    decreases |s|
  {
    if |s| > 0 && IsSpace(s[0]) {
      TrimStartFacts(s[1..]);
      assert s[..|s| - |TrimStart(s)|] == [s[0]] + s[1..][..|s[1..]| - |TrimStart(s[1..])|];
    }
  }

  /** `TrimEnd` drops a blank suffix and leaves a prefix that ends with a non-space. */
  lemma {:induction false} TrimEndFacts(s: string)
    ensures |TrimEnd(s)| <= |s| && TrimEnd(s) == s[..|TrimEnd(s)|]
    ensures AllSpace(s[|TrimEnd(s)|..])
    ensures TrimEnd(s) == [] || !IsSpace(TrimEnd(s)[|TrimEnd(s)| - 1])
    decreases |s|
  {
    if |s| > 0 && IsSpace(s[|s| - 1]) {
      var s' := s[..|s| - 1];
      TrimEndFacts(s');
      assert s[|TrimEnd(s)|..] == s'[|TrimEnd(s')|..] + [s[|s| - 1]];
    }
  }

  /** The result of `trim` has no whitespace at either end, and keeps only characters of its input. */
  lemma TrimProperties(s: string)
    ensures Trimmed(Trim(s))
    ensures forall c | c in Trim(s) :: c in s
  {
    var t := TrimStart(s);
    TrimStartFacts(s);
    TrimEndFacts(t);
    assert forall c | c in TrimEnd(t) :: c in t;
    assert forall c | c in t :: c in s;
  }

  /** `trim` yields the empty string exactly for blank input. */
  lemma TrimEmptyIffBlank(s: string)
    ensures Trim(s) == [] <==> AllSpace(s)
  {
    var t := TrimStart(s);
    TrimStartFacts(s);
    TrimEndFacts(t);
    if Trim(s) == [] {
      assert AllSpace(t);
      assert s == s[..|s| - |t|] + t;
    }
  }

  /** A string with no whitespace at either end is its own `trim`. */
  lemma TrimOfTrimmed(s: string)
    requires Trimmed(s)
    ensures Trim(s) == s
  {
  }

  lemma TrimIdempotent(s: string)
    ensures Trim(Trim(s)) == Trim(s)
  {
    TrimProperties(s);
    TrimOfTrimmed(Trim(s));
  }

  /** Leading whitespace does not change the result of `trim`. */
  lemma TrimSkipsLeadingSpace(c: char, s: string)
    requires IsSpace(c)
    ensures Trim([c] + s) == Trim(s)
  {
    assert ([c] + s)[1..] == s;
  }

  // ---- case folding and search ----

  /** ASCII upper-case letters map to lower case; every other character is kept. */
  function LowerChar(c: char): char {
    if 'A' <= c <= 'Z' then (c as int + 32) as char else c
  }

  /** `s.toLowerCase()`, restricted to ASCII. */
  function ToLower(s: string): string {
    seq(|s|, i requires 0 <= i < |s| => LowerChar(s[i]))
  }

  /** Lower-casing leaves whitespace alone and creates none, so a search key is blank exactly when its input is. */
  lemma LowerBlankIff(s: string)
    ensures Trim(ToLower(s)) == "" <==> AllSpace(s)
  {
    assert forall i | 0 <= i < |s| :: IsSpace(ToLower(s)[i]) <==> IsSpace(s[i]);
    TrimEmptyIffBlank(ToLower(s));
  }

  /** `s.includes(sub)`. */
  predicate Contains(s: string, sub: string)
    decreases |s|
  {
    sub <= s || (|s| > 0 && Contains(s[1..], sub))
  }

  /** `includes` holds exactly when `sub` starts at some position of `s`. */
  lemma {:induction false} ContainsAt(s: string, sub: string)
    ensures Contains(s, sub) <==> exists k | 0 <= k <= |s| :: sub <= s[k..]
    decreases |s|
  {
    assert s[0..] == s;
    if |s| > 0 {
      ContainsAt(s[1..], sub);
      if exists k | 0 <= k <= |s[1..]| :: sub <= s[1..][k..] {
        var k :| 0 <= k <= |s[1..]| && sub <= s[1..][k..];
        assert s[k + 1..] == s[1..][k..];
      }
      if exists k | 0 <= k <= |s| :: sub <= s[k..] {
        var k :| 0 <= k <= |s| && sub <= s[k..];
        if k > 0 {
          assert s[1..][k - 1..] == s[k..];
          assert 0 <= k - 1 <= |s[1..]| && sub <= s[1..][k - 1..];
        }
      }
    }
  }

  /** A concatenation is free of `cs` exactly when both parts are. */
  lemma FreeOfConcat(a: string, b: string, cs: set<char>)
    ensures FreeOf(a + b, cs) <==> FreeOf(a, cs) && FreeOf(b, cs)
  {
    if FreeOf(a + b, cs) {
      assert forall i | 0 <= i < |a| :: a[i] == (a + b)[i];
      assert forall i | 0 <= i < |b| :: b[i] == (a + b)[|a| + i];
    }
    if FreeOf(a, cs) && FreeOf(b, cs) {
      forall i | 0 <= i < |a + b| ensures (a + b)[i] !in cs {
        if i >= |a| { assert (a + b)[i] == b[i - |a|]; }
      }
    }
  }

  // ---- join and split ----

  /** `parts.join(sep)`. */
  function Join(parts: seq<string>, sep: string): string {
    if |parts| == 0 then ""
    else if |parts| == 1 then parts[0]
    else parts[0] + sep + Join(parts[1..], sep)
  }

  /** Joining parts free of `cs` with a separator free of `cs` gives a string free of `cs`. */
  lemma {:induction false} FreeOfJoin(parts: seq<string>, sep: string, cs: set<char>)
    requires forall i | 0 <= i < |parts| :: FreeOf(parts[i], cs)
    requires FreeOf(sep, cs)
    ensures FreeOf(Join(parts, sep), cs)
    decreases |parts|
  {
    if |parts| > 1 {
      FreeOfJoin(parts[1..], sep, cs);
      FreeOfConcat(parts[0], sep, cs);
      FreeOfConcat(parts[0] + sep, Join(parts[1..], sep), cs);
    }
  }

  /** `s.split(re)` for a regular expression that matches exactly one character of `seps`. */
  function Split(s: string, seps: set<char>): (r: seq<string>)
    ensures |r| > 0
    decreases |s|
  {
    if |s| == 0 then [""]
    else
      var rest := Split(s[1..], seps);
      if s[0] in seps then [""] + rest else [[s[0]] + rest[0]] + rest[1..]
  }

  /** No piece of a split contains a separator. */
  lemma {:induction false} SplitPiecesFree(s: string, seps: set<char>)
    ensures forall i | 0 <= i < |Split(s, seps)| :: FreeOf(Split(s, seps)[i], seps)
    decreases |s|
  {
    if |s| > 0 {
      SplitPiecesFree(s[1..], seps);
    }
  }

  /** A string without separators splits into itself. */
  lemma {:induction false} SplitOfFree(s: string, seps: set<char>)
    requires FreeOf(s, seps)
    ensures Split(s, seps) == [s]
    decreases |s|
  {
    if |s| > 0 {
      SplitOfFree(s[1..], seps);
      assert [s[0]] + s[1..] == s;
    }
  }

  /** Splitting at a separator character splits the two sides independently. */
  lemma {:induction false} SplitAppend(a: string, c: char, b: string, seps: set<char>)
    requires c in seps
    ensures Split(a + [c] + b, seps) == Split(a, seps) + Split(b, seps)
    decreases |a|
  {
    var s := a + [c] + b;
    if |a| == 0 {
      assert s[1..] == b;
    } else {
      assert s[1..] == a[1..] + [c] + b;
      SplitAppend(a[1..], c, b, seps);
    }
  }

  /** Joining the pieces of a split with the separator gives back the input. */
  lemma {:induction false} JoinSplit(s: string, c: char)
    ensures Join(Split(s, {c}), [c]) == s
    decreases |s|
  {
    if |s| > 0 {
      var rest := Split(s[1..], {c});
      JoinSplit(s[1..], c);
      if s[0] == c {
        assert Join([""] + rest, [c]) == "" + [c] + Join(rest, [c]);
      } else if |rest| == 1 {
        assert Split(s, {c}) == [[s[0]] + rest[0]];
      } else {
        var r := Split(s, {c});
        assert r[1..] == rest[1..];
        assert Join(rest, [c]) == rest[0] + [c] + Join(rest[1..], [c]);
      }
    }
  }

  /** Splitting the join of separator-free parts gives back the parts. */
  lemma {:induction false} SplitJoin(parts: seq<string>, c: char, seps: set<char>)
    requires |parts| > 0 && c in seps
    requires forall i | 0 <= i < |parts| :: FreeOf(parts[i], seps)
    ensures Split(Join(parts, [c]), seps) == parts
    decreases |parts|
  {
    SplitOfFree(parts[0], seps);
    if |parts| > 1 {
      SplitJoin(parts[1..], c, seps);
      SplitAppend(parts[0], c, Join(parts[1..], [c]), seps);
    }
  }

  // ---- numbers ----

  function DigitChar(d: nat): char
    requires d < 10
  {
    ('0' as int + d) as char
  }

  /** `String(n)` for a non-negative integer. */
  function NatToString(n: nat): string
    decreases n
  {
    if n < 10 then [DigitChar(n)] else NatToString(n / 10) + [DigitChar(n % 10)]
  }

  /** `s.padStart(width, fill)` for a one-character fill. */
  function PadStart(s: string, width: nat, fill: char): string {
    if |s| >= width then s else seq(width - |s|, _ => fill) + s
  }

  // ---- the default order of `Array.prototype.sort` on strings ----

  /** Lexicographic order on characters; `LexLe(a, b)` when `a` sorts no later than `b`. */
  predicate LexLe(a: string, b: string)
    decreases |a|
  {
    |a| == 0 || (|b| > 0 && (a[0] < b[0] || (a[0] == b[0] && LexLe(a[1..], b[1..]))))
  }

  lemma {:induction false} LexLeTotal(a: string, b: string)
    ensures LexLe(a, b) || LexLe(b, a)
    decreases |a|
  {
    if |a| > 0 && |b| > 0 && a[0] == b[0] {
      LexLeTotal(a[1..], b[1..]);
    }
  }

  lemma {:induction false} LexLeTransitive(a: string, b: string, c: string)
    requires LexLe(a, b) && LexLe(b, c)
    ensures LexLe(a, c)
    decreases |a|
  {
    if |a| > 0 && a[0] == b[0] && b[0] == c[0] {
      LexLeTransitive(a[1..], b[1..], c[1..]);
    }
  }

  lemma {:induction false} LexLeAntisymmetric(a: string, b: string)
    requires LexLe(a, b) && LexLe(b, a)
    ensures a == b
    decreases |a|
  {
    if |a| > 0 {
      LexLeAntisymmetric(a[1..], b[1..]);
      assert a == [a[0]] + a[1..];
      assert b == [b[0]] + b[1..];
    }
  }

  predicate LexSorted(s: seq<string>) {
    forall i, j | 0 <= i < j < |s| :: LexLe(s[i], s[j])
  }

  /** A string at most every element of a sorted list may be put in front of it. */
  lemma LexCons(y: string, s: seq<string>)
    requires LexSorted(s)
    requires forall k | 0 <= k < |s| :: LexLe(y, s[k])
    ensures LexSorted([y] + s)
  {
    var r := [y] + s;
    forall i, j | 0 <= i < j < |r| ensures LexLe(r[i], r[j]) {
      assert r[j] == s[j - 1];
      if i > 0 { assert r[i] == s[i - 1]; }
    }
  }

  /** A string at most `x` and every element of `s` is at most every element of a rearrangement of them. */
  lemma LexPrecedesAll(y: string, x: string, s: seq<string>, r: seq<string>)
    requires multiset(r) == multiset(s) + multiset{x}
    requires LexLe(y, x)
    requires forall k | 0 <= k < |s| :: LexLe(y, s[k])
    ensures forall k | 0 <= k < |r| :: LexLe(y, r[k])
  {
    forall k | 0 <= k < |r| ensures LexLe(y, r[k]) {
      assert r[k] in multiset(r);
      if r[k] != x {
        assert r[k] in multiset(s);
        var j :| 0 <= j < |s| && s[j] == r[k];
      }
    }
  }

  function InsertLex(x: string, s: seq<string>): (r: seq<string>)
    requires LexSorted(s)
    ensures multiset(r) == multiset(s) + multiset{x}
    ensures LexSorted(r)
    decreases |s|
  {
    if |s| == 0 then [x]
    else if LexLe(x, s[0]) then
      assert forall j | 0 <= j < |s| :: LexLe(x, s[j]) by {
        forall j | 0 <= j < |s| ensures LexLe(x, s[j]) {
          if j > 0 { LexLeTransitive(x, s[0], s[j]); }
        }
      }
      LexCons(x, s);
      [x] + s
    else
      LexLeTotal(x, s[0]);
      assert LexSorted(s[1..]);
      var rest := InsertLex(x, s[1..]);
      LexPrecedesAll(s[0], x, s[1..], rest);
      LexCons(s[0], rest);
      assert s == [s[0]] + s[1..];
      [s[0]] + rest
  }

  /** `[...xs].sort()` with the default comparison. */
  function SortLex(s: seq<string>): (r: seq<string>)
    ensures multiset(r) == multiset(s)
    ensures LexSorted(r)
    decreases |s|
  {
    if |s| == 0 then []
    else
      assert s == [s[0]] + s[1..];
      InsertLex(s[0], SortLex(s[1..]))
  }
}

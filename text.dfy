/**
 * The fragment of Python's `str` that the three agents rely on: substring search (`in`,
 * `find`), `count`, `split`, `replace`, `join`, `strip`, `lower`, and the decimal rendering
 * of integers that f-strings perform. Every string operation here is the CPython one for
 * a non-empty separator; `lower` is restricted to ASCII letters.
 */
module Text {
  import opened Wrappers

  /** `p` occurs in `s` starting at index `i`. */
  predicate OccursAt(s: string, p: string, i: nat) {
    i + |p| <= |s| && s[i..i + |p|] == p
  }

  /** The leftmost index at or after `i` at which `p` occurs. */
  function FindFrom(s: string, p: string, i: nat): (r: Option<nat>)
    ensures r.Some? ==> i <= r.value && OccursAt(s, p, r.value)
    ensures r.Some? ==> forall j: nat :: i <= j < r.value ==> !OccursAt(s, p, j)
    ensures r.None? ==> forall j: nat :: i <= j ==> !OccursAt(s, p, j)
    decreases |s| - i
  {
    if i + |p| > |s| then None
    else if OccursAt(s, p, i) then Some(i)
    else FindFrom(s, p, i + 1)
  }

  /** `s.find(p)`: the leftmost index at which `p` occurs, or None for -1. */
  function Find(s: string, p: string): (r: Option<nat>)
    ensures r.Some? ==> OccursAt(s, p, r.value)
    ensures r.Some? ==> forall j: nat :: j < r.value ==> !OccursAt(s, p, j)
    ensures r.None? ==> forall j: nat :: !OccursAt(s, p, j)
  {
    FindFrom(s, p, 0)
  }

  /** Python's `p in s`. */
  predicate Contains(s: string, p: string) {
    Find(s, p).Some?
  }

  lemma OccursContains(s: string, p: string, i: nat)
    requires OccursAt(s, p, i)
    ensures Contains(s, p)
  {
  }

  /** The text of `s` before the first `p`, or all of `s` when `p` does not occur. */
  function UpTo(s: string, p: string): string {
    match Find(s, p)
    case None => s
    case Some(i) => s[..i]
  }

  /** `s.count(p)`: the number of non-overlapping occurrences, scanning left to right. */
  function Count(s: string, p: string): nat
    requires |p| > 0
    decreases |s|
  {
    match Find(s, p)
    case None => 0
    case Some(i) => 1 + Count(s[i + |p|..], p)
  }

  /** `s.split(p)`: the pieces between non-overlapping occurrences of `p`. */
  function Split(s: string, p: string): (pieces: seq<string>)
    requires |p| > 0
    ensures |pieces| >= 1
    decreases |s|
  {
    match Find(s, p)
    case None => [s]
    case Some(i) => [s[..i]] + Split(s[i + |p|..], p)
  }

  /** `sep.join(pieces)`. */
  function Join(pieces: seq<string>, sep: string): string {
    if |pieces| == 0 then ""
    else if |pieces| == 1 then pieces[0]
    else pieces[0] + sep + Join(pieces[1..], sep)
  }

  /** `s.replace(p, r)`: every non-overlapping occurrence, left to right. */
  function Replace(s: string, p: string, r: string): string
    requires |p| > 0
    decreases |s|
  {
    match Find(s, p)
    case None => s
    case Some(i) => s[..i] + r + Replace(s[i + |p|..], p, r)
  }

  lemma JoinCons(a: string, rest: seq<string>, sep: string)
    requires |rest| >= 1
    ensures Join([a] + rest, sep) == a + sep + Join(rest, sep)
  {
    assert ([a] + rest)[1..] == rest;
  }

  /** The string is the text before the first `p`, then `p`, then the rest. */
  lemma Decompose(s: string, p: string, i: nat)
    requires OccursAt(s, p, i)
    ensures s == s[..i] + p + s[i + |p|..]
  {
    assert s == s[..i] + s[i..i + |p|] + s[i + |p|..];
  }

  /** Splitting and joining with the same separator gives back the string. */
  lemma {:induction false} JoinSplit(s: string, p: string)
    requires |p| > 0
    ensures Join(Split(s, p), p) == s
    decreases |s|
  {
    match Find(s, p)
    case None =>
    case Some(i) =>
      var rest := s[i + |p|..];
      JoinSplit(rest, p);
      JoinCons(s[..i], Split(rest, p), p);
      Decompose(s, p, i);
  }

  /** There is one more piece than there are occurrences: `len(s.split(p)) == s.count(p) + 1`. */
  lemma {:induction false} SplitCount(s: string, p: string)
    requires |p| > 0
    ensures |Split(s, p)| == Count(s, p) + 1
    decreases |s|
  {
    match Find(s, p)
    case None =>
    case Some(i) => SplitCount(s[i + |p|..], p);
  }

  /** `s.replace(p, r) == r.join(s.split(p))`. */
  lemma {:induction false} ReplaceIsJoinSplit(s: string, p: string, r: string)
    requires |p| > 0
    ensures Replace(s, p, r) == Join(Split(s, p), r)
    decreases |s|
  {
    match Find(s, p)
    case None =>
    case Some(i) =>
      var rest := s[i + |p|..];
      assert Replace(s, p, r) == s[..i] + r + Replace(rest, p, r);
      assert Split(s, p) == [s[..i]] + Split(rest, p);
      ReplaceIsJoinSplit(rest, p, r);
      JoinCons(s[..i], Split(rest, p), r);
  }

  /** A string without `p` is left alone by replace and split, and has count 0. */
  lemma Absent(s: string, p: string, r: string)
    requires |p| > 0 && !Contains(s, p)
    ensures Replace(s, p, r) == s && Split(s, p) == [s] && Count(s, p) == 0
  {
  }

  lemma Distribute(c: int, d: int)
    ensures (1 + c) * d == d + c * d
  {
  }

  /** Each replaced occurrence changes the length by `|r| - |p|`. */
  lemma {:induction false} ReplaceLength(s: string, p: string, r: string)
    requires |p| > 0
    ensures |Replace(s, p, r)| == |s| + Count(s, p) * (|r| - |p|)
    decreases |s|
  {
    match Find(s, p)
    case None =>
    case Some(i) =>
      var rest := s[i + |p|..];
      ReplaceLength(rest, p, r);
      var c, d := Count(rest, p), |r| - |p|;
      assert Count(s, p) == 1 + c;
      assert |Replace(s, p, r)| == i + |r| + |Replace(rest, p, r)|;
      assert |rest| == |s| - i - |p|;
      Distribute(c, d);
  }

  /** `s.rfind(c)` for one character. */
  function LastIndexOf(s: string, c: char): (r: Option<nat>)
    ensures r.Some? ==> r.value < |s| && s[r.value] == c
    ensures r.Some? ==> forall k :: r.value < k < |s| ==> s[k] != c
    ensures r.None? ==> forall k :: 0 <= k < |s| ==> s[k] != c
  {
    if s == [] then None
    else if s[|s| - 1] == c then Some(|s| - 1)
    else LastIndexOf(s[..|s| - 1], c)
  }

  /** The last occurrence of a character is the one with none after it. */
  lemma LastIndexOfAt(s: string, c: char, i: nat)
    requires i < |s| && s[i] == c
    requires forall k :: i < k < |s| ==> s[k] != c
    ensures LastIndexOf(s, c) == Some(i)
  {
  }

  /** An occurrence inside a slice is an occurrence in the whole string. */
  lemma ContainsSlice(s: string, a: nat, b: nat, p: string)
    requires a <= b <= |s|
    requires Contains(s[a..b], p)
    ensures Contains(s, p)
  {
    var t := s[a..b];
    var j := Find(t, p).value;
    assert OccursAt(t, p, j);
    SliceOfSlice(s, a, b, a + j, |p|);
    OccursContains(s, p, a + j);
  }

  /** The text before the first occurrence contains no occurrence. */
  lemma UpToFree(s: string, p: string)
    requires |p| > 0
    ensures !Contains(UpTo(s, p), p)
  {
    match Find(s, p)
    case None =>
    case Some(i) =>
      if Contains(s[..i], p) {
        var j := Find(s[..i], p).value;
        assert s[..i][j..j + |p|] == s[j..j + |p|];
        assert OccursAt(s, p, j);
      }
  }

  /** No piece of a split contains the separator. */
  lemma {:induction false} SplitPiecesFree(s: string, p: string)
    requires |p| > 0
    ensures forall k :: 0 <= k < |Split(s, p)| ==> !Contains(Split(s, p)[k], p)
    decreases |s|
  {
    match Find(s, p)
    case None =>
    case Some(i) =>
      var rest := Split(s[i + |p|..], p);
      UpToFree(s, p);
      SplitPiecesFree(s[i + |p|..], p);
      assert Split(s, p) == [s[..i]] + rest;
      forall k | 0 <= k < |Split(s, p)| ensures !Contains(Split(s, p)[k], p) {
        if k > 0 {
          assert Split(s, p)[k] == rest[k - 1];
        }
      }
  }

  /** The first piece of a split is the text before the first separator. */
  lemma SplitFirst(s: string, p: string)
    requires |p| > 0
    ensures Split(s, p)[0] == UpTo(s, p)
  {
  }

  /** The second piece of a split is the text after the first separator, up to the next one. */
  lemma SplitSecond(s: string, p: string, i: nat)
    requires |p| > 0 && Find(s, p) == Some(i)
    ensures |Split(s, p)| >= 2 && Split(s, p)[1] == UpTo(s[i + |p|..], p)
  {
    var rest := s[i + |p|..];
    assert Split(s, p) == [s[..i]] + Split(rest, p);
    SplitFirst(rest, p);
    assert Split(s, p)[1] == Split(rest, p)[0];
  }

  /** An occurrence in a prefix `s[..j]` is an occurrence in `s` that ends by `j`. */
  lemma OccursInPrefix(s: string, p: string, j: nat, g: nat)
    requires j <= |s|
    ensures OccursAt(s[..j], p, g) <==> OccursAt(s, p, g) && g + |p| <= j
  {
    if g + |p| <= j {
      assert s[..j][g..g + |p|] == s[g..g + |p|];
    }
  }

  /** Cutting `s` at `j` keeps its first occurrence of `p` when that ends by `j`, and loses every one otherwise. */
  lemma UpToPrefix(s: string, p: string, j: nat)
    requires j <= |s| && |p| > 0
    ensures Find(s, p).Some? && Find(s, p).value + |p| <= j ==> UpTo(s[..j], p) == UpTo(s, p)
    ensures Find(s, p).Some? && Find(s, p).value == j ==> UpTo(s[..j], p) == UpTo(s, p)
  {
    var t := s[..j];
    forall g: nat ensures OccursAt(t, p, g) <==> OccursAt(s, p, g) && g + |p| <= j {
      OccursInPrefix(s, p, j, g);
    }
    if Find(s, p).Some? {
      var f := Find(s, p).value;
      if f + |p| <= j {
        assert OccursAt(t, p, f);
        var f' := Find(t, p).value;
        assert OccursAt(s, p, f');
        assert f' == f;
        assert t[..f] == s[..f];
      } else if f == j {
        assert Find(t, p).None?;
      }
    }
  }

  /** An occurrence of `p` just after a prefix. */
  lemma ContainsMiddle(a: string, p: string, b: string)
    ensures Contains(a + p + b, p)
  {
    assert (a + p + b)[|a|..|a| + |p|] == p;
    OccursContains(a + p + b, p, |a|);
  }

  /** In a text made of seven pieces, the second, fourth and sixth occur and the last two end it. */
  lemma SevenPieces(a: string, b: string, c: string, d: string, e: string, f: string, g: string)
    ensures Contains(a + b + c + d + e + f + g, b)
    ensures Contains(a + b + c + d + e + f + g, d)
    ensures Contains(a + b + c + d + e + f + g, f)
    ensures var s := a + b + c + d + e + f + g;
      |f + g| <= |s| && s[|s| - |f + g|..] == f + g
  {
    var s := a + b + c + d + e + f + g;
    assert s == a + b + (c + d + e + f + g);
    ContainsMiddle(a, b, c + d + e + f + g);
    assert s == (a + b + c) + d + (e + f + g);
    ContainsMiddle(a + b + c, d, e + f + g);
    assert s == (a + b + c + d + e) + f + g;
    ContainsMiddle(a + b + c + d + e, f, g);
    assert s == (a + b + c + d + e) + (f + g);
  }

  // ---------------------------------------------------------------------------------------
  // Whitespace, strip and lower

  /** Python's `str.isspace` for one character. */
  predicate IsSpace(c: char) {
    c == ' ' || ('\t' <= c <= '\r') || ('\U{1c}' <= c <= '\U{1f}') || c == '\U{85}' || c == '\U{a0}'
    || c == '\U{1680}' || ('\U{2000}' <= c <= '\U{200a}') || c == '\U{2028}' || c == '\U{2029}'
    || c == '\U{202f}' || c == '\U{205f}' || c == '\U{3000}'
  }

  /** `s.lstrip()` */
  function TrimStart(s: string): string
    decreases |s|
  {
    if |s| > 0 && IsSpace(s[0]) then TrimStart(s[1..]) else s
  }

  /** `s.rstrip()` */
  function TrimEnd(s: string): string
    decreases |s|
  {
    if |s| > 0 && IsSpace(s[|s| - 1]) then TrimEnd(s[..|s| - 1]) else s
  }

  /** `s.strip()` */
  function Strip(s: string): string {
    TrimEnd(TrimStart(s))
  }

  /** `lstrip` removes a prefix of whitespace and leaves a text that does not start with any. */
  lemma {:induction false} TrimStartSpec(s: string)
    ensures var r := TrimStart(s);
      |r| <= |s| && r == s[|s| - |r|..]
      && (forall k :: 0 <= k < |s| - |r| ==> IsSpace(s[k]))
      && (r == [] || !IsSpace(r[0]))
    decreases |s|
  {
    if |s| > 0 && IsSpace(s[0]) {
      var t := s[1..];
      TrimStartSpec(t);
      var r := TrimStart(t);
      assert r == s[|s| - |r|..];
      forall k | 0 <= k < |s| - |r| ensures IsSpace(s[k]) {
        if k > 0 {
          assert s[k] == t[k - 1];
        }
      }
    }
  }

  /** `rstrip` removes a suffix of whitespace and leaves a text that does not end with any. */
  lemma {:induction false} TrimEndSpec(s: string)
    ensures var r := TrimEnd(s);
      |r| <= |s| && r == s[..|r|]
      && (forall k :: |r| <= k < |s| ==> IsSpace(s[k]))
      && (r == [] || !IsSpace(r[|r| - 1]))
    decreases |s|
  {
    if |s| > 0 && IsSpace(s[|s| - 1]) {
      var t := s[..|s| - 1];
      TrimEndSpec(t);
      var r := TrimEnd(t);
      assert r == s[..|r|];
      forall k | |r| <= k < |s| ensures IsSpace(s[k]) {
        if k < |s| - 1 {
          assert s[k] == t[k];
        }
      }
    }
  }

  /** Neither end of what `strip` returns is whitespace. */
  lemma StripEnds(s: string)
    ensures var r := Strip(s); |r| <= |s| && (r == [] || (!IsSpace(r[0]) && !IsSpace(r[|r| - 1])))
  {
    var t := TrimStart(s);
    TrimStartSpec(s);
    TrimEndSpec(t);
    var r := TrimEnd(t);
    assert r != [] ==> r[0] == t[0];
  }

  /** `s.strip()` keeps a contiguous slice of `s` and removes only whitespace around it. */
  lemma StripSlice(s: string) returns (a: nat, b: nat)
    ensures a <= b <= |s| && Strip(s) == s[a..b]
    ensures forall k :: 0 <= k < a ==> IsSpace(s[k])
    ensures forall k :: b <= k < |s| ==> IsSpace(s[k])
  {
    var t := TrimStart(s);
    var r := TrimEnd(t);
    TrimStartSpec(s);
    TrimEndSpec(t);
    a := |s| - |t|;
    b := a + |r|;
    assert t == s[a..];
    assert r == t[..|r|];
    assert r == s[a..b];
    forall k | b <= k < |s| ensures IsSpace(s[k]) {
      assert s[k] == t[k - a];
    }
  }

  /** Stripping an already stripped string changes nothing. */
  lemma StripIdempotent(s: string)
    ensures Strip(Strip(s)) == Strip(s)
  {
    var r := Strip(s);
    StripEnds(s);
    assert TrimStart(r) == r;
    assert TrimEnd(r) == r;
  }

  /** What `strip` returns occurs in its input. */
  lemma StripContainedIn(s: string, p: string)
    requires Contains(Strip(s), p)
    ensures Contains(s, p)
  {
    var a, b := StripSlice(s);
    ContainsSlice(s, a, b, p);
  }

  /** Two non-space positions of `s` lie inside a slice outside which there is only whitespace. */
  lemma WithinSlice(s: string, a: nat, b: nat, i: nat, j: nat)
    requires a <= b <= |s| && i <= j < |s|
    requires forall k :: 0 <= k < a ==> IsSpace(s[k])
    requires forall k :: b <= k < |s| ==> IsSpace(s[k])
    requires !IsSpace(s[i]) && !IsSpace(s[j])
    ensures a <= i && j < b
  {
  }

  lemma SliceOfSlice(s: string, a: nat, b: nat, j: nat, n: nat)
    requires a <= j && j + n <= b <= |s|
    ensures s[a..b][j - a..j - a + n] == s[j..j + n]
  {
    var t, u := s[a..b][j - a..j - a + n], s[j..j + n];
    assert forall k :: 0 <= k < n ==> t[k] == u[k];
  }

  /** Stripping cannot make a pattern occur. */
  lemma StripAbsent(s: string, p: string)
    requires !Contains(s, p)
    ensures !Contains(Strip(s), p)
  {
    if Contains(Strip(s), p) {
      StripContainedIn(s, p);
    }
  }

  /** A pattern with no whitespace that occurs in `s` survives `strip`. */
  lemma StripKeeps(s: string, p: string)
    requires |p| > 0 && forall k :: 0 <= k < |p| ==> !IsSpace(p[k])
    requires Contains(s, p)
    ensures Contains(Strip(s), p)
  {
    var a, b := StripSlice(s);
    var j := Find(s, p).value;
    var n := |p|;
    assert s[j..j + n] == p;
    assert !IsSpace(s[j]) by { assert s[j..j + n][0] == s[j]; }
    assert !IsSpace(s[j + n - 1]) by { assert s[j..j + n][n - 1] == s[j + n - 1]; }
    WithinSlice(s, a, b, j, j + n - 1);
    SliceOfSlice(s, a, b, j, n);
    OccursContains(s[a..b], p, j - a);
  }

  /** ASCII lower-casing of one character. */
  function LowerChar(c: char): char {
    if 'A' <= c <= 'Z' then (c as int + 32) as char else c
  }

  /** `s.lower()`, for the ASCII letters. */
  function Lower(s: string): (r: string)
    ensures |r| == |s|
  {
    seq(|s|, i requires 0 <= i < |s| => LowerChar(s[i]))
  }

  // ---------------------------------------------------------------------------------------
  // Decimal rendering of integers, as `str(n)` and f-strings produce it

  function Digit(d: nat): (c: char)
    requires d < 10
    ensures '0' <= c <= '9' && DigitValue(c) == d
  {
    ('0' as int + d) as char
  }

  function DigitValue(c: char): nat {
    if '0' <= c <= '9' then c as int - '0' as int else 0
  }

  /** `str(n)` for a non-negative integer. */
  function NatToString(n: nat): (r: string)
    ensures |r| >= 1
    ensures forall k :: 0 <= k < |r| ==> '0' <= r[k] <= '9'
  {
    if n < 10 then [Digit(n)] else NatToString(n / 10) + [Digit(n % 10)]
  }

  /** `str(i)` for any integer. */
  function IntToString(i: int): string {
    if i < 0 then "-" + NatToString(-i) else NatToString(i)
  }

  /** `int(s)` on a string of decimal digits. */
  function ParseNat(s: string): nat {
    if s == [] then 0 else ParseNat(s[..|s| - 1]) * 10 + DigitValue(s[|s| - 1])
  }

  /** Rendering and then reading back a natural number gives the number. */
  lemma {:induction false} ParseNatToString(n: nat)
    ensures ParseNat(NatToString(n)) == n
  {
    var s := NatToString(n);
    if n >= 10 {
      var q, d := n / 10, n % 10;
      ParseNatToString(q);
      assert s == NatToString(q) + [Digit(d)];
      assert s[..|s| - 1] == NatToString(q);
      assert ParseNat(s) == ParseNat(NatToString(q)) * 10 + d;
    }
  }

  /** Different numbers render differently. */
  lemma NatToStringInjective(m: nat, n: nat)
    requires NatToString(m) == NatToString(n)
    ensures m == n
  {
    ParseNatToString(m);
    ParseNatToString(n);
  }
}

/**
 * String helpers shared by every module: the JavaScript whitespace class
 * (`\s` and `String.prototype.trim`), `indexOf`, `includes`, `substring`,
 * `join`, `split(/\s+/)` and ASCII lower-casing. A Dafny `string` is a
 * sequence of Unicode scalar values, which coincides with JavaScript's UTF-16
 * units for every character of the Basic Multilingual Plane.
 */
module Text {

  /** The characters of JavaScript's `\s` class, which is also what `trim` strips. */
  predicate IsSpace(c: char) {
    c == ' ' || c == '\t' || c == '\n' || c == '\r' || c == '\U{000B}' || c == '\U{000C}'
    || c == '\U{00A0}' || c == '\U{1680}' || ('\U{2000}' <= c <= '\U{200A}')
    || c == '\U{2028}' || c == '\U{2029}' || c == '\U{202F}' || c == '\U{205F}'
    || c == '\U{3000}' || c == '\U{FEFF}'
  }

  predicate AllSpace(s: string) {
    forall i :: 0 <= i < |s| ==> IsSpace(s[i])
  }

  /** `s.trimStart()`. */
  function TrimStart(s: string): string {
    if s == [] || !IsSpace(s[0]) then s else TrimStart(s[1..])
  }

  /** `s.trimEnd()`. */
  function TrimEnd(s: string): string {
    if s == [] || !IsSpace(s[|s| - 1]) then s else TrimEnd(s[..|s| - 1])
  }

  /** `trimStart` leaves the suffix that follows the leading whitespace. */
  lemma {:induction false} TrimStartSpec(s: string)
    ensures var r := TrimStart(s);
            |r| <= |s| && r == s[|s| - |r|..] && AllSpace(s[..|s| - |r|])
            && (r == [] || !IsSpace(r[0]))
  {
    if s != [] && IsSpace(s[0]) {
      TrimStartSpec(s[1..]);
      var r := TrimStart(s[1..]);
      var lead := s[..|s| - |r|];
      forall k | 0 <= k < |lead| ensures IsSpace(lead[k]) {
        if k > 0 {
          assert lead[k] == s[1..][..|s[1..]| - |r|][k - 1];
        }
      }
    }
  }

  /** `trimEnd` leaves the prefix that precedes the trailing whitespace. */
  lemma {:induction false} TrimEndSpec(s: string)
    ensures var r := TrimEnd(s);
            |r| <= |s| && r == s[..|r|] && AllSpace(s[|r|..])
            && (r == [] || !IsSpace(r[|r| - 1]))
  {
    if s != [] && IsSpace(s[|s| - 1]) {
      TrimEndSpec(s[..|s| - 1]);
      var r := TrimEnd(s[..|s| - 1]);
      var tail := s[|r|..];
      forall k | 0 <= k < |tail| ensures IsSpace(tail[k]) {
        if k < |tail| - 1 {
          assert tail[k] == s[..|s| - 1][|r|..][k];
        }
      }
    }
  }

  /** `s.trim()`. */
  function Trim(s: string): string {
    TrimEnd(TrimStart(s))
  }

  /** `trim` keeps a contiguous slice of its input, drops only whitespace, and
      leaves no whitespace at either end. */
  lemma TrimIsSlice(s: string)
    ensures exists i, j :: 0 <= i <= j <= |s| && Trim(s) == s[i..j]
                           && AllSpace(s[..i]) && AllSpace(s[j..])
    ensures Trim(s) == [] || (!IsSpace(Trim(s)[0]) && !IsSpace(Trim(s)[|Trim(s)| - 1]))
  {
    var t := TrimStart(s);
    TrimStartSpec(s);
    var r := TrimEnd(t);
    TrimEndSpec(t);
    var i := |s| - |t|;
    assert s[i..i + |r|] == r;
    assert s[i + |r|..] == t[|r|..];
    if r != [] {
      assert r[0] == t[0];
    }
  }

  /** `trim` is the identity on a string that has no whitespace at either end. */
  lemma TrimNoop(s: string)
    requires s == [] || (!IsSpace(s[0]) && !IsSpace(s[|s| - 1]))
    ensures Trim(s) == s
  {
  }

  /** `trim` only shortens. */
  lemma TrimShorter(s: string)
    ensures |Trim(s)| <= |s|
  {
    TrimStartSpec(s);
    TrimEndSpec(TrimStart(s));
  }

  /** `trim` yields the empty string exactly when its input is all whitespace. */
  lemma TrimEmptyIff(s: string)
    ensures Trim(s) == [] <==> AllSpace(s)
  {
    var t := TrimStart(s);
    TrimStartSpec(s);
    TrimEndSpec(t);
    if t != [] {
      assert !IsSpace(t[0]);
      assert s[|s| - |t|] == t[0];
    }
  }

  /** Leading whitespace makes no difference to `trimStart`. */
  lemma {:induction false} TrimStartSpacePrefix(p: string, b: string)
    requires AllSpace(p)
    ensures TrimStart(p + b) == TrimStart(b)
    decreases |p|
  {
    if p != [] {
      assert (p + b)[1..] == p[1..] + b;
      TrimStartSpacePrefix(p[1..], b);
    } else {
      assert p + b == b;
    }
  }

  /** True when the pattern `p` starts at position `i` of `s`. */
  predicate OccursAt(s: string, p: string, i: int) {
    0 <= i && i + |p| <= |s| && s[i..i + |p|] == p
  }

  lemma OccursAfter(h: string, c: string, p: string)
    ensures (h + c)[..|h|] == h
    ensures OccursAt(h + c, p, |h|) <==> OccursAt(c, p, 0)
  {
    if |p| <= |c| {
      assert (h + c)[|h|..|h| + |p|] == c[..|p|];
    }
  }

  lemma PrefixExtend(u: string, v: string, k: nat)
    requires k <= |u|
    ensures (u + v)[..k] == u[..k]
  {
  }

  lemma SuffixExtend(u: string, v: string, k: nat)
    requires k <= |v|
    ensures (u + v)[|u + v| - k..] == v[|v| - k..]
  {
  }

  lemma Assoc(a: string, b: string, c: string)
    ensures a + b + c == a + (b + c)
  {
  }

  /** `s.includes(p)`. */
  predicate Contains(s: string, p: string) {
    exists i | 0 <= i <= |s| - |p| :: OccursAt(s, p, i)
  }

  /** `s.indexOf(p, from)` for `from >= 0`: the first occurrence at or after
      `from`, or -1 when there is none. */
  function IndexOfFrom(s: string, p: string, from: nat): (r: int)
    decreases |s| - from
    ensures r == -1 || (from <= r && OccursAt(s, p, r))
  {
    if from + |p| > |s| then -1
    else if s[from..from + |p|] == p then from
    else IndexOfFrom(s, p, from + 1)
  }

  /** `indexOf` is -1 exactly when nothing occurs at or after `from`, and
      otherwise nothing occurs between `from` and the index found. */
  lemma {:induction false} IndexOfFromMinimal(s: string, p: string, from: nat)
    decreases |s| - from
    ensures IndexOfFrom(s, p, from) == -1 <==> forall j :: from <= j ==> !OccursAt(s, p, j)
    ensures IndexOfFrom(s, p, from) != -1 ==>
              forall j :: from <= j < IndexOfFrom(s, p, from) ==> !OccursAt(s, p, j)
  {
    if from + |p| <= |s| && s[from..from + |p|] != p {
      IndexOfFromMinimal(s, p, from + 1);
    }
  }

  /** The converse: an occurrence at `r` with none between `from` and `r` is
      the index found. */
  lemma {:induction false} IndexOfFromIs(s: string, p: string, from: nat, r: nat)
    requires from <= r && OccursAt(s, p, r)
    requires forall j :: from <= j < r ==> !OccursAt(s, p, j)
    ensures IndexOfFrom(s, p, from) == r
    decreases r - from
  {
    if from < r {
      assert !OccursAt(s, p, from);
      IndexOfFromIs(s, p, from + 1, r);
    }
  }

  /** `s.indexOf(p)`. */
  function IndexOf(s: string, p: string): int {
    IndexOfFrom(s, p, 0)
  }

  lemma IndexOfFound(s: string, p: string)
    ensures IndexOf(s, p) != -1 <==> Contains(s, p)
  {
    IndexOfFromMinimal(s, p, 0);
    if Contains(s, p) {
      var i :| OccursAt(s, p, i);
    }
  }

  /** The start `from` is only a lower bound: when nothing occurs between
      `from` and `from2`, searching from either gives the same answer. */
  lemma IndexOfFromSkip(s: string, p: string, from: nat, from2: nat)
    requires from <= from2
    requires forall j :: from <= j < from2 ==> !OccursAt(s, p, j)
    ensures IndexOfFrom(s, p, from) == IndexOfFrom(s, p, from2)
  {
    var r := IndexOfFrom(s, p, from);
    var r2 := IndexOfFrom(s, p, from2);
    IndexOfFromMinimal(s, p, from);
    IndexOfFromMinimal(s, p, from2);
    if r2 != -1 {
      assert r != -1;
    }
  }

  /** A character that differs from the pattern's rules the occurrence out. */
  lemma Mismatch(s: string, p: string, i: int, k: int)
    requires 0 <= i <= k < i + |p| && k < |s| && s[k] != p[k - i]
    ensures !OccursAt(s, p, i)
  {
    if i + |p| <= |s| {
      assert s[i..i + |p|][k - i] == s[k];
    }
  }

  /** An occurrence inside the left part of a concatenation is an occurrence
      in that part, and one inside the right part is one in the right part. */
  lemma OccursAtConcat(u: string, v: string, p: string, i: int)
    requires OccursAt(u + v, p, i)
    ensures i + |p| <= |u| ==> OccursAt(u, p, i)
    ensures i >= |u| ==> OccursAt(v, p, i - |u|)
  {
    var s := u + v;
    if i + |p| <= |u| {
      assert s[i..i + |p|] == u[i..i + |p|];
    }
    if i >= |u| {
      assert s[i..i + |p|] == v[i - |u|..i - |u| + |p|];
    }
  }

  lemma OccursAtExtend(u: string, v: string, p: string, i: int)
    requires OccursAt(u, p, i)
    ensures OccursAt(u + v, p, i)
  {
    assert (u + v)[i..i + |p|] == u[i..i + |p|];
  }

  /** Appending text never moves an occurrence that was already there. */
  lemma IndexOfFromPrefix(u: string, v: string, p: string, from: nat)
    requires IndexOfFrom(u, p, from) != -1
    ensures IndexOfFrom(u + v, p, from) == IndexOfFrom(u, p, from)
  {
    var r := IndexOfFrom(u, p, from);
    IndexOfFromMinimal(u, p, from);
    OccursAtExtend(u, v, p, r);
    forall j | from <= j < r
      ensures !OccursAt(u + v, p, j)
    {
      if OccursAt(u + v, p, j) {
        OccursAtConcat(u, v, p, j);
      }
    }
    IndexOfFromIs(u + v, p, from, r);
  }

  /** The head character of `p` occurs nowhere else in `p`. */
  predicate UniqueHead(p: string) {
    |p| > 0 && forall k :: 0 < k < |p| ==> p[k] != p[0]
  }

  /** For a pattern with a unique head that does not occur in `x`, the first
      occurrence in `x + p + y` is the one right after `x`. */
  lemma IndexOfAfter(x: string, p: string, y: string)
    requires UniqueHead(p) && !Contains(x, p)
    ensures IndexOf(x + p + y, p) == |x|
  {
    var s := x + p + y;
    assert s[|x|..|x| + |p|] == p;
    assert OccursAt(s, p, |x|);
    forall j | 0 <= j < |x|
      ensures !OccursAt(s, p, j)
    {
      if j + |p| <= |x| {
        assert s[j..j + |p|] == x[j..j + |p|];
        assert !OccursAt(x, p, j);
      } else {
        assert s[|x|] == p[0];
        Mismatch(s, p, j, |x|);
      }
    }
    IndexOfFromIs(s, p, 0, |x|);
  }

  /** JavaScript `substring(a, b)`: both ends clamped into `[0, |s|]`, then
      swapped if the first is the larger. */
  function Clamp(n: int, len: nat): (r: nat)
    ensures r <= len
  {
    if n < 0 then 0 else if n > len then len else n
  }

  function Substring(s: string, a: int, b: int): (r: string)
    ensures |r| <= |s|
  {
    var lo, hi := Clamp(a, |s|), Clamp(b, |s|);
    if lo <= hi then s[lo..hi] else s[hi..lo]
  }

  /** JavaScript `substring(a)`. */
  function SubstringFrom(s: string, a: int): (r: string)
    ensures |r| <= |s|
  {
    s[Clamp(a, |s|)..]
  }

  function Min(a: nat, b: nat): nat {
    if a <= b then a else b
  }

  /** `s.substring(0, n)` for a natural `n`: the first `min(n, |s|)` characters. */
  function Take(s: string, n: nat): (r: string)
    ensures |r| == if |s| <= n then |s| else n
    ensures r == s[..|r|]
  {
    if |s| <= n then s else s[..n]
  }

  /** `parts.join(sep)`. */
  function Join(parts: seq<string>, sep: string): string {
    if parts == [] then []
    else if |parts| == 1 then parts[0]
    else parts[0] + sep + Join(parts[1..], sep)
  }

  /** `s.toLowerCase()` restricted to ASCII letters; every other character is kept. */
  function LowerChar(c: char): char {
    if 'A' <= c <= 'Z' then (c as int + 32) as char else c
  }

  function Lower(s: string): (r: string)
    ensures |r| == |s|
    ensures forall i :: 0 <= i < |s| ==> r[i] == LowerChar(s[i])
  {
    seq(|s|, i requires 0 <= i < |s| => LowerChar(s[i]))
  }

  /** Length of the leading run of non-whitespace characters. */
  function RunLength(s: string): (n: nat)
    ensures n <= |s|
    ensures forall i :: 0 <= i < n ==> !IsSpace(s[i])
    ensures n == |s| || IsSpace(s[n])
  {
    if s == [] || IsSpace(s[0]) then 0 else 1 + RunLength(s[1..])
  }

  /** Text found in a suffix is found in the whole string. */
  lemma ContainsSuffix(s: string, d: nat, t: string)
    requires d <= |s| && Contains(s[d..], t)
    ensures Contains(s, t)
  {
    var i :| 0 <= i <= |s[d..]| - |t| && OccursAt(s[d..], t, i);
    assert s[d + i..d + i + |t|] == s[d..][i..i + |t|];
    assert OccursAt(s, t, d + i);
  }

  /** The non-empty pieces of `s.split(/\s+/)`: the maximal runs of
      non-whitespace characters, in order. */
  function Tokens(s: string): (r: seq<string>)
    decreases |s|
    ensures forall k :: 0 <= k < |r| ==> |r[k]| > 0 && Contains(s, r[k])
  {
    if s == [] then []
    else
      var n := if IsSpace(s[0]) then 1 else RunLength(s);
      var r := Tokens(s[n..]);
      forall k | 0 <= k < |r| ensures Contains(s, r[k]) {
        ContainsSuffix(s, n, r[k]);
      }
      if IsSpace(s[0]) then r
      else
        assert OccursAt(s, s[..n], 0);
        [s[..n]] + r
  }

  /** Decimal rendering of a natural number, as a template literal shows it. */
  function DigitChar(d: nat): char
    requires d < 10
  {
    "0123456789"[d]
  }

  function NatToString(n: nat): (r: string)
    ensures |r| > 0
    ensures forall i :: 0 <= i < |r| ==> '0' <= r[i] <= '9'
  {
    if n < 10 then [DigitChar(n)] else NatToString(n / 10) + [DigitChar(n % 10)]
  }
}

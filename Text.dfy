/**
 * The operations the scripts borrow from Python's `str`: `strip`, `lower`,
 * substring search (`in`, `find`), `replace`, `join`, prefix slicing and
 * `str(int)`. Characters beyond ASCII are not modelled.
 */
module Text {
  import opened Wrappers

  /** `c.isspace()` on ASCII: space, TAB, LF, VT, FF, CR and the separators 0x1C-0x1F. */
  predicate IsSpace(c: char) {
    c == ' ' || 9 <= c as int <= 13 || 28 <= c as int <= 31
  }

  /**
   * `s.strip()`: `s` without its leading and trailing white space. The
   * result is a slice of `s` that neither starts nor ends with white space,
   * and it is empty exactly when `s` is all white space.
   */
  function Strip(s: string): (r: string)
    ensures |r| <= |s|
    ensures r != [] ==> !IsSpace(r[0]) && !IsSpace(r[|r| - 1])
    ensures r == [] <==> forall i :: 0 <= i < |s| ==> IsSpace(s[i])
    decreases |s|
  {
    if s != [] && IsSpace(s[0]) then
      var r := Strip(s[1..]);
      assert r == [] ==> forall i :: 0 <= i < |s| ==> IsSpace(s[i]) by {
        if r == [] {
          forall i | 0 <= i < |s| ensures IsSpace(s[i]) {
            if i > 0 {
              assert s[i] == s[1..][i - 1];
            }
          }
        }
      }
      r
    else if s != [] && IsSpace(s[|s| - 1]) then
      Strip(s[..|s| - 1])
    else s
  }

  /** The stripped text is a slice of `s` with only white space cut off either end. */
  lemma StripIsSlice(s: string)
    ensures exists a, b | 0 <= a <= b <= |s| ::
              Strip(s) == s[a..b] && (forall k | 0 <= k < a :: IsSpace(s[k])) && (forall k | b <= k < |s| :: IsSpace(s[k]))
  {
    var a, b := StripBounds(s);
  }

  /** Where `Strip(s)` lies in `s`: from `a` to `b`, with only white space before and after. */
  lemma {:induction false} StripBounds(s: string) returns (a: nat, b: nat)
    ensures a <= b <= |s| && Strip(s) == s[a..b]
    ensures forall k | 0 <= k < a :: IsSpace(s[k])
    ensures forall k | b <= k < |s| :: IsSpace(s[k])
    decreases |s|, 1
  {
    if s != [] && IsSpace(s[0]) {
      a, b := StripFrontBounds(s);
    } else if s != [] && IsSpace(s[|s| - 1]) {
      a, b := StripBackBounds(s);
    } else {
      a, b := 0, |s|;
      assert Strip(s) == s[0..|s|];
    }
  }

  /** `StripBounds` when `s` starts with white space: the bounds of `s[1..]`, one further on. */
  lemma {:induction false} StripFrontBounds(s: string) returns (a: nat, b: nat)
    requires s != [] && IsSpace(s[0])
    ensures a <= b <= |s| && Strip(s) == s[a..b]
    ensures forall k | 0 <= k < a :: IsSpace(s[k])
    ensures forall k | b <= k < |s| :: IsSpace(s[k])
    decreases |s|, 0
  {
    var t := s[1..];
    assert Strip(s) == Strip(t);
    var a', b' := StripBounds(t);
    a, b := a' + 1, b' + 1;
    assert t[a'..b'] == s[a..b];
    assert forall k | 1 <= k < |s| :: s[k] == t[k - 1];
  }

  /** `StripBounds` when `s` ends with white space (and does not start with it): the bounds of `s` without its last character. */
  lemma {:induction false} StripBackBounds(s: string) returns (a: nat, b: nat)
    requires s != [] && !IsSpace(s[0]) && IsSpace(s[|s| - 1])
    ensures a <= b <= |s| && Strip(s) == s[a..b]
    ensures forall k | 0 <= k < a :: IsSpace(s[k])
    ensures forall k | b <= k < |s| :: IsSpace(s[k])
    decreases |s|, 0
  {
    var t := s[..|s| - 1];
    assert Strip(s) == Strip(t);
    a, b := StripBounds(t);
    assert t[a..b] == s[a..b];
    assert forall k | 0 <= k < |t| :: s[k] == t[k];
  }

  function LowerChar(c: char): char {
    if 'A' <= c <= 'Z' then (c as int + 32) as char else c
  }

  /** `s.lower()` on ASCII letters. */
  function Lower(s: string): (r: string)
    ensures |r| == |s|
    ensures forall i :: 0 <= i < |s| ==> r[i] == LowerChar(s[i])
  {
    if s == [] then [] else [LowerChar(s[0])] + Lower(s[1..])
  }

  predicate IsPrefix(p: string, s: string) {
    |p| <= |s| && s[..|p|] == p
  }

  predicate EndsWith(s: string, p: string) {
    |p| <= |s| && s[|s| - |p|..] == p
  }

  predicate OccursAt(s: string, pat: string, i: int) {
    0 <= i && i + |pat| <= |s| && s[i..i + |pat|] == pat
  }

  /** Python's `pat in s`. */
  predicate Contains(s: string, pat: string) {
    exists i | 0 <= i <= |s| - |pat| :: OccursAt(s, pat, i)
  }

  /** `s.find(pat, from)`: the first index at or after `from` where `pat` occurs. */
  function FindFrom(s: string, pat: string, from: nat): (r: Option<nat>)
    ensures r.Some? ==> from <= r.value && OccursAt(s, pat, r.value)
    decreases |s| - from
  {
    if from + |pat| > |s| then None
    else if OccursAt(s, pat, from) then Some(from)
    else FindFrom(s, pat, from + 1)
  }

  /** `FindFrom` finds the first occurrence: there is none from `from` up to the index it reports. */
  lemma {:induction false} FindFromBefore(s: string, pat: string, from: nat, b: nat)
    requires FindFrom(s, pat, from) == Some(b)
    ensures forall k | from <= k < b :: !OccursAt(s, pat, k)
    decreases |s| - from
  {
    if from < b {
      FindFromBefore(s, pat, from + 1, b);
    }
  }

  /** When `FindFrom` reports nothing, `pat` occurs nowhere from `from` on. */
  lemma {:induction false} FindFromMissing(s: string, pat: string, from: nat)
    requires FindFrom(s, pat, from).None?
    ensures forall k | from <= k :: !OccursAt(s, pat, k)
    decreases |s| - from
  {
    if from + |pat| <= |s| {
      FindFromMissing(s, pat, from + 1);
    }
  }

  /**
   * Where the lazy pattern `open.*?mid.*?close` matches at `j`, with `.`
   * matching every character: the positions of the first `mid` after
   * `open` and of the first `close` after that.
   */
  function LazySpan(s: string, j: nat, open: string, mid: string, close: string): Option<(nat, nat)> {
    if !OccursAt(s, open, j) then None
    else
      match FindFrom(s, mid, j + |open|)
      case None => None
      case Some(b) =>
        match FindFrom(s, close, b + |mid|)
        case None => None
        case Some(h) => Some((b, h))
  }

  /** A lazy match takes the first `mid` after `open` and the first `close` after that. */
  lemma LazySpanFirst(s: string, j: nat, open: string, mid: string, close: string)
    ensures var r := LazySpan(s, j, open, mid, close);
            r.Some? ==>
              var (b, h) := r.value;
              OccursAt(s, open, j) &&
              j + |open| <= b && OccursAt(s, mid, b) && (forall k | j + |open| <= k < b :: !OccursAt(s, mid, k)) &&
              b + |mid| <= h && OccursAt(s, close, h) && (forall k | b + |mid| <= k < h :: !OccursAt(s, close, k))
  {
    if OccursAt(s, open, j) {
      match FindFrom(s, mid, j + |open|)
      case None =>
      case Some(b) =>
        FindFromBefore(s, mid, j + |open|, b);
        match FindFrom(s, close, b + |mid|)
        case None =>
        case Some(h) =>
          FindFromBefore(s, close, b + |mid|, h);
    }
  }

  /** Two first occurrences of `p` from `from` are the same. */
  lemma FirstUnique(s: string, p: string, from: nat, b: nat, c: nat)
    requires from <= b && OccursAt(s, p, b) && forall k | from <= k < b :: !OccursAt(s, p, k)
    requires from <= c && OccursAt(s, p, c) && forall k | from <= k < c :: !OccursAt(s, p, k)
    ensures b == c
  {
  }

  /** When a lazy match fails, `open` is not at `j`, or no `mid` follows it, or no `close` follows the first `mid`. */
  lemma LazySpanNone(s: string, j: nat, open: string, mid: string, close: string)
    requires LazySpan(s, j, open, mid, close).None?
    ensures !OccursAt(s, open, j) ||
            (forall k | j + |open| <= k :: !OccursAt(s, mid, k)) ||
            (exists b | j + |open| <= b && OccursAt(s, mid, b) ::
               (forall k | j + |open| <= k < b :: !OccursAt(s, mid, k)) &&
               (forall k | b + |mid| <= k :: !OccursAt(s, close, k)))
  {
    if OccursAt(s, open, j) {
      match FindFrom(s, mid, j + |open|)
      case None =>
        FindFromMissing(s, mid, j + |open|);
      case Some(b) =>
        FindFromBefore(s, mid, j + |open|, b);
        FindFromMissing(s, close, b + |mid|);
    }
  }

  /**
   * A lazy match fails exactly when `open` is not at `j`, or no `mid`
   * follows it, or no `close` follows the first `mid` after it.
   */
  lemma LazySpanMissing(s: string, j: nat, open: string, mid: string, close: string)
    ensures LazySpan(s, j, open, mid, close).None? <==>
              !OccursAt(s, open, j) ||
              (forall k | j + |open| <= k :: !OccursAt(s, mid, k)) ||
              (exists b | j + |open| <= b && OccursAt(s, mid, b) ::
                 (forall k | j + |open| <= k < b :: !OccursAt(s, mid, k)) &&
                 (forall k | b + |mid| <= k :: !OccursAt(s, close, k)))
  {
    if LazySpan(s, j, open, mid, close).None? {
      LazySpanNone(s, j, open, mid, close);
    } else {
      var (b, h) := LazySpan(s, j, open, mid, close).value;
      LazySpanFirst(s, j, open, mid, close);
      forall c | j + |open| <= c && OccursAt(s, mid, c) && (forall k | j + |open| <= k < c :: !OccursAt(s, mid, k))
        ensures exists k | c + |mid| <= k :: OccursAt(s, close, k)
      {
        FirstUnique(s, mid, j + |open|, b, c);
        assert OccursAt(s, close, h);
      }
    }
  }

  /**
   * `s.replace(pat, rep)`: a left-to-right scan replaces every occurrence
   * of `pat` it meets and resumes after it, so occurrences never overlap.
   * An empty `pat` matches before every character and at the end.
   */
  function Replace(s: string, pat: string, rep: string): string
    decreases |s|
  {
    if pat == [] then
      (if s == [] then rep else rep + [s[0]] + Replace(s[1..], pat, rep))
    else if s == [] then []
    else if IsPrefix(pat, s) then rep + Replace(s[|pat|..], pat, rep)
    else [s[0]] + Replace(s[1..], pat, rep)
  }

  /** With a one-character pattern, `replace` works piece by piece: on a concatenation it replaces in each part. */
  lemma {:induction false} ReplaceCharAppend(a: string, b: string, c: char, rep: string)
    ensures Replace(a + b, [c], rep) == Replace(a, [c], rep) + Replace(b, [c], rep)
    decreases |a|
  {
    if a != [] {
      assert (a + b)[1..] == a[1..] + b;
      assert IsPrefix([c], a + b) <==> IsPrefix([c], a);
      ReplaceCharAppend(a[1..], b, c, rep);
    } else {
      assert a + b == b;
    }
  }

  /** `sep.join(parts)` */
  function Join(parts: seq<string>, sep: string): string {
    if parts == [] then []
    else if |parts| == 1 then parts[0]
    else parts[0] + sep + Join(parts[1..], sep)
  }

  /** `s[:n]` for `n >= 0`. */
  function Take(s: string, n: nat): (r: string)
    ensures |r| <= n && IsPrefix(r, s)
    ensures |s| <= n ==> r == s
    ensures |s| > n ==> r == s[..n]
  {
    if |s| <= n then s else s[..n]
  }

  function DigitChar(d: int): char
    requires 0 <= d < 10
  {
    ('0' as int + d) as char
  }

  /** `str(n)` for `n >= 0`: decimal digits, most significant first. */
  function NatToString(n: nat): (r: string)
    ensures r != [] && forall i :: 0 <= i < |r| ==> '0' <= r[i] <= '9'
    ensures n > 0 ==> r[0] != '0'
    ensures |r| == 1 || r[0] != '0'
  {
    if n < 10 then [DigitChar(n)] else NatToString(n / 10) + [DigitChar(n % 10)]
  }

  /** `str(n)` */
  function IntToString(n: int): string {
    if n < 0 then "-" + NatToString(-n) else NatToString(n)
  }

  lemma ContainsSelf(p: string)
    ensures Contains(p, p)
  {
    assert p[0..|p|] == p;
    ContainsWitness(p, p, 0);
  }

  /** An occurrence in `a` is still there once `b` is appended. */
  lemma ContainsLeft(a: string, b: string, p: string)
    requires Contains(a, p)
    ensures Contains(a + b, p)
  {
    var i :| 0 <= i <= |a| - |p| && OccursAt(a, p, i);
    assert (a + b)[i..i + |p|] == a[i..i + |p|];
    ContainsWitness(a + b, p, i);
  }

  /** An occurrence in `b` is still there once `a` is put before it. */
  lemma ContainsRight(a: string, b: string, p: string)
    requires Contains(b, p)
    ensures Contains(a + b, p)
  {
    var i :| 0 <= i <= |b| - |p| && OccursAt(b, p, i);
    assert (a + b)[|a| + i..|a| + i + |p|] == b[i..i + |p|];
    ContainsWitness(a + b, p, |a| + i);
  }

  /** A piece of a string lacking `p` lacks it too. */
  lemma SliceLacks(s: string, i: nat, j: nat, p: string)
    requires i <= j <= |s| && !Contains(s, p)
    ensures !Contains(s[i..j], p)
  {
    SuffixLacks(s, i, p);
    PrefixLacks(s[i..], j - i, p);
    assert s[i..][..j - i] == s[i..j];
  }

  /** The number a string of decimal digits denotes. */
  function DigitsValue(s: string): int {
    if s == [] then 0 else 10 * DigitsValue(s[..|s| - 1]) + (s[|s| - 1] as int - '0' as int)
  }

  /** Reading back the digits that `str` wrote gives the number again. */
  lemma {:induction false} NatToStringRoundTrip(n: nat)
    ensures DigitsValue(NatToString(n)) == n
  {
    if n >= 10 {
      var s := NatToString(n);
      assert s[..|s| - 1] == NatToString(n / 10);
      NatToStringRoundTrip(n / 10);
    }
  }

  /** Distinct numbers are written as distinct strings. */
  lemma NatToStringInjective(a: nat, b: nat)
    requires NatToString(a) == NatToString(b)
    ensures a == b
  {
    NatToStringRoundTrip(a);
    NatToStringRoundTrip(b);
  }

  lemma ContainsWitness(s: string, pat: string, i: int)
    requires OccursAt(s, pat, i)
    ensures Contains(s, pat)
  {
  }

  /** Putting `a` in front of `g` gives a string that starts with `a` and still ends as `g` does. */
  lemma PrefixedEnds(a: string, g: string, close: string)
    requires EndsWith(g, close)
    ensures IsPrefix(a, a + g) && EndsWith(a + g, close)
  {
    assert (a + g)[..|a|] == a;
    assert (a + g)[|a + g| - |close|..] == g[|g| - |close|..];
  }

  /** An occurrence of `p` whose tail from `j` is `q` is an occurrence of `q`. */
  lemma OccursInside(s: string, p: string, i: int, j: nat)
    requires OccursAt(s, p, i) && j <= |p|
    ensures OccursAt(s, p[j..], i + j)
  {
    assert s[i + j..i + |p|] == s[i..i + |p|][j..];
  }

  /** Lower-casing keeps every occurrence of a pattern that has no upper-case letter. */
  lemma LowerKeeps(s: string, p: string, i: int)
    requires OccursAt(s, p, i)
    requires forall k :: 0 <= k < |p| ==> !('A' <= p[k] <= 'Z')
    ensures OccursAt(Lower(s), p, i)
  {
    forall k | 0 <= k < |p| ensures Lower(s)[i + k] == p[k] {
      assert s[i + k] == s[i..i + |p|][k];
    }
  }

  /** A string that does not contain `pat` has no suffix that does. */
  lemma SuffixLacks(s: string, k: nat, pat: string)
    requires k <= |s| && !Contains(s, pat)
    ensures !Contains(s[k..], pat) && (k == 0 ==> !IsPrefix(pat, s))
  {
    if k == 0 && IsPrefix(pat, s) {
      assert OccursAt(s, pat, 0);
    }
    forall i | OccursAt(s[k..], pat, i)
      ensures false
    {
      assert s[k..][i..i + |pat|] == s[k + i..k + i + |pat|];
      assert OccursAt(s, pat, k + i);
    }
  }

  /** A prefix of a string that does not contain `pat` does not contain it either. */
  lemma PrefixLacks(s: string, k: nat, pat: string)
    requires k <= |s| && !Contains(s, pat)
    ensures !Contains(s[..k], pat)
  {
    forall i | OccursAt(s[..k], pat, i)
      ensures false
    {
      assert s[..k][i..i + |pat|] == s[i..i + |pat|];
      assert OccursAt(s, pat, i);
    }
  }

  /** Replacing a pattern that does not occur changes nothing. */
  lemma {:induction false} ReplaceAbsent(s: string, pat: string, rep: string)
    requires pat != [] && !Contains(s, pat)
    ensures Replace(s, pat, rep) == s
    decreases |s|
  {
    if s != [] {
      SuffixLacks(s, 0, pat);
      SuffixLacks(s, 1, pat);
      ReplaceAbsent(s[1..], pat, rep);
    }
  }

  // ---------------------------------------------------------------------
  // When does `s.replace(pat, rep)` leave no occurrence of a pattern `p`?
  // It does when `p` and `rep` disagree at every relative offset where
  // they overlap (`Separated`): then an occurrence of `p` can lie neither
  // inside a written `rep`, nor across either of its edges.
  // ---------------------------------------------------------------------

  /** `x[i..]` and `y[j..]` agree on their common length. */
  predicate Agree(x: string, i: nat, y: string, j: nat)
    decreases |x| - i
  {
    i >= |x| || j >= |y| || (x[i] == y[j] && Agree(x, i + 1, y, j + 1))
  }

  /** `p` placed at `r[k]` disagrees with `r`, for every `k` from `a` on. */
  predicate NoAlignmentFrom(p: string, r: string, a: nat)
    decreases |r| - a
  {
    a >= |r| || (!Agree(r, a, p, 0) && NoAlignmentFrom(p, r, a + 1))
  }

  /** `p` and `r` disagree at every relative offset where they overlap. */
  predicate Separated(p: string, r: string) {
    NoAlignmentFrom(p, r, 0) && NoAlignmentFrom(r, p, 1)
  }

  /** No part of `p` left pending at the end of `w` is completed by `t`. */
  predicate NoPendingMatch(w: string, t: string, p: string) {
    forall j | 0 < j < |p| :: EndsWith(w, p[..j]) ==> !IsPrefix(p[j..], t)
  }

  lemma {:induction false} AgreeOnSlices(x: string, i: nat, y: string, j: nat, n: nat)
    requires i + n <= |x| && j + n <= |y| && x[i..i + n] == y[j..j + n]
    requires i + n == |x| || j + n == |y|
    ensures Agree(x, i, y, j)
    decreases n
  {
    if n > 0 {
      assert x[i] == x[i..i + n][0] == y[j..j + n][0] == y[j];
      assert x[i + 1..i + n] == x[i..i + n][1..] == y[j..j + n][1..] == y[j + 1..j + n];
      AgreeOnSlices(x, i + 1, y, j + 1, n - 1);
    }
  }

  lemma {:induction false} NoAlignmentAt(p: string, r: string, a: nat, k: nat)
    requires NoAlignmentFrom(p, r, a) && a <= k < |r|
    ensures !Agree(r, k, p, 0)
    decreases k - a
  {
    if a < k {
      NoAlignmentAt(p, r, a + 1, k);
    }
  }

  /** Writing `r` after a string free of `p` leaves it free of `p`, with nothing of `p` pending. */
  lemma AppendSeparated(w: string, r: string, p: string)
    requires p != [] && Separated(p, r) && !Contains(w, p)
    ensures !Contains(w + r, p)
    ensures forall j | 0 < j < |p| :: !EndsWith(w + r, p[..j])
  {
    forall i | 0 <= i ensures !OccursAt(w + r, p, i) {
      SeparatedAt(w, r, p, i);
    }
    forall j | 0 < j < |p| ensures !EndsWith(w + r, p[..j]) {
      SeparatedPending(w, r, p, j);
    }
  }

  /** No occurrence of `p` at `i` in `w + r`: not inside `w`, not inside `r`, not across the seam. */
  lemma SeparatedAt(w: string, r: string, p: string, i: nat)
    requires p != [] && Separated(p, r) && !Contains(w, p)
    ensures !OccursAt(w + r, p, i)
  {
    if OccursAt(w + r, p, i) {
      if i + |p| <= |w| {
        assert (w + r)[i..i + |p|] == w[i..i + |p|];
        ContainsWitness(w, p, i);
      } else if i >= |w| {
        var a := i - |w|;
        assert (w + r)[i..i + |p|] == r[a..a + |p|];
        AgreeOnSlices(r, a, p, 0, |p|);
        NoAlignmentAt(p, r, 0, a);
      } else {
        var j := |w| - i;
        var n := |p| - j;
        assert (w + r)[|w|..i + |p|] == r[0..n];
        assert (w + r)[|w|..i + |p|] == p[j..|p|];
        AgreeOnSlices(p, j, r, 0, n);
        NoAlignmentAt(r, p, 1, j);
      }
    }
  }

  /** `w + r` does not end with a proper start of `p`. */
  lemma SeparatedPending(w: string, r: string, p: string, j: nat)
    requires p != [] && Separated(p, r) && 0 < j < |p|
    ensures !EndsWith(w + r, p[..j])
  {
    if EndsWith(w + r, p[..j]) {
      if j <= |r| {
        assert (w + r)[|w + r| - j..] == r[|r| - j..];
        AgreeOnSlices(r, |r| - j, p, 0, j);
        NoAlignmentAt(p, r, 0, |r| - j);
      } else {
        assert (w + r)[|w + r| - j..][j - |r|..] == r;
        assert p[j - |r|..j] == r;
        AgreeOnSlices(p, j - |r|, r, 0, |r|);
        NoAlignmentAt(r, p, 1, j - |r|);
      }
    }
  }

  /** Copying a character that does not start `p` keeps the output free of `p`. */
  lemma AppendCopied(w: string, t: string, p: string)
    requires p != [] && t != [] && !IsPrefix(p, t)
    requires !Contains(w, p) && NoPendingMatch(w, t, p)
    ensures !Contains(w + [t[0]], p) && NoPendingMatch(w + [t[0]], t[1..], p)
  {
    var s := w + [t[0]];
    forall i | 0 <= i <= |s| - |p| ensures !OccursAt(s, p, i) {
      CopiedAt(w, t, p, i);
    }
    forall j | 0 < j < |p| ensures EndsWith(s, p[..j]) ==> !IsPrefix(p[j..], t[1..]) {
      CopiedPending(w, t, p, j);
    }
  }

  /** No occurrence of `p` at `i` after the copy: before the new character it would be in `w`, through it it would start in `t`. */
  lemma CopiedAt(w: string, t: string, p: string, i: nat)
    requires p != [] && t != [] && !IsPrefix(p, t)
    requires !Contains(w, p) && NoPendingMatch(w, t, p)
    requires i + |p| <= |w| + 1
    ensures !OccursAt(w + [t[0]], p, i)
  {
    var c := t[0];
    var s := w + [c];
    if i + |p| <= |w| {
      assert s[i..i + |p|] == w[i..i + |p|];
      assert !OccursAt(w, p, i);
    } else {
      var j := |p| - 1;
      var tail := w[|w| - j..];
      assert s[i..i + |p|] == tail + [c];
      assert (tail + [c])[..j] == tail && (tail + [c])[j] == c;
      assert s[i..i + |p|] == p ==> p[..j] == tail && p[j] == c;
      assert p[..j] == tail ==> EndsWith(w, p[..j]);
      assert p[j] == c ==> IsPrefix(p[j..], t);
    }
  }

  /** A part of `p` pending after the copy was pending, one character shorter, before it. */
  lemma CopiedPending(w: string, t: string, p: string, j: nat)
    requires p != [] && t != [] && !IsPrefix(p, t)
    requires NoPendingMatch(w, t, p)
    requires 0 < j < |p|
    ensures EndsWith(w + [t[0]], p[..j]) ==> !IsPrefix(p[j..], t[1..])
  {
    var c := t[0];
    var s := w + [c];
    if j <= |s| {
      var tail := w[|w| - (j - 1)..];
      assert s[|s| - j..] == tail + [c];
      assert (tail + [c])[..j - 1] == tail && (tail + [c])[j - 1] == c;
      assert p[..j][..j - 1] == p[..j - 1] && p[..j][j - 1] == p[j - 1];
      assert p[..j - 1] == tail ==> EndsWith(w, p[..j - 1]);
    }
    assert IsPrefix(p[j..], t[1..]) && p[j - 1] == c ==> IsPrefix(p[j - 1..], t);
  }

  /** The scan of `Replace`, continued from an output `w` already written. */
  lemma {:induction false} ReplaceAvoids(w: string, t: string, pat: string, rep: string, p: string)
    requires p != [] && pat != [] && Separated(p, rep)
    requires p == pat || !Contains(t, p)
    requires !Contains(w, p) && NoPendingMatch(w, t, p)
    ensures !Contains(w + Replace(t, pat, rep), p)
    decreases |t|
  {
    if t == [] {
      assert w + Replace(t, pat, rep) == w;
    } else if IsPrefix(pat, t) {
      ReplacedStep(w, t, pat, rep, p);
      ReplaceAvoids(w + rep, t[|pat|..], pat, rep, p);
    } else {
      CopiedStep(w, t, pat, rep, p);
      ReplaceAvoids(w + [t[0]], t[1..], pat, rep, p);
    }
  }

  /** Writing `rep` for an occurrence of `pat` keeps the scan's invariant for what follows it. */
  lemma ReplacedStep(w: string, t: string, pat: string, rep: string, p: string)
    requires p != [] && pat != [] && Separated(p, rep) && IsPrefix(pat, t)
    requires p == pat || !Contains(t, p)
    requires !Contains(w, p) && NoPendingMatch(w, t, p)
    ensures var rest := t[|pat|..];
            (p == pat || !Contains(rest, p)) && !Contains(w + rep, p) && NoPendingMatch(w + rep, rest, p) &&
            w + Replace(t, pat, rep) == (w + rep) + Replace(rest, pat, rep)
  {
    var rest := t[|pat|..];
    AppendSeparated(w, rep, p);
    assert NoPendingMatch(w + rep, rest, p);
    if p != pat {
      SuffixLacks(t, |pat|, p);
    }
    assert Replace(t, pat, rep) == rep + Replace(rest, pat, rep);
  }

  /** Copying a character that does not start `pat` keeps the scan's invariant for the rest. */
  lemma CopiedStep(w: string, t: string, pat: string, rep: string, p: string)
    requires p != [] && pat != [] && t != [] && !IsPrefix(pat, t)
    requires p == pat || !Contains(t, p)
    requires !Contains(w, p) && NoPendingMatch(w, t, p)
    ensures (p == pat || !Contains(t[1..], p)) && !Contains(w + [t[0]], p) && NoPendingMatch(w + [t[0]], t[1..], p) &&
            w + Replace(t, pat, rep) == (w + [t[0]]) + Replace(t[1..], pat, rep)
  {
    if p != pat {
      SuffixLacks(t, 0, p);
      SuffixLacks(t, 1, p);
    }
    AppendCopied(w, t, p);
    assert Replace(t, pat, rep) == [t[0]] + Replace(t[1..], pat, rep);
  }

  /** `s.replace(pat, rep)` leaves no `pat` behind when `pat` and `rep` are separated. */
  lemma ReplaceRemoves(s: string, pat: string, rep: string)
    requires pat != [] && Separated(pat, rep)
    ensures !Contains(Replace(s, pat, rep), pat)
  {
    ReplaceAvoids([], s, pat, rep, pat);
    assert [] + Replace(s, pat, rep) == Replace(s, pat, rep);
  }

  /** `s.replace(pat, rep)` does not bring back a pattern `p` that `rep` is separated from. */
  lemma ReplaceKeepsOut(s: string, pat: string, rep: string, p: string)
    requires pat != [] && p != [] && Separated(p, rep) && !Contains(s, p)
    ensures !Contains(Replace(s, pat, rep), p)
  {
    ReplaceAvoids([], s, pat, rep, p);
    assert [] + Replace(s, pat, rep) == Replace(s, pat, rep);
  }
}

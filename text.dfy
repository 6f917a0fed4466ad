/** String primitives with Python's meaning: the whitespace set of `str.isspace()`
    and of `\s` in `re`, `str.strip()`, `str.lower()` on ASCII letters, substring
    search (`in`, `str.find`), `str.split(sep)` and `sep.join(parts)`. */
module Text {
  import opened Wrappers

  /** The characters Python counts as whitespace (`str.isspace()`, and `\s` in a
      `str` regular expression). */
  predicate IsSpace(c: char) {
    var n := c as int;
    (9 <= n <= 13) || (28 <= n <= 32) || n == 0x85 || n == 0xA0 || n == 0x1680
    || (0x2000 <= n <= 0x200A) || n == 0x2028 || n == 0x2029 || n == 0x202F
    || n == 0x205F || n == 0x3000
  }

  /** An ASCII decimal digit. */
  predicate IsDigit(c: char) {
    '0' <= c <= '9'
  }

  predicate HasNoSpace(s: string) {
    forall i :: 0 <= i < |s| ==> !IsSpace(s[i])
  }

  /** `c.lower()` for ASCII letters; every other character is left as it is. */
  function Lower(c: char): (r: char)
    ensures 'A' <= c <= 'Z' ==> 'a' <= r <= 'z' && r as int == c as int + 32
    ensures !('A' <= c <= 'Z') ==> r == c
  {
    if 'A' <= c <= 'Z' then (c as int + 32) as char else c
  }

  function LowerStr(s: string): (r: string)
    ensures |r| == |s|
    ensures forall i :: 0 <= i < |s| ==> r[i] == Lower(s[i])
  {
    seq(|s|, i requires 0 <= i < |s| => Lower(s[i]))
  }

  /** The length of the leading run of whitespace of `s`. */
  function LeadingSpaces(s: string): (n: nat)
    ensures n <= |s| && (n == |s| || !IsSpace(s[n]))
    ensures forall i :: 0 <= i < n ==> IsSpace(s[i])
  {
    SkipSpace(s, 0)
  }

  /** `\s*`: the end of the run of whitespace of `s` that starts at `i`. */
  function SkipSpace(s: string, i: nat): (j: nat)
    requires i <= |s|
    ensures i <= j <= |s| && (j == |s| || !IsSpace(s[j]))
    ensures forall k :: i <= k < j ==> IsSpace(s[k])
    decreases |s| - i
  {
    if i < |s| && IsSpace(s[i]) then SkipSpace(s, i + 1) else i
  }

  /** The length of the trailing run of whitespace of `s`. */
  function TrailingSpaces(s: string): (n: nat)
    ensures n <= |s| && (n == |s| || !IsSpace(s[|s| - 1 - n]))
    ensures forall i :: |s| - n <= i < |s| ==> IsSpace(s[i])
  {
    |s| - SpaceRunStart(s, |s|)
  }

  /** The start of the run of whitespace of `s` that ends at `j`. */
  function SpaceRunStart(s: string, j: nat): (i: nat)
    requires j <= |s|
    ensures i <= j && (i == 0 || !IsSpace(s[i - 1]))
    ensures forall k :: i <= k < j ==> IsSpace(s[k])
  {
    if j > 0 && IsSpace(s[j - 1]) then SpaceRunStart(s, j - 1) else j
  }

  /** `s.strip()`: the result is the slice of `s` after its leading whitespace that
      neither starts nor ends with whitespace, and everything cut off after it is
      whitespace. */
  function Strip(s: string): (r: string)
    ensures LeadingSpaces(s) + |r| <= |s|
    ensures r == s[LeadingSpaces(s)..LeadingSpaces(s) + |r|]
    ensures forall i :: LeadingSpaces(s) + |r| <= i < |s| ==> IsSpace(s[i])
    ensures r == [] || (!IsSpace(r[0]) && !IsSpace(r[|r| - 1]))
  {
    var l := LeadingSpaces(s);
    if l == |s| then [] else s[l..|s| - TrailingSpaces(s)]
  }

  /** Stripping a slice of `t` gives a slice of `t`, after the slice's leading
      whitespace. */
  lemma StripOfSlice(t: string, q: nat, p: nat)
    requires q <= p <= |t|
    ensures var l := LeadingSpaces(t[q..p]);
      && q + l + |Strip(t[q..p])| <= p
      && Strip(t[q..p]) == t[q + l..q + l + |Strip(t[q..p])|]
  {
    var u := t[q..p];
    var l := LeadingSpaces(u);
    SliceOfSlice(t, q, p, l, l + |Strip(u)|);
  }

  /** Stripping twice is stripping once. */
  lemma StripIdempotent(s: string)
    ensures Strip(Strip(s)) == Strip(s)
  {
    var r := Strip(s);
    if r != [] {
      assert LeadingSpaces(r) == 0;
      assert TrailingSpaces(r) == 0;
      assert r[0..|r|] == r;
    }
  }

  /** `p` occurs in `s` at index `i`. */
  predicate OccursAt(s: string, p: string, i: int) {
    0 <= i && i + |p| <= |s| && s[i..i + |p|] == p
  }

  /** A slice of a slice is a slice of the original. */
  lemma SliceOfSlice<T>(s: seq<T>, a: nat, b: nat, c: nat, d: nat)
    requires a <= b <= |s| && c <= d <= b - a
    ensures s[a..b][c..d] == s[a + c..a + d]
  {
    var x := s[a..b];
    forall i | 0 <= i < d - c ensures x[c..d][i] == s[a + c..a + d][i] {
      assert x[c..d][i] == x[c + i] == s[a + c + i];
    }
  }

  /** A pattern holding a character the text lacks occurs nowhere in it. */
  lemma AbsentCharNotContained(s: string, p: string, c: char)
    requires c in p && c !in s
    ensures !Contains(s, p)
  {
    ContainsIff(s, p);
    var j :| 0 <= j < |p| && p[j] == c;
    forall i | 0 <= i <= |s| ensures !OccursAt(s, p, i) {
      if i + |p| <= |s| {
        assert s[i..i + |p|][j] == s[i + j] != c;
      }
    }
  }

  /** `s.find(p, i)`: the first index at or after `i` where `p` occurs. */
  function FindFrom(s: string, p: string, i: nat): (r: Option<nat>)
    requires i <= |s|
    ensures r.Some? ==> i <= r.value <= |s| && OccursAt(s, p, r.value)
    ensures r.Some? ==> forall j :: i <= j < r.value ==> !OccursAt(s, p, j)
    ensures r.None? ==> forall j :: i <= j <= |s| ==> !OccursAt(s, p, j)
    decreases |s| - i
  {
    if OccursAt(s, p, i) then Some(i)
    else if i == |s| then None
    else FindFrom(s, p, i + 1)
  }

  /** An occurrence that is found ends within the text. */
  lemma FoundWithin(s: string, p: string, i: nat)
    requires i <= |s| && FindFrom(s, p, i).Some?
    ensures FindFrom(s, p, i).value + |p| <= |s|
  {
  }

  /** `p in s`. */
  predicate Contains(s: string, p: string) {
    FindFrom(s, p, 0).Some?
  }

  /** Substring containment means an occurrence at some index, and nothing else. */
  lemma ContainsIff(s: string, p: string)
    ensures Contains(s, p) <==> exists i :: 0 <= i <= |s| && OccursAt(s, p, i)
  {
    if Contains(s, p) {
      assert OccursAt(s, p, FindFrom(s, p, 0).value);
    }
  }

  /** The first index of character `c` in `s`, if any. */
  function IndexOfChar(s: string, c: char): (r: Option<nat>)
    ensures r.Some? ==> r.value < |s| && s[r.value] == c && c !in s[..r.value]
    ensures r.None? ==> c !in s
  {
    if |s| == 0 then None
    else if s[0] == c then Some(0)
    else match IndexOfChar(s[1..], c)
      case None => None
      case Some(k) => assert s[1..][..k] == s[1..k + 1]; Some(k + 1)
  }

  /** `sep.join(parts)`. */
  function Join(parts: seq<string>, sep: string): string {
    if |parts| == 0 then ""
    else if |parts| == 1 then parts[0]
    else parts[0] + sep + Join(parts[1..], sep)
  }

  /** `s.split(sep)` for a one-character separator: never empty, no piece holds the
      separator, and joining the pieces back with it gives `s`. */
  function Split(s: string, sep: char): (r: seq<string>)
    ensures |r| >= 1
    ensures forall k :: 0 <= k < |r| ==> sep !in r[k]
    ensures Join(r, [sep]) == s
    decreases |s|
  {
    match IndexOfChar(s, sep)
    case None => [s]
    case Some(k) =>
      var rest := Split(s[k + 1..], sep);
      assert s == s[..k] + [sep] + s[k + 1..];
      [s[..k]] + rest
  }

  /** The pieces of a split are exactly the separator-free stretches of `s`:
      splitting a join of separator-free pieces gives the pieces back. */
  lemma {:induction false} SplitJoin(parts: seq<string>, sep: char)
    requires |parts| >= 1
    requires forall k :: 0 <= k < |parts| ==> sep !in parts[k]
    ensures Split(Join(parts, [sep]), sep) == parts
  {
    if |parts| == 1 {
      assert IndexOfChar(parts[0], sep).None?;
    } else {
      var tail := Join(parts[1..], [sep]);
      var s := parts[0] + [sep] + tail;
      assert Join(parts, [sep]) == s;
      IndexAfterFreePrefix(parts[0], sep, tail);
      assert s[..|parts[0]|] == parts[0];
      assert s[|parts[0]| + 1..] == tail;
      SplitJoin(parts[1..], sep);
    }
  }

  lemma IndexAfterFreePrefix(a: string, sep: char, b: string)
    requires sep !in a
    ensures IndexOfChar(a + [sep] + b, sep) == Some(|a|)
  {
    var s := a + [sep] + b;
    assert s[..|a|] == a;
    assert s[|a|] == sep;
  }

  /** Where part `k` starts in `Join(parts, sep)`. */
  function JoinOffset(parts: seq<string>, sep: string, k: nat): nat
    requires k <= |parts|
  {
    if k == 0 then 0 else |parts[0]| + |sep| + JoinOffset(parts[1..], sep, k - 1)
  }

  /** Each part starts where the previous one and the separator after it end. */
  lemma {:induction false} JoinOffsetStep(parts: seq<string>, sep: string, k: nat)
    requires k < |parts|
    ensures JoinOffset(parts, sep, k + 1) == JoinOffset(parts, sep, k) + |parts[k]| + |sep|
  {
    if k > 0 {
      JoinOffsetStep(parts[1..], sep, k - 1);
    }
  }

  /** A join holds the parts in order, each at its offset and each but the last
      followed by the separator, and nothing after the last part. */
  lemma {:induction false} JoinParts(parts: seq<string>, sep: string, k: nat)
    requires k < |parts|
    ensures OccursAt(Join(parts, sep), parts[k], JoinOffset(parts, sep, k))
    ensures k + 1 < |parts| ==> OccursAt(Join(parts, sep), sep, JoinOffset(parts, sep, k) + |parts[k]|)
    ensures k + 1 == |parts| ==> |Join(parts, sep)| == JoinOffset(parts, sep, k) + |parts[k]|
  {
    var j := Join(parts, sep);
    if |parts| == 1 {
      assert j == parts[0];
      assert j[0..|parts[0]|] == parts[0];
    } else {
      var h := parts[0] + sep;
      var rest := Join(parts[1..], sep);
      assert j == h + rest;
      if k == 0 {
        assert j[0..|parts[0]|] == parts[0];
        assert j[|parts[0]|..|parts[0]| + |sep|] == sep;
      } else {
        JoinParts(parts[1..], sep, k - 1);
        var i := JoinOffset(parts[1..], sep, k - 1);
        ShiftOccurs(h, rest, parts[k], i);
        if k + 1 < |parts| {
          ShiftOccurs(h, rest, sep, i + |parts[k]|);
        }
      }
    }
  }

  /** Every part occurs in the join. */
  lemma JoinContains(parts: seq<string>, sep: string)
    ensures forall k :: 0 <= k < |parts| ==> Contains(Join(parts, sep), parts[k])
  {
    forall k | 0 <= k < |parts| ensures Contains(Join(parts, sep), parts[k]) {
      JoinParts(parts, sep, k);
      ContainsIff(Join(parts, sep), parts[k]);
    }
  }

  /** An occurrence in `t` is an occurrence in `h + t`, `|h|` further on. */
  lemma ShiftOccurs(h: string, t: string, p: string, i: nat)
    requires OccursAt(t, p, i)
    ensures OccursAt(h + t, p, |h| + i)
  {
    assert (h + t)[|h| + i..|h| + i + |p|] == t[i..i + |p|];
  }

  /** `s.startswith(p)`. */
  predicate StartsWith(s: string, p: string) {
    |p| <= |s| && s[..|p|] == p
  }

  /** A join is empty only when every piece is, and there is at most one. */
  lemma JoinEmpty(parts: seq<string>, sep: string)
    requires forall k :: 0 <= k < |parts| ==> |parts[k]| > 0
    ensures Join(parts, sep) == "" <==> parts == []
  {
    if |parts| > 1 {
      assert |Join(parts, sep)| >= |parts[0]|;
    }
  }

  /** Lower-casing changes no whitespace. */
  lemma LowerKeepsSpace(s: string)
    ensures forall i :: 0 <= i < |s| ==> (IsSpace(LowerStr(s)[i]) <==> IsSpace(s[i]))
  {
  }

  /** Lower-casing a slice is slicing the lower-cased text. */
  lemma LowerSlice(s: string, a: nat, b: nat)
    requires a <= b <= |s|
    ensures LowerStr(s[a..b]) == LowerStr(s)[a..b]
    ensures HasNoSpace(LowerStr(s)[a..b]) ==> HasNoSpace(s[a..b])
  {
    LowerKeepsSpace(s);
  }

  /** The middle piece of a concatenation occurs right after the first. */
  lemma OccursInConcat(a: string, b: string, c: string)
    ensures OccursAt(a + b + c, b, |a|)
  {
    assert (a + b + c)[|a|..|a| + |b|] == b;
  }

  /** `s[:n]` on a sequence: the first `n` items, or all of them when there are fewer. */
  function Take<T>(s: seq<T>, n: nat): (r: seq<T>)
    ensures |r| <= n && |r| <= |s| && r == s[..|r|]
    ensures |s| <= n ==> r == s
    ensures n <= |s| ==> |r| == n
  {
    if |s| <= n then s else s[..n]
  }

  /** The pieces of `ps` written one after another. */
  function Concat(ps: seq<string>): string {
    if |ps| == 0 then "" else ps[0] + Concat(ps[1..])
  }

  /** Concatenating splits at any piece boundary. */
  lemma {:induction false} ConcatSplit(ps: seq<string>, k: nat)
    requires k <= |ps|
    ensures Concat(ps) == Concat(ps[..k]) + Concat(ps[k..])
  {
    if k > 0 {
      ConcatSplit(ps[1..], k - 1);
      assert ps[1..][..k - 1] == ps[..k][1..];
      assert ps[1..][k - 1..] == ps[k..];
    } else {
      assert ps[k..] == ps;
    }
  }

  /** Two neighbouring pieces occur together, right after the pieces before them. */
  lemma ConcatPair(ps: seq<string>, k: nat)
    requires k + 1 < |ps|
    ensures OccursAt(Concat(ps), ps[k] + ps[k + 1], |Concat(ps[..k])|)
  {
    ConcatSplit(ps, k);
    var rest := ps[k..];
    ConcatSplit(rest, 2);
    assert rest[..2][1..][1..] == [];
    assert Concat(rest[..2]) == ps[k] + ps[k + 1];
    OccursInConcat(Concat(ps[..k]), ps[k] + ps[k + 1], Concat(rest[2..]));
  }

  /** Stripping keeps a prefix that starts and ends with non-whitespace. */
  lemma StripKeepsPrefix(s: string, p: string)
    requires StartsWith(s, p) && |p| > 0
    requires !IsSpace(p[0]) && !IsSpace(p[|p| - 1])
    ensures StartsWith(Strip(s), p)
  {
    assert s[0] == p[0] && s[|p| - 1] == p[|p| - 1];
    var r := Strip(s);
    assert LeadingSpaces(s) == 0;
    assert |p| <= |r|;
    assert r[..|p|] == s[..|p|];
  }
}

/** The regular-expression searches the workers run over agent replies, written out
    as scans: `https?://[^\s]+` (the first URL), `https?://[^\s]+\.EXT` (the first URL
    whose whitespace-free run holds the extension; the greedy `[^\s]+` makes the match
    end at the LAST such extension of the run), and `O[\s\S]*C` (the span from the
    first opener to the last closer). A search over a lower-cased copy of the text
    gives the case-insensitive variant: lower-casing keeps lengths and whitespace. */
module Scan {
  import opened Wrappers
  import opened Text

  /** The length of the `https?://` prefix at index `i`, or 0 when there is none. */
  function UrlPrefixAt(t: string, i: nat): (p: nat)
    ensures p == 0 || p == 7 || p == 8
    ensures p == 8 <==> OccursAt(t, "https://", i)
    ensures p == 7 <==> OccursAt(t, "http://", i)
  {
    if OccursAt(t, "https://", i) then
      assert t[i + 4] == t[i..i + 8][4] == 's';
      8
    else if OccursAt(t, "http://", i) then 7
    else 0
  }

  /** The end of the whitespace-free run that starts at `i`. */
  function RunEnd(t: string, i: nat): (j: nat)
    requires i <= |t|
    ensures i <= j <= |t| && (j == |t| || IsSpace(t[j]))
    ensures forall k :: i <= k < j ==> !IsSpace(t[k])
    decreases |t| - i
  {
    if i == |t| || IsSpace(t[i]) then i else RunEnd(t, i + 1)
  }

  /** `https?://[^\s]+` matches at `i`: a prefix followed by at least one
      non-whitespace character. */
  predicate UrlAt(t: string, i: nat) {
    var p := UrlPrefixAt(t, i);
    p > 0 && i + p < |t| && !IsSpace(t[i + p])
  }

  /** The first index at or after `i` where `https?://[^\s]+` matches. */
  function FirstUrlStart(t: string, i: nat): (r: Option<nat>)
    requires i <= |t|
    ensures r.Some? ==> i <= r.value < |t| && UrlAt(t, r.value)
    ensures r.Some? ==> forall j :: i <= j < r.value ==> !UrlAt(t, j)
    ensures r.None? ==> forall j :: i <= j <= |t| ==> !UrlAt(t, j)
    decreases |t| - i
  {
    if UrlAt(t, i) then Some(i)
    else if i == |t| then None
    else FirstUrlStart(t, i + 1)
  }

  /** The `https?://` prefix at `i` holds no whitespace. */
  lemma PrefixNoSpace(t: string, i: nat)
    ensures forall j :: i <= j < i + UrlPrefixAt(t, i) ==> !IsSpace(t[j])
  {
    var p := UrlPrefixAt(t, i);
    if p == 8 {
      OccursNoSpace(t, "https://", i);
    } else if p == 7 {
      OccursNoSpace(t, "http://", i);
    }
  }

  /** A whitespace-free stretch from `i` to `m` lies inside the run that starts at `i`. */
  lemma {:induction false} RunEndBeyond(t: string, i: nat, m: nat)
    requires i <= m < |t|
    requires forall j :: i <= j <= m ==> !IsSpace(t[j])
    ensures m < RunEnd(t, i)
    decreases m - i
  {
    if i < m {
      RunEndBeyond(t, i + 1, m);
    }
  }

  /** Where a URL starts, the run reaches past its prefix and first character. */
  lemma UrlRun(t: string, i: nat)
    requires i <= |t| && UrlAt(t, i)
    ensures i + UrlPrefixAt(t, i) < RunEnd(t, i)
  {
    PrefixNoSpace(t, i);
    RunEndBeyond(t, i, i + UrlPrefixAt(t, i));
  }

  /** `re.search(r'https?://[^\s]+', t)`, as the matched text or "" when none. The
      match is the whole whitespace-free run from the leftmost URL start. */
  function FirstUrl(t: string): (r: string)
    ensures r == "" <==> forall j :: 0 <= j <= |t| ==> !UrlAt(t, j)
    ensures r != "" ==> r == t[FirstUrlStart(t, 0).value..RunEnd(t, FirstUrlStart(t, 0).value)]
  {
    match FirstUrlStart(t, 0)
    case None => ""
    case Some(i) =>
      UrlRun(t, i);
      t[i..RunEnd(t, i)]
  }

  /** The first URL starts with its scheme, holds no whitespace and is followed by
      whitespace or the end of the text. */
  lemma FirstUrlShape(t: string)
    requires FirstUrl(t) != ""
    ensures var r := FirstUrl(t);
      var i := FirstUrlStart(t, 0).value;
      && (StartsWith(r, "http://") || StartsWith(r, "https://"))
      && HasNoSpace(r)
      && i + |r| <= |t| && t[i..i + |r|] == r
      && (i + |r| == |t| || IsSpace(t[i + |r|]))
  {
    var i := FirstUrlStart(t, 0).value;
    var e := RunEnd(t, i);
    assert FirstUrl(t) == t[i..e];
    UrlRun(t, i);
    RunSlice(t, i);
    SliceScheme(t, i, e);
  }

  /** The run from `i` is free of whitespace. */
  lemma RunSlice(t: string, i: nat)
    requires i <= |t|
    ensures HasNoSpace(t[i..RunEnd(t, i)])
  {
    var r := t[i..RunEnd(t, i)];
    forall j | 0 <= j < |r| ensures !IsSpace(r[j]) {
      assert r[j] == t[i + j];
    }
  }

  /** A slice from a URL start that reaches past the prefix starts with the scheme. */
  lemma SliceScheme(t: string, i: nat, e: nat)
    requires i + UrlPrefixAt(t, i) <= e <= |t| && UrlPrefixAt(t, i) > 0
    ensures StartsWith(t[i..e], "http://") || StartsWith(t[i..e], "https://")
  {
    var p := UrlPrefixAt(t, i);
    assert t[i..e][..p] == t[i..i + p];
  }

  /** The extensions the workers look for after a URL. */
  datatype Ext = Png | Pdf | PowerPoint

  /** Where `\.png`, `\.pdf` or `\.(pptx?|powerpoint)` (on lower-cased text) ends when
      it matches at index `k`. */
  function ExtEndAt(t: string, k: nat, ext: Ext): (r: Option<nat>)
    ensures r.Some? ==> k < r.value <= |t| && t[k] == '.'
    ensures r.Some? ==> forall j :: k <= j < r.value ==> !IsSpace(t[j])
  {
    match ext
    case Png =>
      if OccursAt(t, ".png", k) then OccursNoSpace(t, ".png", k); Some(k + 4) else None
    case Pdf =>
      if OccursAt(t, ".pdf", k) then OccursNoSpace(t, ".pdf", k); Some(k + 4) else None
    case PowerPoint =>
      if OccursAt(t, ".ppt", k) then
        OccursNoSpace(t, ".ppt", k);
        if k + 4 < |t| && t[k + 4] == 'x' then Some(k + 5) else Some(k + 4)
      else if OccursAt(t, ".powerpoint", k) then
        OccursNoSpace(t, ".powerpoint", k);
        Some(k + 11)
      else None
  }

  /** An occurrence of a literal free of whitespace covers no whitespace. */
  lemma OccursNoSpace(t: string, p: string, k: nat)
    requires HasNoSpace(p) && OccursAt(t, p, k)
    ensures |p| > 0 ==> t[k] == p[0]
    ensures forall j :: k <= j < k + |p| ==> !IsSpace(t[j])
  {
    forall j | k <= j < k + |p| ensures t[j] == p[j - k] {
      assert t[j] == t[k..k + |p|][j - k];
    }
  }

  /** The greedy `[^\s]+` before the extension: the largest `k` with `lo <= k < hi`
      where the extension matches. */
  function LastExtBefore(t: string, lo: nat, hi: nat, ext: Ext): (r: Option<nat>)
    requires hi <= |t|
    ensures r.Some? ==> lo <= r.value < hi && ExtEndAt(t, r.value, ext).Some?
    ensures r.Some? ==> forall k :: r.value < k < hi ==> ExtEndAt(t, k, ext).None?
    ensures r.None? ==> forall k :: lo <= k < hi ==> ExtEndAt(t, k, ext).None?
    decreases hi
  {
    if hi <= lo then None
    else if ExtEndAt(t, hi - 1, ext).Some? then Some(hi - 1)
    else LastExtBefore(t, lo, hi - 1, ext)
  }

  /** A URL ending with the extension matches from `i`, the extension starting at `k`:
      a prefix, at least one character, no whitespace from `i` to `k`. */
  predicate ExtUrlMatch(t: string, i: nat, k: nat, ext: Ext) {
    var p := UrlPrefixAt(t, i);
    p > 0 && i + p + 1 <= k < |t| && HasNoSpace(t[i..k]) && ExtEndAt(t, k, ext).Some?
  }

  /** Where the extension of the match starting at `i` begins, if one starts there. */
  function ExtUrlAt(t: string, i: nat, ext: Ext): (r: Option<nat>)
    requires i <= |t|
    ensures r.Some? ==> ExtUrlMatch(t, i, r.value, ext)
    ensures r.Some? ==> forall k :: r.value < k < |t| ==> !ExtUrlMatch(t, i, k, ext)
    ensures r.None? ==> forall k :: 0 <= k < |t| ==> !ExtUrlMatch(t, i, k, ext)
  {
    var p := UrlPrefixAt(t, i);
    if p == 0 then None
    else
      var hi := RunEnd(t, i);
      var r := LastExtBefore(t, i + p + 1, hi, ext);
      forall k | 0 <= k < |t| && ExtUrlMatch(t, i, k, ext)
        ensures k < hi
      {
        assert forall j :: i <= j < k ==> t[i..k][j - i] == t[j];
      }
      if r.Some? then
        assert forall j :: 0 <= j < r.value - i ==> t[i..r.value][j] == t[i + j];
        r
      else r
  }

  /** The first start at or after `i` of a URL ending with the extension. */
  function FirstExtUrlStart(t: string, i: nat, ext: Ext): (r: Option<nat>)
    requires i <= |t|
    ensures r.Some? ==> i <= r.value <= |t| && ExtUrlAt(t, r.value, ext).Some?
    ensures r.Some? ==> forall j :: i <= j < r.value ==> ExtUrlAt(t, j, ext).None?
    ensures r.None? ==> forall j :: i <= j <= |t| ==> ExtUrlAt(t, j, ext).None?
    decreases |t| - i
  {
    if ExtUrlAt(t, i, ext).Some? then Some(i)
    else if i == |t| then None
    else FirstExtUrlStart(t, i + 1, ext)
  }

  /** The span `[start, end)` of `re.search(r'https?://[^\s]+\.EXT', t)`. */
  function ExtUrlSpan(t: string, ext: Ext): (r: Option<(nat, nat)>)
    ensures r.Some? ==> r.value.0 < r.value.1 <= |t|
    ensures r.Some? ==> exists k: nat :: && ExtUrlMatch(t, r.value.0, k, ext)
                                  && r.value.1 == ExtEndAt(t, k, ext).value
                                  && forall k': nat :: k < k' < |t| ==> !ExtUrlMatch(t, r.value.0, k', ext)
    ensures r.Some? ==> forall i, k :: 0 <= i < r.value.0 && 0 <= k < |t| ==> !ExtUrlMatch(t, i, k, ext)
    ensures r.None? <==> forall i, k :: 0 <= i <= |t| && 0 <= k < |t| ==> !ExtUrlMatch(t, i, k, ext)
  {
    match FirstExtUrlStart(t, 0, ext)
    case None =>
      forall i, k | 0 <= i <= |t| && 0 <= k < |t| ensures !ExtUrlMatch(t, i, k, ext) {
        assert ExtUrlAt(t, i, ext).None?;
      }
      None
    case Some(i) =>
      forall j, k | 0 <= j < i && 0 <= k < |t| ensures !ExtUrlMatch(t, j, k, ext) {
        assert ExtUrlAt(t, j, ext).None?;
      }
      var k := ExtUrlAt(t, i, ext).value;
      assert ExtUrlMatch(t, i, k, ext);
      Some((i, ExtEndAt(t, k, ext).value))
  }

  /** A match found on a text is, on that text, a whitespace-free slice that starts
      with `http://` or `https://` and ends with the extension. */
  lemma ExtUrlSpanShape(t: string, ext: Ext)
    requires ExtUrlSpan(t, ext).Some?
    ensures var (a, b) := ExtUrlSpan(t, ext).value;
      && a < b <= |t|
      && HasNoSpace(t[a..b])
      && (StartsWith(t[a..b], "http://") || StartsWith(t[a..b], "https://"))
      && (ext == Png ==> EndsWith(t[a..b], ".png"))
      && (ext == Pdf ==> EndsWith(t[a..b], ".pdf"))
      && (ext == PowerPoint ==> EndsWith(t[a..b], ".ppt") || EndsWith(t[a..b], ".pptx")
                                || EndsWith(t[a..b], ".powerpoint"))
  {
    var (a, b) := ExtUrlSpan(t, ext).value;
    var k: nat :| ExtUrlMatch(t, a, k, ext) && b == ExtEndAt(t, k, ext).value;
    MatchNoSpace(t, a, k, ext);
    SliceScheme(t, a, b);
    MatchEnding(t, a, k, ext);
  }

  /** A match covers no whitespace. */
  lemma MatchNoSpace(t: string, a: nat, k: nat, ext: Ext)
    requires ExtUrlMatch(t, a, k, ext)
    ensures HasNoSpace(t[a..ExtEndAt(t, k, ext).value])
  {
    var b := ExtEndAt(t, k, ext).value;
    forall j | a <= j < b ensures !IsSpace(t[j]) {
      if j < k {
        assert t[a..k][j - a] == t[j];
      }
    }
    forall j | 0 <= j < b - a ensures !IsSpace(t[a..b][j]) {
      assert t[a..b][j] == t[a + j];
    }
  }

  /** A match ends with its extension. */
  lemma MatchEnding(t: string, a: nat, k: nat, ext: Ext)
    requires a <= k && ExtEndAt(t, k, ext).Some?
    ensures var b := ExtEndAt(t, k, ext).value;
      && (ext == Png ==> EndsWith(t[a..b], ".png"))
      && (ext == Pdf ==> EndsWith(t[a..b], ".pdf"))
      && (ext == PowerPoint ==> EndsWith(t[a..b], ".ppt") || EndsWith(t[a..b], ".pptx")
                                || EndsWith(t[a..b], ".powerpoint"))
  {
    var b := ExtEndAt(t, k, ext).value;
    EndsWithTail(t, a, k, b);
    match ext
    case Png =>
    case Pdf =>
    case PowerPoint =>
      if !OccursAt(t, ".ppt", k) {
        assert t[k..b] == ".powerpoint";
      } else if b == k + 5 {
        assert t[k..b] == t[k..k + 4] + [t[k + 4]] == ".pptx";
      } else {
        assert t[k..b] == ".ppt";
      }
  }

  /** A slice ends with any of its own tails. */
  lemma EndsWithTail(t: string, a: nat, k: nat, b: nat)
    requires a <= k <= b <= |t|
    ensures EndsWith(t[a..b], t[k..b])
  {
    SliceOfSlice(t, a, b, k - a, b - a);
  }

  predicate EndsWith(s: string, p: string) {
    |p| <= |s| && s[|s| - |p|..] == p
  }

  /** The last index of `c` in `t`, if any. */
  function LastIndexOf(t: string, c: char): (r: Option<nat>)
    ensures r.Some? ==> r.value < |t| && t[r.value] == c
                        && forall j :: r.value < j < |t| ==> t[j] != c
    ensures r.None? ==> c !in t
  {
    if |t| == 0 then None
    else if t[|t| - 1] == c then Some(|t| - 1)
    else LastIndexOf(t[..|t| - 1], c)
  }

  /** `re.search(r'O[\s\S]*C', t)` for single characters `O` and `C`: the span from the
      first `O` to the last `C`, when that `C` comes after that `O`. */
  function BracketSpan(t: string, open: char, close: char): (r: Option<string>)
    ensures r.Some? ==> exists a, b :: 0 <= a < b < |t| && r.value == t[a..b + 1]
                                      && t[a] == open && t[b] == close
                                      && open !in t[..a] && close !in t[b + 1..]
    ensures r.None? ==> forall a, b :: 0 <= a < b < |t| && t[a] == open ==> t[b] != close
  {
    match (IndexOfChar(t, open), LastIndexOf(t, close))
    case (Some(a), Some(b)) =>
      if a < b then
        assert forall j :: b + 1 <= j < |t| ==> t[b + 1..][j - b - 1] == t[j];
        Some(t[a..b + 1])
      else None
    case _ => None
  }

  /** The end of the line that holds index `i`: the next newline at or after `i`,
      or the end of the text. */
  function LineEnd(t: string, i: nat): (e: nat)
    requires i <= |t|
    ensures i <= e <= |t| && (e == |t| || t[e] == '\n')
    ensures forall j :: i <= j < e ==> t[j] != '\n'
    decreases |t| - i
  {
    if i == |t| || t[i] == '\n' then i else LineEnd(t, i + 1)
  }

  /** A newline-free stretch from `i` to `m` lies on the line of `i`. */
  lemma {:induction false} LineEndBeyond(t: string, i: nat, m: nat)
    requires i <= m <= |t|
    requires forall j :: i <= j < m ==> t[j] != '\n'
    ensures m <= LineEnd(t, i)
    decreases m - i
  {
    if i < m {
      LineEndBeyond(t, i + 1, m);
    }
  }

  /** `\|.*\|` at `i`: a bar, and a later bar on the same line; `.*` is greedy, so
      the match runs to just past the LAST bar of the line. */
  function BarLineEnd(t: string, i: nat): (r: Option<nat>)
    requires i <= |t|
    ensures r.Some? ==> i < |t| && t[i] == '|' && i + 2 <= r.value <= |t| && t[r.value - 1] == '|'
    ensures r.Some? ==> forall j :: i <= j < r.value ==> t[j] != '\n'
    ensures r.Some? ==> forall j :: r.value <= j < LineEnd(t, i) ==> t[j] != '|'
    ensures r.None? <==> (i == |t| || t[i] != '|'
                          || forall j :: i < j < LineEnd(t, i) ==> t[j] != '|')
  {
    if i == |t| || t[i] != '|' then None
    else
      var e := LineEnd(t, i + 1);
      assert LineEnd(t, i) == e;
      var line := t[i + 1..e];
      match LastIndexOf(line, '|')
      case None =>
        assert forall j :: i < j < e ==> t[j] == line[j - i - 1];
        None
      case Some(k) =>
        assert forall j :: i + 1 + k < j < e ==> t[j] == line[j - i - 1];
        Some(i + 2 + k)
  }

  /** The first index at or after `from` where `\|.*\|` matches. */
  function FirstBarLine(t: string, from: nat): (r: Option<nat>)
    requires from <= |t|
    ensures r.Some? ==> from <= r.value < |t| && BarLineEnd(t, r.value).Some?
    ensures r.Some? ==> forall j :: from <= j < r.value ==> BarLineEnd(t, j).None?
    ensures r.None? ==> forall j :: from <= j <= |t| ==> BarLineEnd(t, j).None?
    decreases |t| - from
  {
    if BarLineEnd(t, from).Some? then Some(from)
    else if from == |t| then None
    else FirstBarLine(t, from + 1)
  }

  /** The lookaheads that end a lazy `[\s\S]*?`. */
  datatype Stop =
    | BlankLineOrEnd           // (?=\n\n|\Z)
    | BlankLineThenNoBarOrEnd  // (?=\n\n[^|]|\n\n##|\Z)
    | HeadingOrEol             // (?=##|$)
    | HeadingGapOrEol          // (?=##|\n\n\n|$)

  /** `$` without MULTILINE: the end of the text, or just before a final newline. */
  predicate Eol(t: string, p: nat) {
    p == |t| || (p + 1 == |t| && t[p] == '\n')
  }

  predicate StopAt(t: string, p: nat, stop: Stop) {
    match stop
    case BlankLineOrEnd => OccursAt(t, "\n\n", p) || p == |t|
    case BlankLineThenNoBarOrEnd =>
      (OccursAt(t, "\n\n", p) && p + 2 < |t| && t[p + 2] != '|')
      || OccursAt(t, "\n\n##", p) || p == |t|
    case HeadingOrEol => OccursAt(t, "##", p) || Eol(t, p)
    case HeadingGapOrEol => OccursAt(t, "##", p) || OccursAt(t, "\n\n\n", p) || Eol(t, p)
  }

  /** Where a lazy `[\s\S]*?` that starts at `q` stops: the first position where the
      lookahead holds. One always does, at the end of the text. */
  function FirstStop(t: string, q: nat, stop: Stop): (p: nat)
    requires q <= |t|
    ensures q <= p <= |t| && StopAt(t, p, stop)
    ensures forall j :: q <= j < p ==> !StopAt(t, j, stop)
    decreases |t| - q
  {
    if StopAt(t, q, stop) then q else FirstStop(t, q + 1, stop)
  }

  /** The `\n\n##` alternative adds nothing: `#` is not a bar. */
  lemma HeadingAlternativeSubsumed(t: string, p: nat)
    requires OccursAt(t, "\n\n##", p)
    ensures OccursAt(t, "\n\n", p) && p + 2 < |t| && t[p + 2] != '|'
  {
    assert t[p..p + 2] == t[p..p + 4][..2];
    assert t[p + 2] == t[p..p + 4][2];
  }

  /** The spans `re.finditer(r'\|.*\|[\s\S]*?(?=\n\n|\Z)', t)` yields from `from` on:
      each starts where the bar line is found and stops at the next blank line or at
      the end; the next search resumes where the last match ended. */
  function TableSpans(t: string, from: nat): (r: seq<(nat, nat)>)
    requires from <= |t|
    ensures forall k :: 0 <= k < |r| ==> from <= r[k].0 && r[k].0 + 2 <= r[k].1 <= |t|
                                         && t[r[k].0] == '|'
                                         && BarLineEnd(t, r[k].0).Some?
                                         && BarLineEnd(t, r[k].0).value <= r[k].1
    ensures forall k :: 0 < k < |r| ==> r[k - 1].1 <= r[k].0
    ensures r == [] <==> FirstBarLine(t, from).None?
    decreases |t| - from
  {
    match FirstBarLine(t, from)
    case None => []
    case Some(i) =>
      var q := BarLineEnd(t, i).value;
      var p := FirstStop(t, q, BlankLineOrEnd);
      var rest := TableSpans(t, p);
      var r := [(i, p)] + rest;
      assert r[0] == (i, p);
      assert forall k :: 0 < k < |r| ==> r[k] == rest[k - 1];
      r
  }
}

/** The saved file name of the scrape script: the first `\d+\.\d+\.\d+` match of the
    suggested file name (`re.search`), or "unknown_" and the whole name, plus ".ipa". */
module VersionLabel {
  import opened Wrappers
  import opened Numerals

  const DownloadDir := "/home/appuser/Downloads"

  /** `t` is `digits "." digits "." digits` with the dots at `i` and `j`. */
  predicate SplitsSemver(t: string, i: int, j: int) {
    && 0 < i && i + 1 < j && j + 1 < |t|
    && AllDecimalDigits(t[..i]) && t[i] == '.'
    && AllDecimalDigits(t[i + 1..j]) && t[j] == '.'
    && AllDecimalDigits(t[j + 1..])
  }

  /** `t` is in the language of the pattern `\d+\.\d+\.\d+`. */
  ghost predicate IsSemver(t: string) {
    exists i, j :: SplitsSemver(t, i, j)
  }

  /** `s[p..e]` is a match of the pattern. */
  ghost predicate SemverAt(s: string, p: int, e: int) {
    0 <= p <= e <= |s| && IsSemver(s[p..e])
  }

  /** End of the maximal digit run starting at `i` (what a greedy `\d+` consumes). */
  function RunEnd(s: string, i: nat): (j: nat)
    requires i <= |s|
    ensures i <= j <= |s|
    ensures forall k :: i <= k < j ==> IsDecimalDigit(s[k])
    ensures j == |s| || !IsDecimalDigit(s[j])
    decreases |s| - i
  {
    if i < |s| && IsDecimalDigit(s[i]) then RunEnd(s, i + 1) else i
  }

  /** Where the regex engine's match attempt at `p` ends, if it succeeds: each
      greedy `\d+` takes a whole digit run, and a run is followed by a digit or
      by something that is not one, so backtracking never finds a shorter match. */
  function MatchAt(s: string, p: nat): (m: Option<nat>)
    requires p <= |s|
    ensures m.Some? ==> p < m.value <= |s|
  {
    var j1 := RunEnd(s, p);
    if j1 == p || j1 == |s| || s[j1] != '.' then None
    else
      var j2 := RunEnd(s, j1 + 1);
      if j2 == j1 + 1 || j2 == |s| || s[j2] != '.' then None
      else
        var j3 := RunEnd(s, j2 + 1);
        if j3 == j2 + 1 then None else Some(j3)
  }

  lemma RunEndIs(s: string, i: nat, j: nat)
    requires i <= j < |s|
    requires forall k :: i <= k < j ==> IsDecimalDigit(s[k])
    requires !IsDecimalDigit(s[j])
    ensures RunEnd(s, i) == j
  {
  }

  lemma RunEndBound(s: string, i: nat, e: nat)
    requires i <= e <= |s|
    requires forall k :: i <= k < e ==> IsDecimalDigit(s[k])
    ensures e <= RunEnd(s, i)
  {
  }

  /** A successful match attempt at `p` is a match of the pattern. */
  lemma MatchAtMatches(s: string, p: nat)
    requires p <= |s| && MatchAt(s, p).Some?
    ensures SemverAt(s, p, MatchAt(s, p).value)
  {
    var j1 := RunEnd(s, p);
    var j2 := RunEnd(s, j1 + 1);
    var e := MatchAt(s, p).value;
    var t := s[p..e];
    assert t[..j1 - p] == s[p..j1];
    assert t[j1 - p + 1..j2 - p] == s[j1 + 1..j2];
    assert t[j2 - p + 1..] == s[j2 + 1..e];
    assert SplitsSemver(t, j1 - p, j2 - p);
  }

  /** Every match starting at `p` is found by the attempt at `p` and ends no later
      than the attempt's match. */
  lemma MatchAtIsLongest(s: string, p: nat, e: nat)
    requires SemverAt(s, p, e)
    ensures MatchAt(s, p).Some? && e <= MatchAt(s, p).value
  {
    var t := s[p..e];
    var i, j :| SplitsSemver(t, i, j);
    assert forall k :: p <= k < p + i ==> s[k] == t[..i][k - p];
    assert s[p + i] == t[i];
    RunEndIs(s, p, p + i);
    assert forall k :: p + i + 1 <= k < p + j ==> s[k] == t[i + 1..j][k - p - i - 1];
    assert s[p + j] == t[j];
    RunEndIs(s, p + i + 1, p + j);
    assert forall k :: p + j + 1 <= k < e ==> s[k] == t[j + 1..][k - p - j - 1];
    RunEndBound(s, p + j + 1, e);
  }

  /** The match attempt at `p` finds the longest match starting at `p`, and fails
      exactly when no match starts there. */
  lemma MatchAtIsLeftLongest(s: string, p: nat)
    requires p <= |s|
    ensures MatchAt(s, p).Some? ==> SemverAt(s, p, MatchAt(s, p).value)
    ensures MatchAt(s, p).Some? ==> forall e :: SemverAt(s, p, e) ==> e <= MatchAt(s, p).value
    ensures MatchAt(s, p).None? ==> forall e :: !SemverAt(s, p, e)
  {
    if MatchAt(s, p).Some? {
      MatchAtMatches(s, p);
    }
    forall e | SemverAt(s, p, e)
      ensures MatchAt(s, p).Some? && e <= MatchAt(s, p).value
    {
      MatchAtIsLongest(s, p, e);
    }
  }

  /** `re.search` from position `p` on: the first start with a match, and the
      match's end. */
  function SearchFrom(s: string, p: nat): (r: Option<(nat, nat)>)
    requires p <= |s|
    ensures r.Some? ==> p <= r.value.0 < r.value.1 <= |s|
    decreases |s| - p
  {
    if p == |s| then None
    else
      match MatchAt(s, p)
      case Some(e) => Some((p, e))
      case None => SearchFrom(s, p + 1)
  }

  /** The search result is the leftmost match, taken as long as it can be; no
      result means the pattern occurs nowhere from `p` on. */
  lemma {:induction false} SearchFromIsLeftmostLongest(s: string, p: nat)
    requires p <= |s|
    ensures SearchFrom(s, p).Some? ==>
              var (q, e) := SearchFrom(s, p).value;
              p <= q && SemverAt(s, q, e) &&
              (forall q', e' :: p <= q' < q ==> !SemverAt(s, q', e')) &&
              (forall e' :: SemverAt(s, q, e') ==> e' <= e)
    ensures SearchFrom(s, p).None? ==> forall q', e' :: p <= q' ==> !SemverAt(s, q', e')
    decreases |s| - p
  {
    MatchAtIsLeftLongest(s, p);
    if p < |s| && MatchAt(s, p).None? {
      SearchFromIsLeftmostLongest(s, p + 1);
    }
  }

  /** The `version` variable: the leftmost-longest match of the pattern when there
      is one, and "unknown_" followed by the file name exactly when there is none.
      Either way it is non-empty and does not start with '/'. */
  function Label(filename: string): (version: string)
    ensures (exists q, e :: SemverAt(filename, q, e)) ==>
              exists q, e :: SemverAt(filename, q, e) && version == filename[q..e] &&
                (forall q', e' :: q' < q ==> !SemverAt(filename, q', e')) &&
                (forall e' :: SemverAt(filename, q, e') ==> e' <= e)
    ensures (forall q, e :: !SemverAt(filename, q, e)) ==> version == "unknown_" + filename
    ensures |version| > 0 && version[0] != '/'
  {
    SearchFromIsLeftmostLongest(filename, 0);
    match SearchFrom(filename, 0)
    case Some((q, e)) =>
      assert SemverAt(filename, q, e);
      var i, j :| SplitsSemver(filename[q..e], i, j);
      assert filename[q..e][..i][0] == filename[q..e][0];
      filename[q..e]
    case None => "unknown_" + filename
  }

  /** `f"{version}.ipa"`. */
  function SavedFileName(filename: string): (name: string)
    ensures name == Label(filename) + ".ipa"
    ensures |name| > 4 && name[|name| - 4..] == ".ipa"
    ensures name[0] != '/'
  {
    Label(filename) + ".ipa"
  }

  /** `os.path.join(DownloadDir, name)`: the name is never absolute, so the join is a
      plain concatenation with one slash. */
  function SavePath(filename: string): (path: string)
    ensures path == DownloadDir + "/" + SavedFileName(filename)
  {
    var name := SavedFileName(filename);
    if name[0] == '/' then name else DownloadDir + "/" + name
  }
}

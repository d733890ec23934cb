/** The download-page locator of the scrape script: a heuristic scan of the decoded
    response array for a path segment, a fallback scan, and the URL built from it. */
module Locator {
  import opened Wrappers
  import opened PyText
  import opened JsonValue

  const BaseUrl := "https://decrypt.day/app/id1489932710"

  /** Position of the last element satisfying `p` (a `for x in s[::-1]` loop that
      breaks on the first hit). */
  function FindLast<T>(s: seq<T>, p: T -> bool): (r: Option<nat>)
    ensures r.Some? ==> r.value < |s| && p(s[r.value])
    ensures r.Some? ==> forall k :: r.value < k < |s| ==> !p(s[k])
    ensures r.None? ==> forall k :: 0 <= k < |s| ==> !p(s[k])
  {
    if |s| == 0 then None
    else if p(s[|s| - 1]) then Some(|s| - 1)
    else FindLast(s[..|s| - 1], p)
  }

  /** `isinstance(obj, str) and len(obj.split(".")) >= 2`. */
  predicate IsDomainShaped(v: Value) {
    v.JStr? && |Split(v.s, '.')| >= 2
  }

  /** `isinstance(e, str) and len(e) == 21`. */
  predicate IsToken21(v: Value) {
    v.JStr? && |v.s| == 21
  }

  /** The domain test only asks whether the string contains a dot. */
  lemma DomainShapeIsDot(v: Value)
    ensures IsDomainShaped(v) <==> v.JStr? && '.' in v.s
  {
  }

  /** The domain: the last string containing a dot, or `None`. */
  function FindDomain(details: seq<Value>): (domain: Value)
    ensures domain == JNull <==> forall k :: 0 <= k < |details| ==> !IsDomainShaped(details[k])
    ensures domain != JNull ==>
              exists k :: 0 <= k < |details| && details[k] == domain && IsDomainShaped(domain) &&
                          forall j :: k < j < |details| ==> !IsDomainShaped(details[j])
  {
    match FindLast(details, IsDomainShaped)
    case Some(k) => details[k]
    case None => JNull
  }

  /** `s.index(x)`: the first occurrence; `None` stands for the `ValueError`.
      Structural equality is Python's `==` for the values searched here (a string
      or `None`). */
  function IndexOf(s: seq<Value>, x: Value): (r: Option<nat>)
    ensures r.None? <==> x !in s
    ensures r.Some? ==> r.value < |s| && s[r.value] == x
    ensures r.Some? ==> forall k :: 0 <= k < r.value ==> s[k] != x
  {
    if |s| == 0 then None
    else if s[0] == x then Some(0)
    else
      match IndexOf(s[1..], x)
      case None => None
      case Some(i) => Some(i + 1)
  }

  /** `s[k]` for a possibly negative `k`; `None` stands for the `IndexError`. */
  function PyIndex(s: seq<Value>, k: int): Option<Value>
  {
    if 0 <= k < |s| then Some(s[k])
    else if -|s| <= k < 0 then Some(s[|s| + k])
    else None
  }

  /** Why the primary heuristic gave up, and what the path variable holds then. */
  datatype Miss = DomainNotInList | PositionOutOfRange | PathIsNone

  datatype Attempt = Hit(path: Value) | Missed(reason: Miss, carried: Value)

  /** The `try` block: the element three places before the first occurrence of the
      domain. The path variable starts as "" and is overwritten only by a successful
      lookup, so an explicit `None` result is what the fallback starts from.
      `list.index` raises exactly when there is no domain and also no `None` element
      to find in its place; the position is out of range only in a list of one or two
      elements whose first element is the domain. */
  function PrimaryAttempt(details: seq<Value>): (a: Attempt)
    ensures a == Missed(DomainNotInList, JStr("")) <==>
              (forall k :: 0 <= k < |details| ==> !IsDomainShaped(details[k])) && JNull !in details
    ensures a == Missed(PositionOutOfRange, JStr("")) <==>
              0 < |details| <= 2 && details[0] == FindDomain(details)
    ensures a.Hit? ==> a.path != JNull && a.path in details
    ensures a.Missed? ==> (a.carried == JNull <==> a.reason == PathIsNone)
    ensures a.Missed? && a.reason != PathIsNone ==> a.carried == JStr("")
  {
    var domain := FindDomain(details);
    assert domain != JNull ==> domain in details;
    LookBack(details, IndexOf(details, domain))
  }

  /** The lookup three places before index `i` of the domain: a plain look-back when
      `i >= 3`, a wrap-around from the end when `i < 3`, and out of range only when
      `i - 3 < -|details|`. */
  function LookBack(details: seq<Value>, index: Option<nat>): (a: Attempt)
    requires index.Some? ==> index.value < |details|
    ensures index.None? <==> a == Missed(DomainNotInList, JStr(""))
    ensures index.Some? && index.value >= 3 ==> a == OutcomeAt(details[index.value - 3])
    ensures index.Some? && index.value < 3 && |details| + index.value >= 3 ==>
              a == OutcomeAt(details[|details| + index.value - 3])
    ensures index.Some? && |details| + index.value < 3 <==> a == Missed(PositionOutOfRange, JStr(""))
  {
    match index
    case None => Missed(DomainNotInList, JStr(""))
    case Some(i) =>
      match PyIndex(details, i - 3)
      case None => Missed(PositionOutOfRange, JStr(""))
      case Some(v) => OutcomeAt(v)
  }

  /** What the `try` block makes of the element it looked up. */
  function OutcomeAt(v: Value): (a: Attempt)
    ensures a.Hit? <==> v != JNull
    ensures a.Hit? ==> a.path == v
    ensures a.Missed? ==> a == Missed(PathIsNone, JNull)
  {
    if v == JNull then Missed(PathIsNone, JNull) else Hit(v)
  }

  /** A list without a domain but holding a `None` makes the heuristic look three
      places before the first `None`. */
  lemma NoDomainSearchesNone(details: seq<Value>, i: nat)
    requires forall k :: 0 <= k < |details| ==> !IsDomainShaped(details[k])
    requires i < |details| && details[i] == JNull && JNull !in details[..i]
    ensures PrimaryAttempt(details) == LookBack(details, Some(i))
  {
  }

  /** The `except` block: the last string of length 21, else the path keeps the
      value it had (`""` or `None`). */
  function FallbackScan(details: seq<Value>, carried: Value): (path: Value)
    ensures (exists k :: 0 <= k < |details| && IsToken21(details[k])) ==>
              IsToken21(path) &&
              exists k :: 0 <= k < |details| && details[k] == path &&
                          forall j :: k < j < |details| ==> !IsToken21(details[j])
    ensures (forall k :: 0 <= k < |details| ==> !IsToken21(details[k])) ==> path == carried
  {
    match FindLast(details, IsToken21)
    case Some(k) => details[k]
    case None => carried
  }

  /** The path value the script holds after both blocks: the primary result when
      there is one, else the last 21-character string, else the falsy value the
      primary attempt left behind. */
  function FinalPath(details: seq<Value>): (path: Value)
    ensures PrimaryAttempt(details).Hit? ==> path == PrimaryAttempt(details).path
    ensures PrimaryAttempt(details).Missed? && (exists k :: 0 <= k < |details| && IsToken21(details[k])) ==>
              exists k :: 0 <= k < |details| && IsToken21(details[k]) && details[k] == path &&
                          forall j :: k < j < |details| ==> !IsToken21(details[j])
    ensures PrimaryAttempt(details).Missed? && (forall k :: 0 <= k < |details| ==> !IsToken21(details[k])) ==>
              !Truthy(path)
  {
    match PrimaryAttempt(details)
    case Hit(v) => v
    case Missed(_, c) => FallbackScan(details, c)
  }

  datatype LocateError = NoDownloadPath

  /** `if not free_dl_path: raise ValueError`, else `f"{base_url}/dl/{free_dl_path}"`.
      A primary result is final: a falsy one raises without trying the fallback, a
      truthy one is printed into the URL. All three ways the primary heuristic can
      miss (`ValueError`, `IndexError`, an explicit `None`) lead to the same outcome:
      the URL of the last 21-character string, or the error when there is none. */
  function DownloadPageUrl(details: seq<Value>): (r: Result<string, LocateError>)
    ensures r.Success? ==> BaseUrl + "/dl/" <= r.value
    ensures PrimaryAttempt(details).Hit? ==> (r.Success? <==> Truthy(PrimaryAttempt(details).path))
    ensures PrimaryAttempt(details).Hit? && r.Success? ==>
              r.value == BaseUrl + "/dl/" + PyStr(PrimaryAttempt(details).path)
    ensures PrimaryAttempt(details).Missed? ==>
              (r.Success? <==> exists k :: 0 <= k < |details| && IsToken21(details[k]))
    ensures PrimaryAttempt(details).Missed? && r.Success? ==>
              exists k :: 0 <= k < |details| && IsToken21(details[k]) &&
                          (forall j :: k < j < |details| ==> !IsToken21(details[j])) &&
                          r.value == BaseUrl + "/dl/" + details[k].s
  {
    var path := FinalPath(details);
    if !Truthy(path) then Failure(NoDownloadPath)
    else Success(BaseUrl + "/dl/" + PyStr(path))
  }
}

/** Which commits a run looks at (`fetch_new_commits` and the
    `COMMIT_SCAN_LIMIT` parsing): the newest N commits turned oldest-first,
    or whatever the repository reports since the 24-hour cutoff. */
module Window {
  import opened Outcomes
  import opened Text
  import opened Commits

  /** Count mode: the newest `limit` commits; time mode: the last 24 hours. */
  datatype Window = CountWindow(limit: nat) | TimeWindow

  /** What the repository host answers for the configured branch: either an
      error (repository not found, or any failure during the listing), or the
      branch history newest first together with the commits it lists since
      the cutoff. */
  datatype RepoAccess =
    | Unreachable
    | Reachable(newestFirst: seq<Commit>, sinceCutoff: seq<Commit>)

  function Min(a: nat, b: nat): nat {
    if a <= b then a else b
  }

  /** `int(raw) if raw and raw.isdigit() else None` */
  function ParseLimit(raw: Option<string>): (limit: Option<nat>)
    ensures limit.Some? <==> raw.Some? && IsDigits(raw.value)
    ensures limit.Some? ==> limit.value == DecimalValue(raw.value)
  {
    if raw.Some? && raw.value != "" && IsDigits(raw.value) then Some(DecimalValue(raw.value))
    else None
  }

  /** `if COMMIT_SCAN_LIMIT:` -- a limit of 0 is falsy and means time mode. */
  function SelectWindow(limit: Option<nat>): (w: Window)
    ensures w.CountWindow? ==> limit == Some(w.limit) && w.limit > 0
    ensures w.TimeWindow? <==> limit.None? || limit.value == 0
  {
    if limit.Some? && limit.value != 0 then CountWindow(limit.value) else TimeWindow
  }

  /** The sequence reversed: its last element comes first. */
  function Reverse(s: seq<Commit>): seq<Commit> {
    if |s| == 0 then [] else [s[|s| - 1]] + Reverse(s[..|s| - 1])
  }

  /** Position k of the reversal holds position |s|-1-k of the original. */
  lemma {:induction false} ReverseAt(s: seq<Commit>)
    ensures |Reverse(s)| == |s|
    ensures forall k :: 0 <= k < |s| ==> Reverse(s)[k] == s[|s| - 1 - k]
  {
    if |s| > 0 {
      ReverseAt(s[..|s| - 1]);
    }
  }

  /** What `fetch_new_commits` returns for a window: `None` on failure,
      otherwise the commits oldest first. */
  function FetchSpec(window: Window, repo: RepoAccess): (r: Option<seq<Commit>>)
    ensures r.None? <==> repo.Unreachable?
    ensures r.Some? && window.TimeWindow? ==> r.value == repo.sinceCutoff
    ensures r.Some? && window.CountWindow? ==>
      |r.value| == Min(window.limit, |repo.newestFirst|) &&
      forall k :: 0 <= k < |r.value| ==> r.value[k] == repo.newestFirst[|r.value| - 1 - k]
  {
    match repo
    case Unreachable => None
    case Reachable(newestFirst, sinceCutoff) =>
      match window
      case CountWindow(n) =>
        var recent := newestFirst[..Min(n, |newestFirst|)];
        ReverseAt(recent);
        Some(Reverse(recent))
      case TimeWindow => Some(sinceCutoff)
  }

  /** `new_commits.reverse()`: reverses the list in place. */
  method ReverseInPlace(a: array<Commit>)
    modifies a
    ensures a[..] == Reverse(old(a[..]))
  {
    var i, j := 0, a.Length - 1;
    while i < j
      invariant 0 <= i <= a.Length && j == a.Length - 1 - i
      invariant i <= j + 1
      invariant forall k :: 0 <= k < i ==> a[k] == old(a[a.Length - 1 - k]) && a[a.Length - 1 - k] == old(a[k])
      invariant forall k :: i <= k <= j ==> a[k] == old(a[k])
    {
      a[i], a[j] := a[j], a[i];
      i, j := i + 1, j - 1;
    }
    ReverseAt(old(a[..]));
  }

  /** `fetch_new_commits`: in count mode copy the first N of the newest-first
      listing into a fresh list and reverse it in place; in time mode pass the
      listing through. */
  method FetchNewCommits(limit: Option<nat>, repo: RepoAccess) returns (r: Option<seq<Commit>>)
    ensures r == None <==> repo.Unreachable?
    ensures r.Some? && SelectWindow(limit).CountWindow? ==>
      |r.value| == Min(limit.value, |repo.newestFirst|) &&
      forall k :: 0 <= k < |r.value| ==> r.value[k] == repo.newestFirst[|r.value| - 1 - k]
    ensures r == FetchSpec(SelectWindow(limit), repo)
  {
    if repo.Unreachable? {
      return None;
    }
    if limit.Some? && limit.value != 0 {
      var n := Min(limit.value, |repo.newestFirst|);
      var newCommits := new Commit[n](k requires 0 <= k < n => repo.newestFirst[k]);
      assert newCommits[..] == repo.newestFirst[..n];
      ReverseInPlace(newCommits);
      ReverseAt(repo.newestFirst[..n]);
      r := Some(newCommits[..]);
    } else {
      r := Some(repo.sinceCutoff);
    }
  }

  /** A non-empty all-digit setting with a non-zero value selects count mode
      with that value; anything else (unset, empty, non-digits, all zeros)
      selects time mode. */
  lemma WindowFromSetting(raw: Option<string>)
    ensures SelectWindow(ParseLimit(raw)).CountWindow? <==>
      raw.Some? && IsDigits(raw.value) && DecimalValue(raw.value) > 0
    ensures SelectWindow(ParseLimit(raw)).CountWindow? ==>
      SelectWindow(ParseLimit(raw)).limit == DecimalValue(raw.value)
  {
  }

  /** "0", "00", ... are valid limits of value 0 and so fall back to time mode. */
  lemma ZeroLimitIsTimeMode(raw: string)
    requires |raw| > 0 && forall i :: 0 <= i < |raw| ==> raw[i] == '0'
    ensures ParseLimit(Some(raw)) == Some(0)
    ensures SelectWindow(ParseLimit(Some(raw))) == TimeWindow
  {
    ZerosValue(raw);
  }

  /** Setting the limit to the numeral of n > 0 scans exactly n commits. */
  lemma LimitRoundTrip(n: nat)
    requires n > 0
    ensures SelectWindow(ParseLimit(Some(Decimal(n)))) == CountWindow(n)
  {
    DecimalRoundTrip(n);
  }

  /** Count mode yields min(N, |history|) commits, oldest first: the newest
      commit of the window comes last. */
  lemma CountWindowOldestFirst(n: nat, newestFirst: seq<Commit>, sinceCutoff: seq<Commit>)
    requires n > 0
    ensures var r := FetchSpec(CountWindow(n), Reachable(newestFirst, sinceCutoff));
      r.Some? && |r.value| == Min(n, |newestFirst|) &&
      (forall k :: 0 <= k < |r.value| ==> r.value[k] == newestFirst[|r.value| - 1 - k]) &&
      (|newestFirst| > 0 ==> r.value[|r.value| - 1] == newestFirst[0])
  {
    ReverseAt(newestFirst[..Min(n, |newestFirst|)]);
  }
}

/** The decisions of `main`: credential and target checks, the fetch, the
    filter, one report request, and the ordered deliveries of the report or
    of the failure notice. Environment variables are a map; the repository
    host, the API set-up, the summariser and the clock are parameters. */
module Pipeline {
  import opened Outcomes
  import opened Commits
  import opened Window
  import opened Report
  import opened Notify
  import opened Discussion

  /** The process environment */
  type Env = map<string, string>

  /** `os.environ.get(key)` */
  function Setting(env: Env, key: string): Option<string> {
    if key in env then Some(env[key]) else None
  }

  /** Python truthiness of an optional string: present and non-empty */
  predicate IsSet(v: Option<string>) {
    v.Some? && v.value != ""
  }

  /** `os.environ.get(key, default)` -- an empty setting stays empty */
  function SettingOr(env: Env, key: string, default: string): string {
    if key in env then env[key] else default
  }

  const UeRepoName := "EpicGames/UnrealEngine"
  const DefaultBranch := "ue5-main"
  const DefaultLanguage := "Japanese"
  const TitlePrefix := "Unreal Engine Daily Report - "
  const ErrorMessage := "Error: Failed to generate the report from AI. No content is available."

  /** The title of the run, from `time.strftime('%Y-%m-%d')` given as `date` */
  function Title(date: string): string {
    TitlePrefix + date
  }

  /** Discussion needs both a repository name and a token. */
  predicate HasDiscussionTarget(env: Env)
    ensures HasDiscussionTarget(env) <==>
      TargetOf(env, DiscussionKind).repoName != "" && TargetOf(env, DiscussionKind).pat != ""
  {
    IsSet(Setting(env, "DISCUSSION_REPO")) && IsSet(Setting(env, "DISCUSSION_REPO_PAT"))
  }

  /** Slack needs both a webhook URL and a channel. */
  predicate HasSlackTarget(env: Env)
    ensures HasSlackTarget(env) <==>
      TargetOf(env, SlackKind).webhookUrl != "" && TargetOf(env, SlackKind).channel != ""
  {
    IsSet(Setting(env, "SLACK_WEBHOOK_URL")) && IsSet(Setting(env, "SLACK_CHANNEL"))
  }

  /** Discord needs only its webhook URL. */
  predicate HasDiscordTarget(env: Env)
    ensures HasDiscordTarget(env) <==> TargetOf(env, DiscordKind).webhookUrl != ""
  {
    IsSet(Setting(env, "DISCORD_WEBHOOK_URL"))
  }

  /** Whether a destination kind is fully configured. */
  predicate Enabled(env: Env, k: TargetKind) {
    match k
    case DiscussionKind => HasDiscussionTarget(env)
    case SlackKind => HasSlackTarget(env)
    case DiscordKind => HasDiscordTarget(env)
  }

  /** The destination of a kind, built from its settings. */
  function TargetOf(env: Env, k: TargetKind): Target {
    match k
    case DiscussionKind =>
      DiscussionTarget(SettingOr(env, "DISCUSSION_REPO", ""), SettingOr(env, "DISCUSSION_REPO_PAT", ""),
                       SettingOr(env, "DISCUSSION_CATEGORY", DefaultCategory))
    case SlackKind => SlackTarget(SettingOr(env, "SLACK_WEBHOOK_URL", ""), SettingOr(env, "SLACK_CHANNEL", ""))
    case DiscordKind => DiscordTarget(SettingOr(env, "DISCORD_WEBHOOK_URL", ""))
  }

  datatype ExitReason =
    | MissingRepoPat
    | MissingGeminiKey
    | ApiSetupFailed
    | NoTarget
    | FetchFailed
    | NoNewCommits
    | NoImportantCommits
    | Finished

  /** The commit listing asked of the repository host. */
  datatype FetchCall = FetchCall(repoName: string, branch: string, window: Window)

  /** What a run did: why it stopped, the listing it asked for, the one
      summarisation request it made, the report it got, and the deliveries
      it attempted, in order. */
  datatype RunOutcome = RunOutcome(
    exit: ExitReason,
    fetch: Option<FetchCall>,
    request: Option<Request>,
    report: Option<string>,
    deliveries: seq<Delivery>)

  function Stop(reason: ExitReason): RunOutcome {
    RunOutcome(reason, None, None, None, [])
  }

  /** Steps 5a-5c of `main`, or the failure notices when there is no report. */
  function Dispatch(env: Env, report: Option<string>, title: string): (ds: seq<Delivery>)
    ensures |ds| <= 3
    ensures forall i :: 0 <= i < |ds| ==> ds[i].title == title && Enabled(env, ds[i].target.Kind())
    ensures forall i :: 0 <= i < |ds| && ds[i].target.Kind() == DiscussionKind ==>
      IsSet(report) && ds[i].body == report.value
    ensures !IsSet(report) ==> forall i :: 0 <= i < |ds| ==> ds[i].body == ErrorMessage
  {
    if IsSet(report) then
      (if HasDiscussionTarget(env) then [Delivery(TargetOf(env, DiscussionKind), title, report.value)] else []) +
      (if HasSlackTarget(env) then [Delivery(TargetOf(env, SlackKind), title, report.value)] else []) +
      (if HasDiscordTarget(env) then [Delivery(TargetOf(env, DiscordKind), title, report.value)] else [])
    else
      (if HasSlackTarget(env) then [Delivery(TargetOf(env, SlackKind), title, ErrorMessage)] else []) +
      (if HasDiscordTarget(env) then [Delivery(TargetOf(env, DiscordKind), title, ErrorMessage)] else [])
  }

  /** The window `fetch_new_commits` uses, from the `COMMIT_SCAN_LIMIT` setting. */
  function ConfiguredWindow(env: Env): Window {
    SelectWindow(ParseLimit(Setting(env, "COMMIT_SCAN_LIMIT")))
  }

  /** `main`. `apiSetupOk` is whether the clients were built, `repo` what the
      repository host answers, `generate` the summariser (template loading,
      formatting and the model call; `None` when any of them fails), `date`
      the day of the run. */
  function RunPipeline(env: Env, apiSetupOk: bool, repo: RepoAccess,
                       generate: Request -> Option<string>, date: string): (r: RunOutcome)
    ensures r.request.Some? <==> r.exit == Finished
    ensures r.fetch.Some? ==> r.fetch.value.repoName == UeRepoName && r.fetch.value.window == ConfiguredWindow(env)
    ensures r.deliveries != [] ==> r.exit == Finished && r.fetch.Some?
    ensures r.exit == Finished ==> r.deliveries == Dispatch(env, r.report, Title(date))
  {
    if !IsSet(Setting(env, "UE_REPO_PAT")) then Stop(MissingRepoPat)
    else if !IsSet(Setting(env, "GEMINI_API_KEY")) then Stop(MissingGeminiKey)
    else if !apiSetupOk then Stop(ApiSetupFailed)
    else if !HasDiscussionTarget(env) && !HasSlackTarget(env) && !HasDiscordTarget(env) then Stop(NoTarget)
    else
      var window := ConfiguredWindow(env);
      var call := Some(FetchCall(UeRepoName, SettingOr(env, "UE_BRANCH", DefaultBranch), window));
      match FetchSpec(window, repo)
      case None => RunOutcome(FetchFailed, call, None, None, [])
      case Some(newCommits) =>
        if newCommits == [] then RunOutcome(NoNewCommits, call, None, None, [])
        else
          var important := KeepImportant(newCommits);
          if important == [] then RunOutcome(NoImportantCommits, call, None, None, [])
          else
            var request := CompileRequest(SettingOr(env, "REPORT_LANGUAGE", DefaultLanguage), important);
            var report := generate(request);
            RunOutcome(Finished, call, Some(request), report, Dispatch(env, report, Title(date)))
  }

  /** The credential, set-up and target checks come before anything else:
      a run that stops at one of them has fetched, asked and sent nothing. */
  lemma PreflightHasNoEffects(env: Env, apiSetupOk: bool, repo: RepoAccess,
                              generate: Request -> Option<string>, date: string)
    ensures var r := RunPipeline(env, apiSetupOk, repo, generate, date);
      (r.exit == MissingRepoPat <==> !IsSet(Setting(env, "UE_REPO_PAT"))) &&
      (r.exit in {MissingRepoPat, MissingGeminiKey, ApiSetupFailed, NoTarget} <==> r.fetch.None?) &&
      (r.fetch.None? ==> r.request.None? && r.deliveries == [])
  {
  }

  /** With credentials and clients in place, a run stops before the fetch
      exactly when no destination is fully configured. */
  lemma NoTargetStopsBeforeFetch(env: Env, repo: RepoAccess,
                                 generate: Request -> Option<string>, date: string)
    requires IsSet(Setting(env, "UE_REPO_PAT")) && IsSet(Setting(env, "GEMINI_API_KEY"))
    ensures var r := RunPipeline(env, true, repo, generate, date);
      (r.exit == NoTarget <==> forall k: TargetKind :: !Enabled(env, k)) &&
      (r.exit == NoTarget ==> r.fetch.None? && r.deliveries == [])
  {
    if HasDiscussionTarget(env) {
      assert Enabled(env, DiscussionKind);
    } else if HasSlackTarget(env) {
      assert Enabled(env, SlackKind);
    } else if HasDiscordTarget(env) {
      assert Enabled(env, DiscordKind);
    }
  }

  /** A failed fetch, an empty window and an empty filtered list each end
      the run after the fetch, with no request and no delivery; a failed
      fetch is told apart from an empty one. */
  lemma NothingToDoStops(env: Env, apiSetupOk: bool, repo: RepoAccess,
                         generate: Request -> Option<string>, date: string)
    ensures var r := RunPipeline(env, apiSetupOk, repo, generate, date);
      r.exit in {FetchFailed, NoNewCommits, NoImportantCommits} ==>
        r.fetch.Some? && r.request.None? && r.deliveries == []
    ensures var r := RunPipeline(env, apiSetupOk, repo, generate, date);
      r.fetch.Some? ==>
        (r.exit == FetchFailed <==> repo.Unreachable?) &&
        (r.exit == NoNewCommits <==> FetchSpec(ConfiguredWindow(env), repo) == Some([])) &&
        (r.exit == NoImportantCommits ==>
          var fetched := FetchSpec(ConfiguredWindow(env), repo).value;
          fetched != [] && forall k :: 0 <= k < |fetched| ==> !FilterCommit(fetched[k]))
  {
    var r := RunPipeline(env, apiSetupOk, repo, generate, date);
    if r.fetch.Some? && r.exit == NoImportantCommits {
      KeepImportantEmpty(FetchSpec(ConfiguredWindow(env), repo).value);
    }
  }

  /** A run makes a summarisation request exactly when it gets to the end,
      and that one request carries the oldest-first commits that passed the
      filter, each as its metadata block; the report is the summariser's
      answer to it. */
  lemma OneRequestOfFilteredCommits(env: Env, apiSetupOk: bool, repo: RepoAccess,
                                    generate: Request -> Option<string>, date: string)
    ensures var r := RunPipeline(env, apiSetupOk, repo, generate, date);
      (r.request.Some? <==> r.exit == Finished) &&
      (r.exit == Finished ==>
        var fetched := FetchSpec(ConfiguredWindow(env), repo);
        var language := SettingOr(env, "REPORT_LANGUAGE", DefaultLanguage);
        fetched.Some? &&
        r.request.value == Request(PromptFile(language), language, Aggregate(KeepImportant(fetched.value))) &&
        KeepImportant(fetched.value) != [] &&
        r.report == generate(r.request.value))
  {
  }

  /** The dispatch plan: one delivery per usable destination, in the order
      discussion, Slack, Discord, each to the destination its settings
      describe, all with the run's title. A report goes to every enabled
      destination unchanged; without a report only the chat destinations
      are sent the fixed error message and the discussion gets nothing. */
  lemma DispatchPlan(env: Env, report: Option<string>, title: string)
    ensures var ds := Dispatch(env, report, title);
      (forall i, j :: 0 <= i < j < |ds| ==> Rank(ds[i].target.Kind()) < Rank(ds[j].target.Kind())) &&
      (forall i :: 0 <= i < |ds| ==>
        ds[i].target == TargetOf(env, ds[i].target.Kind()) && ds[i].title == title &&
        ds[i].body == (if IsSet(report) then report.value else ErrorMessage)) &&
      (forall k: TargetKind :: (exists i :: 0 <= i < |ds| && ds[i].target.Kind() == k) <==>
        Enabled(env, k) && (IsSet(report) || k != DiscussionKind))
  {
    var ds := Dispatch(env, report, title);
    forall k: TargetKind
      ensures (exists i :: 0 <= i < |ds| && ds[i].target.Kind() == k) <==>
        Enabled(env, k) && (IsSet(report) || k != DiscussionKind)
    {
      if Enabled(env, k) && (IsSet(report) || k != DiscussionKind) {
        var i := if k == DiscussionKind then 0
          else if k == SlackKind then (if IsSet(report) && HasDiscussionTarget(env) then 1 else 0)
          else |ds| - 1;
        assert ds[i].target.Kind() == k;
      }
    }
  }

  /** The failure notice is short enough that Discord gets it uncut. */
  lemma ErrorMessageUncut()
    ensures |ErrorMessage| <= DiscordLimit
    ensures DiscordDescription(ErrorMessage) == ErrorMessage
  {
  }

  /** With only one chat destination configured and no discussion, a report
      is delivered exactly once, to that destination. */
  lemma SingleChatTargetOneDelivery(env: Env, report: string, title: string, k: TargetKind)
    requires report != "" && k != DiscussionKind && Enabled(env, k)
    requires forall other: TargetKind :: other != k ==> !Enabled(env, other)
    ensures Dispatch(env, Some(report), title) == [Delivery(TargetOf(env, k), title, report)]
  {
    assert !Enabled(env, DiscussionKind);
    if k == SlackKind {
      assert !Enabled(env, DiscordKind);
    } else {
      assert !Enabled(env, SlackKind);
    }
  }
}

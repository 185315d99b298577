# Unreal Engine update tracker: decision logic

This project models the decision logic of the update tracker's `scripts/main.py`.
Each day the script lists the recent commits of the Unreal Engine repository.
It drops commits that cheap heuristics call uninteresting.
It sends the metadata of the remaining commits to a language model in one request.
Then it posts the resulting report to a GitHub Discussion, Slack and/or Discord.

Every network call and the clock are parameters or outcome values.
What remains is modelled in Dafny and proved:

- `Commits`: the commit record, the relevance filter `filter_commit`, and the list comprehension that applies it.
- `Window`: parsing of `COMMIT_SCAN_LIMIT`, the choice between count mode and time mode, and `fetch_new_commits`. Count mode copies the newest N commits into a list and reverses it in place.
- `Report`: the per-commit metadata block, the loop that collects the blocks and joins them with newlines, and the choice of prompt template.
- `Discussion`: `get_repository_and_category_ids`. It splits `owner/name`, runs a category search loop that stops at the first match, falls back to the first category, or fails. Also the variables `create_discussion` sends.
- `Notify`: the destinations, Discord's 4000-character cut, and the Slack payload body.
- `Pipeline`: `main` as a function. It takes the environment (a map), the API set-up outcome, the repository's answer, the summariser (a function from the request to an optional report) and the date. It returns why the run stopped, the listing it asked for, the single summarisation request, the report, and the ordered list of deliveries.
- `Text` and `Outcomes`: the Python string operations used above, plus `Option`/`Result`.

A commit with no changed files is never kept, merge or not.
`all(...)` over an empty file list is true, so the documentation rule (line 58) rejects it.
The merge rule (line 64) therefore never decides anything.
`Commits.NoFilesRejected` and `Commits.MergeRuleNeverDecides` state this.

Time mode passes the host's listing through in the order the host returns it.
The code's comment says that order is already chronological; the model does not check this.

## Model

| member | source | states |
|---|---|---|
| `Commits.FilterCommit` | scripts/main.py:51-69 | the four exclusion rules in source order; a kept commit has at least one file |
| `Commits.DocumentationOnlyRejected` | scripts/main.py:58-59 | a commit whose every file starts with `Documentation/` is dropped, vacuously so with no files |
| `Commits.NoFilesRejected` | scripts/main.py:58-59 | every commit with zero files is dropped, merge or not |
| `Commits.MergeRuleNeverDecides` | scripts/main.py:58-65 | an empty merge already fails the documentation rule, so the filter equals the documentation, typo and localization rules alone |
| `Commits.TypoSingleFileRejected` | scripts/main.py:56-62 | lower-cased message containing "typo" plus exactly one file means dropped |
| `Commits.TypoManyFilesKept` | scripts/main.py:56-69 | the same message with two or more files, one outside `Documentation/` and without `Localization/`, is kept |
| `Commits.TypoAnyCase` | scripts/main.py:56-62 | "typo" in any ASCII letter case at any position of a one-file commit's message drops it |
| `Commits.LocalizationOnlyRejected` | scripts/main.py:67-68 | a commit whose every file contains `Localization/` anywhere in the path is dropped |
| `Commits.OrdinaryFileKept` | scripts/main.py:51-69 | one file outside `Documentation/` and without `Localization/` keeps the commit unless the one-file typo rule fires |
| `Commits.FilterCommitExactly` | scripts/main.py:51-69 | kept iff some file is outside `Documentation/`, some file lacks `Localization/`, and it is not a one-file typo fix |
| `Commits.KeepImportant` | scripts/main.py:379 | survivors are input commits that pass the filter, no more of them than the input |
| `Commits.KeepImportantComplete` | scripts/main.py:379 | every input commit that passes the filter survives |
| `Commits.KeepImportantAppend` | scripts/main.py:379 | each commit is judged on its own and survivors keep input order: filtering `a + b` is filtering `a` then `b` |
| `Commits.KeepImportantEmpty` | scripts/main.py:379-383 | nothing survives iff no input commit passes the filter |
| `Window.ParseLimit` | scripts/main.py:12-13 | a limit is read iff the setting is present and all ASCII digits (non-empty), and then it is the numeral's value |
| `Window.SelectWindow` | scripts/main.py:28 | count mode only for a present, non-zero limit, which it keeps; time mode iff the limit is absent or 0 |
| `Window.FetchSpec` | scripts/main.py:24-48 | `None` iff the host fails; time mode gives the listing as returned; count mode gives min(N, history) commits whose position k holds the (len-1-k)th newest |
| `Window.WindowFromSetting` | scripts/main.py:13-28 | count mode iff the setting is a non-empty all-digit string of non-zero value, with that value as limit; otherwise time mode |
| `Window.ZeroLimitIsTimeMode` | scripts/main.py:13-28 | "0", "000" and the like parse to 0, which is falsy and selects time mode |
| `Window.LimitRoundTrip` | scripts/main.py:13-31 | setting the limit to the numeral of n > 0 selects count mode with limit n |
| `Window.ReverseInPlace` | scripts/main.py:32 | the list is reversed in place |
| `Window.FetchNewCommits` | scripts/main.py:17-48 | `None` iff the host fails; count mode returns min(N, history) commits with position k holding the (len-1-k)th newest; time mode returns the listing |
| `Window.CountWindowOldestFirst` | scripts/main.py:28-32 | count mode yields min(N, history) commits, reversed, the newest last |
| `Report.RenderBlock` | scripts/main.py:83-91 | a block is the fixed header with short hash, URL and message, then one `"- " + path + "\n"` line per file; with no files the header is followed by an empty line |
| `Report.Aggregate` | scripts/main.py:94 | no commits give the empty string, one commit gives its block, and the aggregate begins with the first commit's block; `AggregateAppend` and `AggregateHoldsBlock` state the rest |
| `Report.FileListLines` | scripts/main.py:83-91 | a block's files section is one `"- " + path + "\n"` line per changed file, in order |
| `Report.AggregateCommits` | scripts/main.py:78-94 | the loop yields one block per commit, in input order, joined by `"\n"` |
| `Report.AggregateAppend` | scripts/main.py:94 | the aggregate of `a + b` is the aggregate of `a`, a newline, then the aggregate of `b` |
| `Report.AggregateHoldsBlock` | scripts/main.py:84-94 | the block of every commit occurs in the aggregate |
| `Report.AggregateMetadataOnly` | scripts/main.py:80-92 | the aggregate depends only on the short hash, URL, message and file paths |
| `Report.PromptFile` | scripts/main.py:98-100 | `report_prompt_cn.md` iff the language is exactly "Chinese", else `report_prompt.md` |
| `Report.CompileRequest` | scripts/main.py:78-109 | the request carries the language, its template file, and an aggregate containing every commit's block |
| `Discussion.SplitOwnerNameExactly` | scripts/main.py:154 | unpacking succeeds iff the name holds exactly one '/'; the two parts rejoined around '/' give the name, and neither part contains '/' |
| `Discussion.SplitOwnerName` | scripts/main.py:154 | a successful split gives owner and name that rejoined around '/' are the name; otherwise the error is a malformed name |
| `Discussion.ResolveIds` | scripts/main.py:152-188 | a success needs a well-formed name and a found repository, keeps the repository's id and uses the first matching category or, on fallback, the first category; `NoCategories` iff the repository lists none |
| `Discussion.FirstMatch` | scripts/main.py:173-176 | the index found has the name and no earlier category does; no index means no category has it |
| `Discussion.GetRepositoryAndCategoryIds` | scripts/main.py:152-188 | the split, the query, the search loop with `break` and the fallback agree with the lookup's specification |
| `Discussion.MalformedNameFails` | scripts/main.py:154 | a name without exactly one '/' fails whatever the query would answer |
| `Discussion.NamedCategoryChosen` | scripts/main.py:172-176 | the first category with the configured name (and a non-empty id) is chosen, with no warning |
| `Discussion.FallbackToFirstCategory` | scripts/main.py:178-184 | with no matching name, the first category is used and a warning is raised |
| `Discussion.EmptyIdFallsBack` | scripts/main.py:172-184 | a first matching category with an empty id is falsy, so the first category listed is used, with a warning |
| `Discussion.NoCategoriesFails` | scripts/main.py:185-186 | a repository without categories is an error |
| `Discussion.ResolvedCategoryListed` | scripts/main.py:171-188 | a success names the queried repository and a category it lists; without a warning, that list holds the configured name |
| `Discussion.DiscussionMutation` | scripts/main.py:190-227 | a mutation is sent iff the lookup succeeds, carrying the looked-up repository and category ids and the title and body unchanged; otherwise the lookup's error |
| `Notify.DiscordDescription` | scripts/main.py:280-281 | at most 4000 characters pass unchanged; a longer body becomes its 4000-character prefix plus the notice, 4025 characters in all |
| `Notify.DiscordDescriptionIdempotent` | scripts/main.py:280-281 | cutting twice is the same as cutting once |
| `Notify.SendDiscordNotification` | scripts/main.py:273-294 | the reassigned local text is the cut body and the title is passed through |
| `Notify.SlackPayload` | scripts/main.py:237-262 | Slack's section is the message, never cut; the header is the title and the fallback is the bold title |
| `Notify.PostedTextKeepsPrefix` | scripts/main.py:237-281 | only Discord changes a body, only beyond 4000 characters, and every destination keeps the first 4000 characters |
| `Pipeline.HasDiscussionTarget` | scripts/main.py:349 | discussion is enabled iff its repository name and its token are both non-empty |
| `Pipeline.HasSlackTarget` | scripts/main.py:350 | Slack is enabled iff its webhook URL and its channel are both non-empty |
| `Pipeline.HasDiscordTarget` | scripts/main.py:351 | Discord is enabled iff its webhook URL is non-empty |
| `Pipeline.Dispatch` | scripts/main.py:393-429 | at most three deliveries, all with the given title and to enabled destinations; a discussion is only sent a real report; without a report every body is the error message; `DispatchPlan` states order and completeness |
| `Pipeline.RunPipeline` | scripts/main.py:304-429 | a request is made iff the run finishes; the fetch is of the Unreal Engine repository with the configured window; deliveries happen only in finished runs and are the dispatch plan for the report and the run's title |
| `Pipeline.PreflightHasNoEffects` | scripts/main.py:314-355 | a missing repository token stops the run first; the credential, set-up and target checks are exactly the stops before any fetch, and such runs request and send nothing |
| `Pipeline.NoTargetStopsBeforeFetch` | scripts/main.py:349-355 | with credentials in place, the run stops before fetching iff none of discussion (repo and token), Slack (URL and channel) or Discord (URL) is configured |
| `Pipeline.NothingToDoStops` | scripts/main.py:367-383 | a failed fetch, an empty window or an empty filter result ends the run with no request or delivery; a failed fetch is told apart from an empty one |
| `Pipeline.OneRequestOfFilteredCommits` | scripts/main.py:379-391 | there is exactly one request iff the run reaches the report step; it carries the aggregate of the commits that passed the filter, and the report is the summariser's answer to it |
| `Pipeline.DispatchPlan` | scripts/main.py:393-429 | deliveries go in the order discussion, Slack, Discord, at most one each, with the run's title; a report reaches every enabled destination unchanged; without one only Slack and Discord get the fixed error message |
| `Pipeline.ErrorMessageUncut` | scripts/main.py:422-429 | the failure notice is under Discord's limit and is sent uncut |
| `Pipeline.SingleChatTargetOneDelivery` | scripts/main.py:393-417 | with one chat destination and no discussion, a report produces exactly one delivery, to that destination |

## Left out

- GitHub access (`get_repo`, `get_commits`, lazy pagination of files and commits) is the `RepoAccess` value. `Unreachable` stands for every exception `fetch_new_commits` catches.
- `_run_graphql_query` is left out: it is an HTTP call. `RepoQuery` is the answer to the query the script sends (an error, a null repository, or the repository's id and categories). That query asks for at most 10 categories (line 159); the model does not bound the list's length.
- The result of the `createDiscussion` mutation and the Slack and Discord HTTP posts are left out, and so are their `True`/`False` returns. `main` ignores them, so a failing destination never affects the others.
- `genai.configure`, `GenerativeModel`, reading `prompts/<file>` and `str.format` are replaced by the `generate` parameter, an arbitrary function from the request to an optional report. A missing template or a model error is its `None`.
- Clocks (`datetime.utcnow()`, the 24-hour cutoff, `time.strftime`) are left out. The date is a parameter, and the cutoff is folded into the host's time-mode listing.
- Logging (`print`) is left out, and so are the payload fields that do not depend on inputs: username, icon, avatar, colour, timestamp, block types.
- Exceptions that `main` does not catch are left out. These are errors while reading commit attributes in the filter or in the block loop, which would stop the script.
- Python's Unicode `str.lower()` and `str.isdigit()` are modelled for ASCII only. A Unicode digit that `isdigit` accepts and `int` rejects is not modelled.

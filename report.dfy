/** The report request built by `analyze_commits_in_bulk`: one text block
    of metadata per surviving commit, the blocks joined by newlines, and the
    prompt template chosen by report language. */
module Report {
  import opened Text
  import opened Commits

  /** `commit.sha[:7]` (a shorter hash is kept whole) */
  function ShortSha(sha: string): string {
    if |sha| <= 7 then sha else sha[..7]
  }

  /** `"- " + filename` for every changed file, in order */
  function Bullets(files: seq<string>): seq<string> {
    seq(|files|, i requires 0 <= i < |files| => "- " + files[i])
  }

  /** `"\n".join(f"- {file.filename}" for file in commit.files)` */
  function FileList(files: seq<string>): string {
    Join(Bullets(files), "\n")
  }

  /** The fixed-shape block of one commit. */
  function RenderBlock(c: Commit): (block: string)
    ensures var head := "---\nCommit: " + ShortSha(c.sha) + "\nURL: " + c.url + "\nMessage:\n" + c.message +
      "\nFiles Changed:\n";
      (|c.files| > 0 ==> block == head + FileLines(c.files)) &&
      (|c.files| == 0 ==> block == head + "\n")
  {
    var head := "---\nCommit: " + ShortSha(c.sha) + "\nURL: " + c.url + "\nMessage:\n" + c.message +
      "\nFiles Changed:\n";
    if |c.files| > 0 then FileListLines(c.files); head + FileList(c.files) + "\n"
    else head + FileList(c.files) + "\n"
  }

  /** One line `"- " + filename + "\n"` per file. */
  function FileLines(files: seq<string>): string {
    if |files| == 0 then "" else "- " + files[0] + "\n" + FileLines(files[1..])
  }

  /** The files section of a block (the joined list plus the block's final
      newline) is one newline-terminated bullet line per file. */
  lemma {:induction false} FileListLines(files: seq<string>)
    requires |files| > 0
    ensures FileList(files) + "\n" == FileLines(files)
  {
    if |files| > 1 {
      assert Bullets(files)[1..] == Bullets(files[1..]);
      FileListLines(files[1..]);
    }
  }

  /** The block of each commit, in order */
  function Blocks(commits: seq<Commit>): seq<string> {
    seq(|commits|, i requires 0 <= i < |commits| => RenderBlock(commits[i]))
  }

  /** `"\n".join(commits_data)` */
  function Aggregate(commits: seq<Commit>): (aggregated: string)
    ensures |commits| == 0 ==> aggregated == ""
    ensures |commits| == 1 ==> aggregated == RenderBlock(commits[0])
    ensures |commits| > 0 ==> StartsWith(aggregated, RenderBlock(commits[0]))
  {
    var blocks := Blocks(commits);
    if |blocks| > 1 then
      assert Join(blocks, "\n")[..|blocks[0]|] == blocks[0];
      Join(blocks, "\n")
    else Join(blocks, "\n")
  }

  /** The loop of `analyze_commits_in_bulk`: append one block per commit,
      then join the blocks with newlines. */
  method AggregateCommits(commits: seq<Commit>) returns (aggregated: string)
    ensures aggregated == Aggregate(commits)
  {
    var commitsData: seq<string> := [];
    var i := 0;
    while i < |commits|
      invariant 0 <= i <= |commits|
      invariant |commitsData| == i
      invariant forall k :: 0 <= k < i ==> commitsData[k] == RenderBlock(commits[k])
    {
      var commit := commits[i];
      var fileList := Join(Bullets(commit.files), "\n");
      var commitInfo := "---\nCommit: " + ShortSha(commit.sha) + "\nURL: " + commit.url +
        "\nMessage:\n" + commit.message + "\nFiles Changed:\n" + fileList + "\n";
      commitsData := commitsData + [commitInfo];
      i := i + 1;
    }
    assert commitsData == Blocks(commits);
    aggregated := Join(commitsData, "\n");
  }

  /** Blocks keep input order: the aggregate of a concatenation is the two
      aggregates joined by one newline. */
  lemma AggregateAppend(a: seq<Commit>, b: seq<Commit>)
    requires |a| > 0 && |b| > 0
    ensures Aggregate(a + b) == Aggregate(a) + "\n" + Aggregate(b)
  {
    assert Blocks(a + b) == Blocks(a) + Blocks(b);
    JoinAppend(Blocks(a), Blocks(b), "\n");
  }

  /** The aggregate holds the block of every commit. */
  lemma AggregateHoldsBlock(commits: seq<Commit>, i: nat)
    requires i < |commits|
    ensures Contains(Aggregate(commits), RenderBlock(commits[i]))
  {
    JoinHoldsPart(Blocks(commits), "\n", i);
  }

  /** What a block shows of a commit: short hash, URL, message and file paths. */
  predicate SameMetadata(c: Commit, d: Commit) {
    ShortSha(c.sha) == ShortSha(d.sha) && c.url == d.url && c.message == d.message && c.files == d.files
  }

  /** The aggregate depends on nothing but that metadata: hash digits past the
      seventh, parents and anything else about a commit never reach the request. */
  lemma AggregateMetadataOnly(a: seq<Commit>, b: seq<Commit>)
    requires |a| == |b|
    requires forall k :: 0 <= k < |a| ==> SameMetadata(a[k], b[k])
    ensures Aggregate(a) == Aggregate(b)
  {
    assert Blocks(a) == Blocks(b);
  }

  const ChinesePrompt := "report_prompt_cn.md"
  const DefaultPrompt := "report_prompt.md"

  /** The template file read from `prompts/`. */
  function PromptFile(language: string): (file: string)
    ensures file == ChinesePrompt <==> language == "Chinese"
    ensures file != ChinesePrompt ==> file == DefaultPrompt
  {
    if language == "Chinese" then ChinesePrompt else DefaultPrompt
  }

  /** Everything the summarisation step is given: the template to load, the
      report language and the aggregated commit blocks. Loading the template,
      `str.format` and the model call happen behind this value. */
  datatype Request = Request(promptFile: string, language: string, aggregated: string)

  function CompileRequest(language: string, commits: seq<Commit>): (req: Request)
    ensures req.language == language && req.promptFile == PromptFile(language)
    ensures forall i :: 0 <= i < |commits| ==> Contains(req.aggregated, RenderBlock(commits[i]))
  {
    var req := Request(PromptFile(language), language, Aggregate(commits));
    assert forall i :: 0 <= i < |commits| ==> Contains(req.aggregated, RenderBlock(commits[i])) by {
      forall i | 0 <= i < |commits| ensures Contains(req.aggregated, RenderBlock(commits[i])) {
        AggregateHoldsBlock(commits, i);
      }
    }
    req
  }
}

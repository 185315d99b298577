/** The commit record and the relevance filter that decides which commits
    are worth summarising (`filter_commit` and the comprehension in `main`). */
module Commits {
  import opened Text

  /** What the pipeline reads of a fetched commit. */
  datatype Commit = Commit(
    sha: string,
    url: string,
    message: string,
    files: seq<string>,     // changed file paths, in the order listed
    parents: seq<string>)   // parent hashes: none for a root, two or more for a merge

  const DocumentationDir := "Documentation/"
  const LocalizationMarker := "Localization/"
  const TypoWord := "typo"

  /** `all(f.startswith("Documentation/") for f in files)` -- true of no files */
  predicate AllDocumentation(files: seq<string>) {
    forall i :: 0 <= i < |files| ==> StartsWith(files[i], DocumentationDir)
  }

  /** `all("Localization/" in f for f in files)` -- true of no files */
  predicate AllLocalization(files: seq<string>) {
    forall i :: 0 <= i < |files| ==> Contains(files[i], LocalizationMarker)
  }

  /** A one-file commit whose lower-cased message mentions "typo". */
  predicate IsTypoFix(c: Commit) {
    Contains(Lower(c.message), TypoWord) && |c.files| == 1
  }

  /** A merge (two or more parents) that changed no file. */
  predicate IsEmptyMerge(c: Commit) {
    |c.parents| > 1 && |c.files| == 0
  }

  /** A file path neither under the documentation directory nor in a localization directory. */
  predicate IsOrdinaryFile(f: string) {
    !StartsWith(f, DocumentationDir) && !Contains(f, LocalizationMarker)
  }

  /** `filter_commit`: the four exclusion rules in the order the source tries them. */
  function FilterCommit(c: Commit): (keep: bool)
    ensures keep ==> |c.files| > 0
  {
    if AllDocumentation(c.files) then false
    else if IsTypoFix(c) then false
    else if IsEmptyMerge(c) then false
    else if AllLocalization(c.files) then false
    else true
  }

  /** `[c for c in commits if filter_commit(c)]` */
  function KeepImportant(commits: seq<Commit>): (kept: seq<Commit>)
    ensures |kept| <= |commits|
    ensures forall k :: 0 <= k < |kept| ==> kept[k] in commits && FilterCommit(kept[k])
  {
    if |commits| == 0 then []
    else (if FilterCommit(commits[0]) then [commits[0]] else []) + KeepImportant(commits[1..])
  }

  /** Documentation-only commits are dropped; with no files this holds vacuously. */
  lemma DocumentationOnlyRejected(c: Commit)
    requires forall i :: 0 <= i < |c.files| ==> StartsWith(c.files[i], DocumentationDir)
    ensures !FilterCommit(c)
  {
  }

  /** Every commit without changed files is dropped, merge or not. */
  lemma NoFilesRejected(c: Commit)
    requires |c.files| == 0
    ensures !FilterCommit(c)
  {
  }

  /** The merge rule never decides: an empty merge is already caught by the
      documentation rule, so the filter is the other three rules alone. */
  lemma MergeRuleNeverDecides(c: Commit)
    ensures IsEmptyMerge(c) ==> AllDocumentation(c.files)
    ensures FilterCommit(c) == (!AllDocumentation(c.files) && !IsTypoFix(c) && !AllLocalization(c.files))
  {
  }

  /** A one-file commit mentioning "typo" is dropped. */
  lemma TypoSingleFileRejected(c: Commit)
    requires Contains(Lower(c.message), TypoWord) && |c.files| == 1
    ensures !FilterCommit(c)
  {
  }

  /** The same message on two or more files, one of them ordinary, is kept. */
  lemma TypoManyFilesKept(c: Commit, i: nat)
    requires Contains(Lower(c.message), TypoWord) && |c.files| >= 2
    requires i < |c.files| && IsOrdinaryFile(c.files[i])
    ensures FilterCommit(c)
  {
  }

  /** "typo" is found in any letter case: "Fix TYPO", "Typo in comment". */
  lemma TypoAnyCase(c: Commit, at: nat)
    requires at + |TypoWord| <= |c.message| && Lower(c.message[at..at + |TypoWord|]) == TypoWord
    requires |c.files| == 1
    ensures !FilterCommit(c)
  {
    assert Lower(TypoWord) == TypoWord;
    LowerFindsAnyCase(c.message, TypoWord, at);
  }

  /** Localization-only commits are dropped; "Localization/" may sit anywhere in the path. */
  lemma LocalizationOnlyRejected(c: Commit)
    requires forall i :: 0 <= i < |c.files| ==> Contains(c.files[i], LocalizationMarker)
    ensures !FilterCommit(c)
  {
  }

  /** A commit touching one ordinary file is kept unless the one-file typo rule fires. */
  lemma OrdinaryFileKept(c: Commit, i: nat)
    requires i < |c.files| && IsOrdinaryFile(c.files[i])
    requires !IsTypoFix(c)
    ensures FilterCommit(c)
  {
  }

  /** Exactly when a commit is kept: some file outside Documentation/, some
      file without Localization/ (not necessarily the same one), and not a
      one-file typo fix. */
  lemma FilterCommitExactly(c: Commit)
    ensures FilterCommit(c) <==>
      (exists i :: 0 <= i < |c.files| && !StartsWith(c.files[i], DocumentationDir)) &&
      (exists j :: 0 <= j < |c.files| && !Contains(c.files[j], LocalizationMarker)) &&
      !IsTypoFix(c)
  {
  }

  /** Every kept-worthy commit of the input survives. */
  lemma {:induction false} KeepImportantComplete(commits: seq<Commit>, c: Commit)
    requires c in commits && FilterCommit(c)
    ensures c in KeepImportant(commits)
  {
    if commits[0] != c {
      KeepImportantComplete(commits[1..], c);
    }
  }

  /** The filter treats each commit on its own and keeps survivors in order:
      filtering a concatenation concatenates the filtered halves. */
  lemma {:induction false} KeepImportantAppend(a: seq<Commit>, b: seq<Commit>)
    ensures KeepImportant(a + b) == KeepImportant(a) + KeepImportant(b)
  {
    if |a| == 0 {
      assert a + b == b;
    } else {
      assert (a + b)[1..] == a[1..] + b;
      KeepImportantAppend(a[1..], b);
    }
  }

  /** Nothing survives exactly when no commit passes the filter. */
  lemma KeepImportantEmpty(commits: seq<Commit>)
    ensures KeepImportant(commits) == [] <==> forall k :: 0 <= k < |commits| ==> !FilterCommit(commits[k])
  {
    if KeepImportant(commits) == [] {
      forall k | 0 <= k < |commits| ensures !FilterCommit(commits[k]) {
        if FilterCommit(commits[k]) {
          KeepImportantComplete(commits, commits[k]);
        }
      }
    } else {
      var kept := KeepImportant(commits);
      assert kept[0] in commits && FilterCommit(kept[0]);
    }
  }
}

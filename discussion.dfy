/** Where a discussion is posted (`get_repository_and_category_ids` and the
    variables `create_discussion` sends): split `owner/name`, then pick the
    category named in the configuration or else the first one listed. */
module Discussion {
  import opened Outcomes
  import opened Text

  const DefaultCategory := "Daily Reports"

  datatype Category = Category(id: string, name: string)

  /** The answer to the repository and category query: a failed request (bad
      status or a GraphQL error), a null repository, or the repository's id
      with the categories it lists, in order. */
  datatype RepoQuery =
    | QueryFailed
    | NoRepository
    | RepositoryFound(id: string, categories: seq<Category>)

  datatype LookupError = MalformedRepoName | QueryError | RepositoryMissing | NoCategories

  /** The ids found; `fellBack` records the warning printed when the named
      category was not used. */
  datatype Ids = Ids(repoId: string, categoryId: string, fellBack: bool)

  /** `owner, name = repo_name.split('/')`: unpacking fails unless the split
      gives exactly two pieces. */
  function SplitOwnerName(repoName: string): (r: Result<(string, string), LookupError>)
    ensures r.Ok? ==> r.value.0 + "/" + r.value.1 == repoName
    ensures r.Err? ==> r.error == MalformedRepoName
  {
    var parts := Split(repoName, '/');
    SplitJoin(repoName, '/');
    assert |parts| == 2 ==> Join(parts, "/") == parts[0] + "/" + parts[1];
    if |parts| == 2 then Ok((parts[0], parts[1])) else Err(MalformedRepoName)
  }

  /** The split succeeds exactly when the name holds one '/', and then the
      two pieces put back together around it are the name. */
  lemma SplitOwnerNameExactly(repoName: string)
    ensures SplitOwnerName(repoName).Ok? <==> Occurrences(repoName, '/') == 1
    ensures SplitOwnerName(repoName).Ok? ==>
      var (owner, name) := SplitOwnerName(repoName).value;
      owner + "/" + name == repoName && '/' !in owner && '/' !in name
  {
    SplitCount(repoName, '/');
    SplitJoin(repoName, '/');
    SplitPiecesFree(repoName, '/');
    var parts := Split(repoName, '/');
    if |parts| == 2 {
      assert Join(parts, "/") == parts[0] + "/" + parts[1];
    }
  }

  /** Index of the first category with the given name. */
  function FirstMatch(categories: seq<Category>, name: string): (r: Option<nat>)
    ensures r.Some? ==> r.value < |categories| && categories[r.value].name == name
    ensures r.Some? ==> forall k :: 0 <= k < r.value ==> categories[k].name != name
    ensures r.None? ==> forall k :: 0 <= k < |categories| ==> categories[k].name != name
  {
    if |categories| == 0 then None
    else if categories[0].name == name then Some(0)
    else
      match FirstMatch(categories[1..], name)
      case None => None
      case Some(j) => Some(j + 1)
  }

  /** The ids `get_repository_and_category_ids` returns, or why it raises.
      The fallback test is Python truthiness of the id, so a matching
      category with an empty id also falls back. */
  function ResolveIds(repoName: string, categoryName: string, query: RepoQuery): (r: Result<Ids, LookupError>)
    ensures r.Ok? ==>
      SplitOwnerName(repoName).Ok? && query.RepositoryFound? &&
      r.value.repoId == query.id && |query.categories| > 0
    ensures r.Ok? && !r.value.fellBack ==>
      var k := FirstMatch(query.categories, categoryName);
      k.Some? && r.value.categoryId == query.categories[k.value].id
    ensures r.Ok? && r.value.fellBack ==> r.value.categoryId == query.categories[0].id
    ensures r == Err(NoCategories) <==>
      SplitOwnerName(repoName).Ok? && query.RepositoryFound? && query.categories == []
  {
    if SplitOwnerName(repoName).Err? then Err(MalformedRepoName)
    else
      match query
      case QueryFailed => Err(QueryError)
      case NoRepository => Err(RepositoryMissing)
      case RepositoryFound(repoId, categories) =>
        var found := FirstMatch(categories, categoryName);
        if found.Some? && categories[found.value].id != "" then
          Ok(Ids(repoId, categories[found.value].id, false))
        else if |categories| > 0 then Ok(Ids(repoId, categories[0].id, true))
        else Err(NoCategories)
  }

  /** `get_repository_and_category_ids`: split the name, run the query, scan
      the categories until the first whose name matches, then fall back to
      the first category or fail. */
  method GetRepositoryAndCategoryIds(repoName: string, categoryName: string, query: RepoQuery)
    returns (r: Result<Ids, LookupError>)
    ensures r == ResolveIds(repoName, categoryName, query)
  {
    var parts := Split(repoName, '/');
    if |parts| != 2 {
      return Err(MalformedRepoName);
    }
    if query.QueryFailed? {
      return Err(QueryError);
    }
    if query.NoRepository? {
      return Err(RepositoryMissing);
    }
    var repoId, categories := query.id, query.categories;
    var categoryId: Option<string> := None;
    var i := 0;
    while i < |categories|
      invariant 0 <= i <= |categories|
      invariant categoryId.None? ==> forall k :: 0 <= k < i ==> categories[k].name != categoryName
      invariant categoryId == None ||
        (i < |categories| && FirstMatch(categories, categoryName) == Some(i) && categoryId == Some(categories[i].id))
    {
      if categories[i].name == categoryName {
        categoryId := Some(categories[i].id);
        break;
      }
      i := i + 1;
    }
    if categoryId.None? || categoryId.value == "" {
      if |categories| > 0 {
        r := Ok(Ids(repoId, categories[0].id, true));
      } else {
        r := Err(NoCategories);
      }
    } else {
      r := Ok(Ids(repoId, categoryId.value, false));
    }
  }

  /** A malformed `owner/name` fails before any query is made. */
  lemma MalformedNameFails(repoName: string, categoryName: string, query: RepoQuery)
    requires Occurrences(repoName, '/') != 1
    ensures ResolveIds(repoName, categoryName, query) == Err(MalformedRepoName)
  {
    SplitOwnerNameExactly(repoName);
  }

  /** With a named category present, the result is the first such category,
      without a warning (given its id is non-empty). */
  lemma NamedCategoryChosen(repoName: string, categoryName: string, repoId: string,
                            categories: seq<Category>, i: nat)
    requires Occurrences(repoName, '/') == 1
    requires i < |categories| && categories[i].name == categoryName && categories[i].id != ""
    requires forall k :: 0 <= k < i ==> categories[k].name != categoryName
    ensures ResolveIds(repoName, categoryName, RepositoryFound(repoId, categories)) ==
      Ok(Ids(repoId, categories[i].id, false))
  {
    SplitOwnerNameExactly(repoName);
  }

  /** Without a matching category the first one listed is used, with a warning. */
  lemma FallbackToFirstCategory(repoName: string, categoryName: string, repoId: string,
                                categories: seq<Category>)
    requires Occurrences(repoName, '/') == 1
    requires |categories| > 0
    requires forall k :: 0 <= k < |categories| ==> categories[k].name != categoryName
    ensures ResolveIds(repoName, categoryName, RepositoryFound(repoId, categories)) ==
      Ok(Ids(repoId, categories[0].id, true))
  {
    SplitOwnerNameExactly(repoName);
  }

  /** The fallback test is truthiness, so a first matching category with an
      empty id is passed over for the first category listed, with a warning. */
  lemma EmptyIdFallsBack(repoName: string, categoryName: string, repoId: string,
                         categories: seq<Category>, i: nat)
    requires Occurrences(repoName, '/') == 1
    requires i < |categories| && categories[i].name == categoryName && categories[i].id == ""
    requires forall k :: 0 <= k < i ==> categories[k].name != categoryName
    ensures ResolveIds(repoName, categoryName, RepositoryFound(repoId, categories)) ==
      Ok(Ids(repoId, categories[0].id, true))
  {
    SplitOwnerNameExactly(repoName);
  }

  /** A repository with no categories is an error. */
  lemma NoCategoriesFails(repoName: string, categoryName: string, repoId: string)
    requires Occurrences(repoName, '/') == 1
    ensures ResolveIds(repoName, categoryName, RepositoryFound(repoId, [])) == Err(NoCategories)
  {
    SplitOwnerNameExactly(repoName);
  }

  /** Any success names a category the repository actually lists. */
  lemma ResolvedCategoryListed(repoName: string, categoryName: string, query: RepoQuery)
    requires ResolveIds(repoName, categoryName, query).Ok?
    ensures query.RepositoryFound? && ResolveIds(repoName, categoryName, query).value.repoId == query.id
    ensures exists k :: (0 <= k < |query.categories| &&
      query.categories[k].id == ResolveIds(repoName, categoryName, query).value.categoryId)
    ensures !ResolveIds(repoName, categoryName, query).value.fellBack ==>
      exists k :: (0 <= k < |query.categories| && query.categories[k].name == categoryName)
  {
    var r := ResolveIds(repoName, categoryName, query).value;
    var found := FirstMatch(query.categories, categoryName);
    if found.Some? && query.categories[found.value].id != "" {
      assert query.categories[found.value].id == r.categoryId;
    } else {
      assert query.categories[0].id == r.categoryId;
    }
  }

  /** The variables of the `createDiscussion` mutation. */
  datatype Mutation = Mutation(repoId: string, categoryId: string, title: string, body: string)

  /** What `create_discussion` sends, or why it gives up (it returns False). */
  function DiscussionMutation(repoName: string, title: string, body: string, categoryName: string,
                              query: RepoQuery): (m: Result<Mutation, LookupError>)
    ensures m.Ok? <==> ResolveIds(repoName, categoryName, query).Ok?
    ensures m.Ok? ==> m.value.title == title && m.value.body == body
    ensures m.Ok? ==>
      m.value.repoId == ResolveIds(repoName, categoryName, query).value.repoId &&
      m.value.categoryId == ResolveIds(repoName, categoryName, query).value.categoryId
    ensures m.Err? ==> m.error == ResolveIds(repoName, categoryName, query).error
  {
    match ResolveIds(repoName, categoryName, query)
    case Err(e) => Err(e)
    case Ok(ids) => Ok(Mutation(ids.repoId, ids.categoryId, title, body))
  }
}

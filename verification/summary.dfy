/** Prompt assembly of the GitHub activity summariser: the report prompt is
    seeded with a fixed preamble and the developer's self-description, then,
    repository by repository, a commit section and a pull-request section
    are appended to it. The records the GitHub API would return are inputs. */
module GithubSummary {
  import opened Wrappers
  import opened Text
  import opened Sequences

  // ---------------------------------------------------------------------
  // Data model
  // ---------------------------------------------------------------------

  /** The run's configuration: who to summarise, how they describe
      themselves, which (owner, repository) pairs to visit, and the
      generation model's name. */
  datatype Query = Query(
    username: string,
    description: string,
    repositories: seq<(string, string)>,
    model: string)

  /** A commit as listed by the API; only its message reaches the prompt. */
  datatype Commit = Commit(message: string)

  datatype Author = Author(login: string)

  datatype MergeableState = Behind | Blocked | Clean | Dirty | Draft | HasHooks | Unknown | Unstable

  /** A pull request as listed by the API. `updatedAt` is an instant on the
      same integer time line as the cutoff. */
  datatype PullRequest = PullRequest(
    number: nat,
    title: Option<string>,
    body: Option<string>,
    user: Option<Author>,
    updatedAt: Option<int>,
    comments: Option<nat>,
    mergeableState: Option<MergeableState>)

  /** What the API returned for one repository: its commits and its pull
      requests, in the order received. */
  datatype Activity = Activity(commits: seq<Commit>, pulls: seq<PullRequest>)

  /** The growing prompt, reached by exclusive reference from every step
      that appends to it. */
  class PromptBuffer {
    var text: string

    constructor (init: string)
      ensures text == init
    {
      text := init;
    }

    method PushStr(s: string)
      modifies this
      ensures text == old(text) + s
    {
      text := text + s;
    }
  }

  // ---------------------------------------------------------------------
  // Seeding the prompt
  // ---------------------------------------------------------------------

  const Preamble: string := "You are an assistant that generates quarterly reports for open source software developers. You will be given a list of commits, pull requests, and potentially more information to use in generating your report. Your job is to bolster the developer and create a cohesive theme for their work. Your response should be approximately one page. Here is a self-description of the developer: "

  /** The initial prompt: the fixed preamble, immediately followed by the
      developer's self-description, which is therefore its suffix. */
  function BuildContext(query: Query): (prompt: string)
    ensures Preamble <= prompt
    ensures |prompt| == |Preamble| + |query.description|
    ensures prompt[|Preamble|..] == query.description
  {
    Preamble + query.description
  }

  // ---------------------------------------------------------------------
  // Commit section
  // ---------------------------------------------------------------------

  const MergeMarker: string := "Merge "

  /** A commit is taken for a merge when the first line of its message
      contains "Merge ". */
  predicate IsMergeCommit(c: Commit): (merge: bool)
    ensures merge ==> c.message != [] && Occurs(MergeMarker, c.message)
  {
    var line := FirstLine(c.message);
    if line.Some? && Contains(line.value, MergeMarker) then
      OccursInExtension(line.value, c.message, MergeMarker);
      true
    else
      false
  }

  /** The commits that are summarised: all but the merges (the function-value
      form of the test, for `Filter`). */
  predicate IsOrdinaryCommit(c: Commit) {
    !IsMergeCommit(c)
  }

  /** The field access `commit.message` as a function value, for `FlatMap`. */
  function MessageOf(c: Commit): string {
    c.message
  }

  const CommitLabel: string := "Merged commits summary for "

  /** "Merged commits summary for {owner}/{repo}". */
  function CommitHeader(owner: string, repo: string): (h: string)
    ensures |h| == |CommitLabel| + |owner| + 1 + |repo|
    ensures CommitLabel <= h && h[|h| - |repo|..] == repo
    ensures h[|CommitLabel|..|CommitLabel| + |owner|] == owner && h[|CommitLabel| + |owner|] == '/'
  {
    var h := CommitLabel + owner + "/" + repo;
    assert h[|CommitLabel|..|CommitLabel| + |owner|] == owner;
    assert h[|h| - |repo|..] == repo;
    h
  }

  /** What the commits contribute after the header: the full message of
      every non-merge commit, in the order received. */
  function CommitItems(commits: seq<Commit>): string {
    FlatMap(Filter(commits, IsOrdinaryCommit), MessageOf)
  }

  /** The text one commit summary appends: the header, then the items. */
  function CommitSection(owner: string, repo: string, commits: seq<Commit>): string {
    CommitHeader(owner, repo) + CommitItems(commits)
  }

  /** The commit section of `a + b` is that of `a` followed by the items of
      `b`. */
  lemma CommitSectionAppend(owner: string, repo: string, a: seq<Commit>, b: seq<Commit>)
    ensures CommitSection(owner, repo, a + b) == CommitSection(owner, repo, a) + CommitItems(b)
  {
    FilterAppend(a, b, IsOrdinaryCommit);
    FlatMapAppend(Filter(a, IsOrdinaryCommit), Filter(b, IsOrdinaryCommit), MessageOf);
    AppendAssoc(CommitHeader(owner, repo), CommitItems(a), CommitItems(b));
  }

  /** A merge commit, wherever it stands, contributes nothing. */
  lemma MergeCommitContributesNothing(owner: string, repo: string, before: seq<Commit>, m: Commit, after: seq<Commit>)
    requires IsMergeCommit(m)
    ensures CommitSection(owner, repo, before + [m] + after) == CommitSection(owner, repo, before + after)
  {
    FilterSkip(before, m, after, IsOrdinaryCommit);
  }

  /** A non-merge commit contributes its full message, unchanged, between the
      text of the commits before it and that of the commits after it. */
  lemma NonMergeCommitContributesMessage(owner: string, repo: string, before: seq<Commit>, c: Commit, after: seq<Commit>)
    requires !IsMergeCommit(c)
    ensures CommitSection(owner, repo, before + [c] + after)
         == CommitSection(owner, repo, before) + c.message + CommitItems(after)
  {
    FilterKeep(before, c, after, IsOrdinaryCommit);
    FlatMapMiddle(Filter(before, IsOrdinaryCommit), c, Filter(after, IsOrdinaryCommit), MessageOf);
    var h := CommitHeader(owner, repo);
    AppendAssoc(h, CommitItems(before) + c.message, CommitItems(after));
    AppendAssoc(h, CommitItems(before), c.message);
  }

  /** The header is appended even when every commit is a merge (or there
      are none): the section is then the header alone. */
  lemma OnlyMergesLeaveHeader(owner: string, repo: string, commits: seq<Commit>)
    requires forall c <- commits :: IsMergeCommit(c)
    ensures CommitSection(owner, repo, commits) == CommitHeader(owner, repo)
  {
    FilterNone(commits, IsOrdinaryCommit);
    assert CommitHeader(owner, repo) + [] == CommitHeader(owner, repo);
  }

  /** For a message written as a subject line, a line feed and a body, the
      merge test looks at the subject alone, whatever the body says. */
  lemma SubjectDecidesMerge(subject: string, body: string)
    requires '\n' !in subject
    ensures IsMergeCommit(Commit(subject + "\n" + body)) <==> Contains(subject, MergeMarker)
  {
    if subject != [] && subject[|subject| - 1] == '\r' {
      // A CRLF line ending: the line read back lacks the final '\r', which
      // the marker, ending in a space, cannot have matched.
      FirstLineOfCrlfJoined(subject, body);
      OccursDropLast(subject, MergeMarker);
    } else {
      FirstLineOfJoined(subject, body);
    }
  }

  /** For every non-empty message, with or without a line feed and with LF
      or CRLF line endings: the commit is a merge exactly when the text
      before the first line feed contains "Merge ". */
  lemma MergeIsFirstSegment(c: Commit)
    requires c.message != []
    ensures IsMergeCommit(c) <==> Contains(c.message[..LineEnd(c.message)], MergeMarker)
  {
    var s, k := c.message, LineEnd(c.message);
    if 0 < k < |s| && s[k - 1] == '\r' {
      assert s[..k - 1] == s[..k][..k - 1];
      OccursDropLast(s[..k], MergeMarker);
    }
  }

  /** One commit summary step: append the header, then walk the commits in
      order, skipping merges and appending every other message in full.
      An empty message has no first line, which the source treats as fatal. */
  method BuildCommitSummary(ctx: PromptBuffer, owner: string, repo: string, commits: seq<Commit>)
    requires forall c <- commits :: c.message != []
    modifies ctx
    ensures ctx.text == old(ctx.text) + CommitSection(owner, repo, commits)
  {
    var summary := CommitHeader(owner, repo);
    ctx.PushStr(summary);
    ghost var start := ctx.text;
    for i := 0 to |commits|
      invariant ctx.text == start + CommitItems(commits[..i])
    {
      var commit := commits[i];
      FlatMapFilterPrefixStep(commits, i, IsOrdinaryCommit, MessageOf);
      var firstLine := FirstLine(commit.message);
      if Contains(firstLine.value, MergeMarker) {
        continue;
      }
      AppendAssoc(start, CommitItems(commits[..i]), commit.message);
      ctx.PushStr(commit.message);
    }
    assert commits[..|commits|] == commits;
    AppendAssoc(old(ctx.text), summary, CommitItems(commits));
  }

  // ---------------------------------------------------------------------
  // Pull-request section
  // ---------------------------------------------------------------------

  /** A pull request is kept when its author is known and is `username`, and
      it was last updated strictly after the cutoff. */
  predicate KeepPullRequest(pr: PullRequest, username: string, cutoff: int): (keep: bool)
    ensures keep ==> pr.user == Some(Author(username))
    ensures pr.updatedAt == Some(cutoff) ==> !keep
  {
    pr.user.Some? && pr.user.value.login == username
    && pr.updatedAt.Some? && pr.updatedAt.value > cutoff
  }

  /** `KeepPullRequest` for fixed `username` and `cutoff`, as the function
      value the filter chain applies; it adds no condition of its own. */
  function KeepFor(username: string, cutoff: int): PullRequest -> bool {
    pr => KeepPullRequest(pr, username, cutoff)
  }

  const PrLabel: string := "Open pull request summary for "

  /** "Open pull request summary for {owner}/{repo}". */
  function PrHeader(owner: string, repo: string): (h: string)
    ensures |h| == |PrLabel| + |owner| + 1 + |repo|
    ensures PrLabel <= h && h[|h| - |repo|..] == repo
    ensures h[|PrLabel|..|PrLabel| + |owner|] == owner && h[|PrLabel| + |owner|] == '/'
  {
    var h := PrLabel + owner + "/" + repo;
    assert h[|PrLabel|..|PrLabel| + |owner|] == owner;
    assert h[|h| - |repo|..] == repo;
    h
  }

  const TitleSeparator: string := " #"

  /** The title line of a pull request, "{title} #{number}", or nothing when
      it has no title. */
  function TitleText(title: Option<string>, number: nat): (t: string)
    ensures t == [] <==> title.None?
    ensures title.Some? ==> title.value + TitleSeparator <= t
  {
    if title.Some? then title.value + TitleSeparator + Decimal(number) else []
  }

  /** The title line starts with the title and the separator, and the rest
      is the numeral of the pull request's number, which reads back as that
      number. */
  lemma TitleTextReadsBack(title: string, number: nat)
    ensures var t, n := TitleText(Some(title), number), |title| + |TitleSeparator|;
      n <= |t| && t[..n] == title + TitleSeparator
      && (forall i :: n <= i < |t| ==> IsDigit(t[i]))
      && ParseDecimal(t[n..]) == number
  {
    var t := TitleText(Some(title), number);
    assert t[|title| + |TitleSeparator|..] == Decimal(number);
    DecimalRoundTrip(number);
  }

  const DescriptionLabel: string := "PR description: "

  /** The description line of a pull request, or nothing when it has no body. */
  function BodyText(body: Option<string>): (d: string)
    ensures d == [] <==> body.None?
    ensures body.Some? ==> DescriptionLabel <= d && d[|DescriptionLabel|..] == body.value
  {
    if body.Some? then DescriptionLabel + body.value else []
  }

  /** What one kept pull request contributes: its title line, then its
      description line. */
  function PrText(pr: PullRequest): (t: string)
    ensures t == [] <==> pr.title.None? && pr.body.None?
    ensures pr.title.Some? ==> pr.title.value + TitleSeparator <= t
    ensures pr.body.Some? ==> |pr.body.value| <= |t| && t[|t| - |pr.body.value|..] == pr.body.value
  {
    var title, body := TitleText(pr.title, pr.number), BodyText(pr.body);
    assert (title + body)[|title|..] == body;
    title + body
  }

  /** What the pull requests contribute after the header: the text of every
      kept pull request, in the order received. */
  function PrItems(username: string, cutoff: int, prs: seq<PullRequest>): string {
    FlatMap(Filter(prs, KeepFor(username, cutoff)), PrText)
  }

  /** The text one pull-request summary appends: the header, then the items. */
  function PrSection(owner: string, repo: string, username: string, cutoff: int, prs: seq<PullRequest>): string {
    PrHeader(owner, repo) + PrItems(username, cutoff, prs)
  }

  /** The pull-request section of `a + b` is that of `a` followed by the
      items of `b`. */
  lemma PrSectionAppend(owner: string, repo: string, username: string, cutoff: int, a: seq<PullRequest>, b: seq<PullRequest>)
    ensures PrSection(owner, repo, username, cutoff, a + b)
         == PrSection(owner, repo, username, cutoff, a) + PrItems(username, cutoff, b)
  {
    var keep := KeepFor(username, cutoff);
    FilterAppend(a, b, keep);
    FlatMapAppend(Filter(a, keep), Filter(b, keep), PrText);
    AppendAssoc(PrHeader(owner, repo), PrItems(username, cutoff, a), PrItems(username, cutoff, b));
  }

  /** A pull request with no author, another author, no update time, or an
      update time at or before the cutoff contributes nothing. */
  lemma ExcludedPrContributesNothing(owner: string, repo: string, username: string, cutoff: int,
                                     before: seq<PullRequest>, pr: PullRequest, after: seq<PullRequest>)
    requires pr.user.None? || pr.user.value.login != username
          || pr.updatedAt.None? || pr.updatedAt.value <= cutoff
    ensures PrSection(owner, repo, username, cutoff, before + [pr] + after)
         == PrSection(owner, repo, username, cutoff, before + after)
  {
    FilterSkip(before, pr, after, KeepFor(username, cutoff));
  }

  /** A kept pull request contributes its title line and then its
      description line, between the text of the pull requests before it and
      that of the ones after it. */
  lemma KeptPrContributesText(owner: string, repo: string, username: string, cutoff: int,
                              before: seq<PullRequest>, pr: PullRequest, after: seq<PullRequest>)
    requires pr.user.Some? && pr.user.value.login == username
    requires pr.updatedAt.Some? && pr.updatedAt.value > cutoff
    ensures PrSection(owner, repo, username, cutoff, before + [pr] + after)
         == PrSection(owner, repo, username, cutoff, before) + PrText(pr) + PrItems(username, cutoff, after)
  {
    var keep := KeepFor(username, cutoff);
    FilterKeep(before, pr, after, keep);
    FlatMapMiddle(Filter(before, keep), pr, Filter(after, keep), PrText);
    var h := PrHeader(owner, repo);
    AppendAssoc(h, PrItems(username, cutoff, before) + PrText(pr), PrItems(username, cutoff, after));
    AppendAssoc(h, PrItems(username, cutoff, before), PrText(pr));
  }

  /** `p` and `q` agree on everything except the comment count and the
      mergeable state, which the source only prints. */
  predicate SameButConsoleFields(p: PullRequest, q: PullRequest) {
    p.(comments := q.comments, mergeableState := q.mergeableState) == q
  }

  /** Comment counts and mergeable states never reach the prompt. */
  lemma {:induction false} ConsoleFieldsDoNotReachPrompt(owner: string, repo: string, username: string, cutoff: int,
                                                         prs: seq<PullRequest>, others: seq<PullRequest>)
    requires |prs| == |others|
    requires forall i :: 0 <= i < |prs| ==> SameButConsoleFields(prs[i], others[i])
    ensures PrSection(owner, repo, username, cutoff, prs) == PrSection(owner, repo, username, cutoff, others)
  {
    ConsoleFieldsDoNotReachItems(username, cutoff, prs, others);
  }

  /** Pull requests that differ only in the printed fields are selected
      alike and contribute the same text. */
  lemma SameButConsoleFieldsAgree(username: string, cutoff: int, p: PullRequest, q: PullRequest)
    requires SameButConsoleFields(p, q)
    ensures KeepFor(username, cutoff)(p) == KeepFor(username, cutoff)(q)
    ensures PrText(p) == PrText(q)
  {
    assert p.title == q.title && p.body == q.body && p.number == q.number;
    assert p.user == q.user && p.updatedAt == q.updatedAt;
  }

  lemma {:induction false} ConsoleFieldsDoNotReachItems(username: string, cutoff: int,
                                                        prs: seq<PullRequest>, others: seq<PullRequest>)
    requires |prs| == |others|
    requires forall i :: 0 <= i < |prs| ==> SameButConsoleFields(prs[i], others[i])
    ensures PrItems(username, cutoff, prs) == PrItems(username, cutoff, others)
    decreases |prs|
  {
    if prs != [] {
      var n := |prs| - 1;
      ConsoleFieldsDoNotReachItems(username, cutoff, prs[..n], others[..n]);
      SameButConsoleFieldsAgree(username, cutoff, prs[n], others[n]);
      var keep := KeepFor(username, cutoff);
      FlatMapFilterPrefixStep(prs, n, keep, PrText);
      FlatMapFilterPrefixStep(others, n, keep, PrText);
      assert prs[..n + 1] == prs && others[..n + 1] == others;
    }
  }

  /** The body of the loop over kept pull requests: append the title line
      when there is a title, then the description line when there is a
      body. The comment count and the mergeable state are only printed. */
  method AppendPrText(ctx: PromptBuffer, pr: PullRequest)
    modifies ctx
    ensures ctx.text == old(ctx.text) + PrText(pr)
  {
    if pr.title.Some? {
      ctx.PushStr(pr.title.value + TitleSeparator + Decimal(pr.number));
    } else {
      assert old(ctx.text) + TitleText(pr.title, pr.number) == old(ctx.text);
    }
    ghost var titled := ctx.text;
    if pr.body.Some? {
      ctx.PushStr(DescriptionLabel + pr.body.value);
    } else {
      assert titled + BodyText(pr.body) == titled;
    }
    AppendAssoc(old(ctx.text), TitleText(pr.title, pr.number), BodyText(pr.body));
  }

  /** One pull-request summary step: append the header, select the kept pull
      requests, then append the text of each in order. */
  method BuildPrSummary(ctx: PromptBuffer, username: string, cutoff: int, owner: string, repo: string, prs: seq<PullRequest>)
    modifies ctx
    ensures ctx.text == old(ctx.text) + PrSection(owner, repo, username, cutoff, prs)
  {
    var summary := PrHeader(owner, repo);
    ctx.PushStr(summary);
    ghost var start := ctx.text;
    var filteredOnUser := Filter(prs, KeepFor(username, cutoff));
    for i := 0 to |filteredOnUser|
      invariant ctx.text == start + FlatMap(filteredOnUser[..i], PrText)
    {
      FlatMapPrefixStep(filteredOnUser, i, PrText);
      AppendAssoc(start, FlatMap(filteredOnUser[..i], PrText), PrText(filteredOnUser[i]));
      AppendPrText(ctx, filteredOnUser[i]);
    }
    assert filteredOnUser[..|filteredOnUser|] == filteredOnUser;
    AppendAssoc(old(ctx.text), summary, PrItems(username, cutoff, prs));
  }

  // ---------------------------------------------------------------------
  // The whole prompt
  // ---------------------------------------------------------------------

  /** Every commit message the API returned is non-empty. */
  predicate WellFormedCommits(fetched: seq<Activity>) {
    forall a <- fetched, c <- a.commits :: c.message != []
  }

  /** What one repository appends: its commit section, then its
      pull-request section. */
  function RepositoryText(username: string, cutoff: int, repository: (string, string), activity: Activity): string {
    CommitSection(repository.0, repository.1, activity.commits)
    + PrSection(repository.0, repository.1, username, cutoff, activity.pulls)
  }

  function RepositoryTextFor(username: string, cutoff: int): (((string, string), Activity)) -> string {
    (entry: ((string, string), Activity)) => RepositoryText(username, cutoff, entry.0, entry.1)
  }

  /** What the repositories append after the context, in the configured
      order. */
  function RepositorySections(username: string, cutoff: int, repositories: seq<(string, string)>, fetched: seq<Activity>): string
    requires |repositories| == |fetched|
  {
    FlatMap(Zip(repositories, fetched), RepositoryTextFor(username, cutoff))
  }

  /** Repositories contribute in the configured order: the sections of a
      split list are those of its two parts, one after the other. */
  lemma RepositorySectionsAppend(username: string, cutoff: int,
                                 r1: seq<(string, string)>, f1: seq<Activity>,
                                 r2: seq<(string, string)>, f2: seq<Activity>)
    requires |r1| == |f1| && |r2| == |f2|
    ensures RepositorySections(username, cutoff, r1 + r2, f1 + f2)
         == RepositorySections(username, cutoff, r1, f1) + RepositorySections(username, cutoff, r2, f2)
  {
    ZipAppend(r1, f1, r2, f2);
    FlatMapAppend(Zip(r1, f1), Zip(r2, f2), RepositoryTextFor(username, cutoff));
  }

  /** The loop over the configured repositories: for each, in order, its
      commit summary and then its pull-request summary are appended. */
  method AppendRepositories(ctx: PromptBuffer, username: string, cutoff: int,
                            repositories: seq<(string, string)>, fetched: seq<Activity>)
    requires |fetched| == |repositories|
    requires WellFormedCommits(fetched)
    modifies ctx
    ensures ctx.text == old(ctx.text) + RepositorySections(username, cutoff, repositories, fetched)
  {
    ghost var start := ctx.text;
    ghost var entries := Zip(repositories, fetched);
    ghost var section := RepositoryTextFor(username, cutoff);
    for i := 0 to |repositories|
      invariant ctx.text == start + FlatMap(entries[..i], section)
    {
      var (owner, repo) := repositories[i];
      assert fetched[i] in fetched;
      ghost var done := ctx.text;
      BuildCommitSummary(ctx, owner, repo, fetched[i].commits);
      BuildPrSummary(ctx, username, cutoff, owner, repo, fetched[i].pulls);
      ghost var cs := CommitSection(owner, repo, fetched[i].commits);
      ghost var ps := PrSection(owner, repo, username, cutoff, fetched[i].pulls);
      FlatMapPrefixStep(entries, i, section);
      assert section(entries[i]) == cs + ps;
      AppendAssoc(done, cs, ps);
      AppendAssoc(start, FlatMap(entries[..i], section), cs + ps);
    }
    assert entries[..|entries|] == entries;
  }

  /** The whole run up to the generation call: seed the prompt with the
      context, then append every configured repository's sections. The
      result starts with the context, and with no repositories it is the
      context alone. */
  method Run(query: Query, cutoff: int, fetched: seq<Activity>) returns (prompt: string)
    requires |fetched| == |query.repositories|
    requires WellFormedCommits(fetched)
    ensures BuildContext(query) <= prompt
    ensures prompt == BuildContext(query) + RepositorySections(query.username, cutoff, query.repositories, fetched)
  {
    var ctx := new PromptBuffer(BuildContext(query));
    AppendRepositories(ctx, query.username, cutoff, query.repositories, fetched);
    prompt := ctx.text;
  }
}

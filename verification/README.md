# github-summary: prompt assembly

github-summary builds a quarterly activity report for one developer. It reads
a configuration (username, self-description, a list of `(owner, repository)`
pairs and a model name). It asks GitHub for that developer's recent commits
and pull requests in each repository, and hands one long prompt string to a
local language model. This project models how that prompt is put together
and proves what ends up in it:

- `build_context` seeds the prompt with a fixed preamble followed by the
  developer's self-description.
- For every configured repository, in order, `build_commit_summary` and then
  `build_pr_summary` append to the same `&mut String`:
  - the commit step appends a header, then the full message of every commit
    whose first line does not contain `"Merge "`;
  - the pull-request step appends a header, then, for every pull request
    authored by the user and updated strictly after the cutoff,
    `"{title} #{number}"` (when there is a title) followed by
    `"PR description: {body}"` (when there is a body).

Files:

- `wrappers.dfy` holds `Option`.
- `text.dfy` (module `Text`) models the pieces of Rust's `str` library the
  code relies on: `contains`, the first item of `lines()`, and the decimal
  rendering of an integer.
- `seqs.dfy` (module `Sequences`) holds generic filter / flat-map / zip
  functions and their append lemmas.
- `summary.dfy` (module `GithubSummary`) holds the rest:
  - the records;
  - the mutable prompt, a class `PromptBuffer` whose methods append to it;
  - the specification functions `BuildContext`, `CommitSection`,
    `PrSection` and `RepositorySections`;
  - the imperative steps `BuildCommitSummary`, `BuildPrSummary` and `Run`,
    each proved to append exactly its specification function's text;
  - the lemmas about those functions.

The records GitHub would return are inputs. `Run` takes them as a sequence
`fetched` aligned with the configured repositories. Timestamps and the cutoff
("three months ago") are integers on one time line.

The model follows `src/main.rs` in these details:

- each header is appended as soon as its step starts, even when nothing
  follows it;
- a header is followed directly by the first item, with no sentence of
  instructions in between;
- items are concatenated with no separator or newline;
- the self-description is a required field of the configuration;
- pull requests are selected on `updated_at` only (never `created_at`);
- one page of at most 100 pull requests is requested, with no further
  pages (the model takes whatever list the API returned).

## Model

| member | source | states |
|---|---|---|
| GithubSummary.BuildContext | src/main.rs:58-63 | the prompt is the fixed preamble (verbatim) followed by the self-description, which is therefore its suffix; the length is their sum |
| Text.Contains | src/main.rs:91 | `contains` is true exactly when the pattern occurs at some index of the line (proved against the reference predicate `Occurs`) |
| Text.LineEnd | src/main.rs:85-89 | index of the first line feed: within bounds, no line feed before it, and a line feed at it unless it is the end |
| Text.LineEndUnique | src/main.rs:85-89 | those three facts determine the first line feed's position uniquely |
| Text.FirstLine | src/main.rs:85-90 | `lines().next()` is `None` exactly for the empty message; otherwise the line is a prefix with no line feed, ending at the end, at a line feed, or at a `\r\n` pair, and a line ended by a line feed never keeps the `\r` before it |
| Text.FirstLineOfJoined | src/main.rs:85-90 | the first line of `subject + "\n" + rest` is `subject` (when the subject has no line feed and does not end in `\r`) |
| Text.FirstLineOfCrlfJoined | src/main.rs:85-90 | with a CRLF line ending, the first line of `subject + "\n" + rest` is `subject` without its final `\r` |
| GithubSummary.IsMergeCommit | src/main.rs:85-91 | a commit taken for a merge has a non-empty message in which `"Merge "` occurs |
| GithubSummary.SubjectDecidesMerge | src/main.rs:85-93 | a message written as a subject, a line feed and a body is skipped as a merge exactly when the subject contains `"Merge "`, whatever the body says, with LF or CRLF line endings alike |
| GithubSummary.MergeIsFirstSegment | src/main.rs:85-91 | every non-empty message, one-line ones included, is a merge exactly when the text before its first line feed contains `"Merge "` |
| GithubSummary.MergeCommitContributesNothing | src/main.rs:91-93 | a merge commit anywhere in the list leaves the commit section unchanged, as if it were absent |
| GithubSummary.NonMergeCommitContributesMessage | src/main.rs:84-96 | a non-merge commit contributes its full message, unchanged, after the text of the earlier commits and before that of the later ones |
| GithubSummary.CommitHeader | src/main.rs:73 | the commit header is "Merged commits summary for " followed by `owner`, `/` and `repo`: the label is its prefix, `owner` follows it, then `/`, and `repo` is its suffix, with nothing else in it |
| GithubSummary.OnlyMergesLeaveHeader | src/main.rs:73-75 | when every commit is a merge, or there are none, the section is exactly the header |
| GithubSummary.CommitSectionAppend | src/main.rs:84-96 | the section for `a + b` is the section for `a` followed by the items of `b`: commits contribute in list order |
| GithubSummary.BuildCommitSummary | src/main.rs:65-97 | appends and never rewrites: the new prompt is the old one followed by the header and then every non-merge message in order; an empty message is excluded by a precondition because it is fatal in the source |
| Sequences.FilterMembers | src/main.rs:117-122 | the filtered list holds exactly the elements of the input that pass the predicate |
| GithubSummary.KeepPullRequest | src/main.rs:117-122 | a kept pull request is authored by `username`, and one updated exactly at the cutoff is never kept |
| GithubSummary.ExcludedPrContributesNothing | src/main.rs:117-122 | a pull request with no author, another author, no update time, or an update time at or before the cutoff contributes nothing |
| GithubSummary.KeptPrContributesText | src/main.rs:117-131 | a pull request by the user updated strictly after the cutoff contributes its title line and then its description line, after the earlier ones' text and before the later ones' |
| GithubSummary.TitleTextReadsBack | src/main.rs:124-125 | the title line is the title, then `" #"`, then a numeral made of digits only that reads back as the pull-request number |
| GithubSummary.TitleText | src/main.rs:124-128 | a title line exists exactly when the pull request has a title, and starts with the title and `" #"` |
| Text.Decimal | src/main.rs:125 | the numeral of a number is non-empty, made of digits only, and starts with `0` only when it is `"0"` itself |
| Text.DecimalRoundTrip | src/main.rs:125 | parsing the numeral of `n` gives back `n` |
| GithubSummary.BodyText | src/main.rs:129-131 | a description line exists exactly when the pull request has a body, and is "PR description: " followed by the whole body |
| GithubSummary.PrText | src/main.rs:124-131 | a kept pull request contributes nothing exactly when it has neither title nor body; otherwise, when it has a title, its text starts with the title and `" #"`, and when it has a body, its text ends with the whole body |
| GithubSummary.PrHeader | src/main.rs:107 | the pull-request header is "Open pull request summary for " followed by `owner`, `/` and `repo`: the label is its prefix, `owner` follows it, then `/`, and `repo` is its suffix, with nothing else in it |
| GithubSummary.PrSectionAppend | src/main.rs:117-131 | the section for `a + b` is the section for `a` followed by the items of `b`: pull requests contribute in list order |
| GithubSummary.SameButConsoleFieldsAgree | src/main.rs:124-137 | two pull requests that differ only in comment count and mergeable state are selected alike and contribute the same text |
| GithubSummary.ConsoleFieldsDoNotReachItems | src/main.rs:123-138 | replacing the comment counts and mergeable states of any pull requests leaves the appended items unchanged |
| GithubSummary.ConsoleFieldsDoNotReachPrompt | src/main.rs:132-137 | the same for the whole pull-request section: comments and mergeable state are only printed, never appended |
| GithubSummary.AppendPrText | src/main.rs:124-137 | one loop step appends the title line (if any), then the description line (if any), and nothing for the printed fields |
| GithubSummary.BuildPrSummary | src/main.rs:99-139 | appends and never rewrites: the new prompt is the old one followed by the header and then the text of every kept pull request in order |
| GithubSummary.PromptBuffer.PushStr | src/main.rs:75 | `push_str` appends its argument and keeps what was there |
| GithubSummary.RepositorySectionsAppend | src/main.rs:29-50 | repositories contribute in configured order: the text for a split list is that of the first part followed by that of the second |
| GithubSummary.AppendRepositories | src/main.rs:29-50 | for each repository in order, its commit section and then its pull-request section are appended to the prompt |
| GithubSummary.Run | src/main.rs:22-50 | the final prompt starts with the seeded context, followed by the sections of every configured repository in order |

## Left out

- The GitHub calls (`list_commits().since().author()`, `pulls().list().per_page(100)`) are not modelled. Their results are inputs, and the model assumes the commit list is already restricted to the user and the quarter, as the API promises.
- The language-model call and printing its response are left out. The prompt `Run` returns is what would be sent.
- Reading `config.json` and deserialising it are left out. `Query` is an input.
- The clock is left out: the cutoff (now minus three months) is an integer parameter.
- Console output (`println!`, `print_green`) is left out. It never touches the prompt, and `ConsoleFieldsDoNotReachPrompt` proves that the printed-only fields do not either.
- The `model` field of `Query` is carried but not used. It only names the generation model.
- The async runtime, the shared `Arc` client and the `unwrap` panics on failed requests are left out. A failed request never reaches the prompt-building code.
- BuildCommitSummary: the source panics on a commit with an empty message. The model excludes such inputs by precondition instead of modelling the abort.
- PullRequest: the number is modelled as an unbounded natural rather than a 64-bit unsigned integer. A number never exceeds the 64-bit range, so its decimal text is the same.
- Fields of the GitHub records that the code never reads are not modelled.

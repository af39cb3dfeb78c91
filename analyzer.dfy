/**
 * The pure part of the back end's repository analysis: splitting a repository
 * URL into owner and name, projecting what GitHub returns into the analysis
 * record, and choosing which files of the repository listing are kept.
 * Every GitHub and OpenAI request is an input here: the model receives what
 * those requests returned, or `None` when a request raised.
 */
module Analyzer {
  import opened Wrappers

  // ---------------------------------------------------------------------------
  // Owner and repository from a URL: `repo_url.rstrip('/').split('/')[-2:]`
  // ---------------------------------------------------------------------------

  /** `s.rstrip(c)`: `s` without its trailing run of `c`. */
  function RStrip(s: string, c: char): (r: string)
    ensures r <= s
    ensures r == [] || r[|r| - 1] != c
    ensures forall i :: |r| <= i < |s| ==> s[i] == c
  {
    if s == [] || s[|s| - 1] != c then s else RStrip(s[..|s| - 1], c)
  }

  /** `sep.join(parts)`. */
  function Join(parts: seq<string>, sep: char): string
    requires |parts| >= 1
  {
    if |parts| == 1 then parts[0] else parts[0] + [sep] + Join(parts[1..], sep)
  }

  /**
   * `s.split(sep)` with a one-character separator: the pieces between the
   * separators, empty pieces included, so there is always at least one.
   * Joining the pieces back gives `s`.
   */
  function Split(s: string, sep: char): (parts: seq<string>)
    ensures |parts| >= 1
    ensures forall i :: 0 <= i < |parts| ==> sep !in parts[i]
    ensures Join(parts, sep) == s
  {
    if s == [] then [""]
    else if s[0] == sep then
      var rest := Split(s[1..], sep);
      assert s == [sep] + s[1..];
      [""] + rest
    else
      var rest := Split(s[1..], sep);
      assert s == [s[0]] + s[1..];
      [[s[0]] + rest[0]] + rest[1..]
  }

  /** Splitting undoes joining, when no piece holds the separator. */
  lemma {:induction false} SplitJoin(parts: seq<string>, sep: char)
    requires |parts| >= 1
    requires forall i :: 0 <= i < |parts| ==> sep !in parts[i]
    ensures Split(Join(parts, sep), sep) == parts
  {
    if |parts| == 1 {
      SplitNoSeparator(parts[0], sep);
    } else {
      SplitJoin(parts[1..], sep);
      SplitPrefix(parts[0], Join(parts[1..], sep), sep);
      assert [parts[0]] + parts[1..] == parts;
    }
  }

  lemma {:induction false} SplitNoSeparator(s: string, sep: char)
    requires sep !in s
    ensures Split(s, sep) == [s]
  {
    if s != [] {
      SplitNoSeparator(s[1..], sep);
      assert [s[0]] + s[1..] == s;
    }
  }

  /** A separator-free head followed by a separator becomes one piece of its own. */
  lemma {:induction false} SplitPrefix(head: string, tail: string, sep: char)
    requires sep !in head
    ensures Split(head + [sep] + tail, sep) == [head] + Split(tail, sep)
  {
    if head == [] {
      assert head + [sep] + tail == [sep] + tail;
      assert ([sep] + tail)[1..] == tail;
    } else {
      var s := head + [sep] + tail;
      assert s[1..] == head[1..] + [sep] + tail;
      SplitPrefix(head[1..], tail, sep);
      assert [head[0]] + head[1..] == head;
    }
  }

  const IndexErrorMessage := "list index out of range"

  /**
   * The owner and repository name of `analyze_repository`: the last two
   * `/`-separated pieces once trailing slashes are stripped. A URL with fewer
   * than two pieces makes `parts[-2]` raise.
   */
  function OwnerAndRepo(url: string): (r: Result<(string, string)>)
    ensures r.Err? <==> '/' !in RStrip(url, '/')
    ensures r.Ok? ==> '/' !in r.value.0 && '/' !in r.value.1 && r.value.1 != ""
  {
    var stripped := RStrip(url, '/');
    var parts := Split(stripped, '/');
    if |parts| < 2 then
      assert parts == [stripped];
      Err(IndexErrorMessage)
    else
      LastPieceOfStripped(stripped, parts);
      Ok((parts[|parts| - 2], parts[|parts| - 1]))
  }

  lemma {:induction false} LastPieceOfStripped(stripped: string, parts: seq<string>)
    requires parts == Split(stripped, '/') && |parts| >= 2
    requires stripped == [] || stripped[|stripped| - 1] != '/'
    ensures '/' in stripped
    ensures parts[|parts| - 1] != ""
  {
    if '/' !in stripped {
      SplitNoSeparator(stripped, '/');
    }
    JoinEndsWithLast(parts, '/');
  }

  /** A joined string ends with its last piece. */
  lemma {:induction false} JoinEndsWithLast(parts: seq<string>, sep: char)
    requires |parts| >= 2
    ensures var j := Join(parts, sep);
            |j| > |parts[|parts| - 1]| && j[|j| - |parts[|parts| - 1]| - 1] == sep &&
            j[|j| - |parts[|parts| - 1]|..] == parts[|parts| - 1]
  {
    if |parts| > 2 {
      JoinEndsWithLast(parts[1..], sep);
    }
  }

  /** Trailing slashes never change the extracted owner and repository. */
  lemma {:induction false} TrailingSlashIrrelevant(url: string)
    ensures OwnerAndRepo(url + "/") == OwnerAndRepo(url)
  {
    assert (url + "/")[..|url + "/"| - 1] == url;
  }

  /** Extraction inverts the construction of a repository URL. */
  lemma {:induction false} OwnerAndRepoOfUrl(base: string, owner: string, repo: string)
    requires '/' !in owner && '/' !in repo && repo != ""
    ensures OwnerAndRepo(base + "/" + owner + "/" + repo) == Ok((owner, repo))
  {
    var url := base + "/" + owner + "/" + repo;
    assert RStrip(url, '/') == url;
    var baseParts := Split(base, '/');
    var parts := baseParts + [owner, repo];
    forall i | 0 <= i < |parts| ensures '/' !in parts[i] {
      if i < |baseParts| {
        assert parts[i] == baseParts[i];
      }
    }
    JoinAppend(baseParts, owner, repo, '/');
    SplitJoin(parts, '/');
  }

  /** A bare `owner/repo` path (no scheme or host) is split the same way. */
  lemma {:induction false} OwnerAndRepoOfPath(owner: string, repo: string)
    requires '/' !in owner && '/' !in repo && repo != ""
    ensures OwnerAndRepo(owner + "/" + repo) == Ok((owner, repo))
  {
    var url := owner + "/" + repo;
    assert RStrip(url, '/') == url;
    SplitPrefix(owner, repo, '/');
    SplitNoSeparator(repo, '/');
  }

  /**
   * Conversely, a successful extraction returns the last two pieces of the
   * stripped URL: it ends with `owner/repo`, after nothing or after a `/`.
   */
  lemma {:induction false} OwnerAndRepoEndsUrl(url: string)
    requires OwnerAndRepo(url).Ok?
    ensures var (owner, repo) := OwnerAndRepo(url).value;
            var stripped := RStrip(url, '/');
            var tail := owner + "/" + repo;
            |tail| <= |stripped| && stripped[|stripped| - |tail|..] == tail &&
            (|stripped| == |tail| || stripped[|stripped| - |tail| - 1] == '/')
  {
    var stripped := RStrip(url, '/');
    var parts := Split(stripped, '/');
    var n := |parts|;
    var owner, repo := parts[n - 2], parts[n - 1];
    var tail := owner + "/" + repo;
    if n == 2 {
      assert parts[1..] == [repo] && Join(parts[1..], '/') == repo;
      assert Join(parts, '/') == owner + ['/'] + repo;
    } else {
      var front := parts[..n - 2];
      assert front + [owner, repo] == parts;
      JoinAppend(front, owner, repo, '/');
      assert stripped == (Join(front, '/') + "/") + tail;
    }
  }

  lemma {:induction false} JoinAppend(parts: seq<string>, a: string, b: string, sep: char)
    requires |parts| >= 1
    ensures Join(parts + [a, b], sep) == Join(parts, sep) + [sep] + a + [sep] + b
  {
    if |parts| == 1 {
      assert (parts + [a, b])[1..] == [a, b];
      assert [a, b][1..] == [b];
      assert Join([a, b], sep) == a + [sep] + b;
      assert Join(parts + [a, b], sep) == parts[0] + [sep] + (a + [sep] + b);
    } else {
      assert (parts + [a, b])[1..] == parts[1..] + [a, b];
      JoinAppend(parts[1..], a, b, sep);
    }
  }

  // ---------------------------------------------------------------------------
  // Shaping what GitHub returned into the analysis record
  // ---------------------------------------------------------------------------

  /** The fields of a GitHub commit object that the analysis reads. */
  datatype RawCommit = RawCommit(sha: string, message: string, authorDate: string)

  /** The fields of a GitHub contributor object that the analysis reads. */
  datatype RawContributor = RawContributor(login: string, contributions: nat)

  /** The fields of the GitHub repository object that the analysis reads. */
  datatype RawRepoInfo = RawRepoInfo(
    name: string,
    description: string,
    stargazersCount: nat,
    forksCount: nat,
    openIssuesCount: nat,
    createdAt: string,
    updatedAt: string)

  datatype CommitSummary = CommitSummary(sha: string, message: string, date: string)

  datatype CommitActivity = CommitActivity(totalCommits: nat, recentCommits: seq<CommitSummary>)

  datatype Contributor = Contributor(login: string, contributions: nat)

  datatype RepositorySummary = RepositorySummary(
    name: string,
    description: string,
    stars: nat,
    forks: nat,
    openIssues: nat,
    createdAt: string,
    lastUpdated: string)

  /** The parsed JSON object the OpenAI review returned; its content is not interpreted here. */
  datatype AiReview = AiReview(json: string)

  /** `languages` maps each language name to its byte count, in GitHub's order. */
  datatype RepositoryAnalysis = RepositoryAnalysis(
    repository: RepositorySummary,
    languages: seq<(string, nat)>,
    commitActivity: CommitActivity,
    contributors: seq<Contributor>,
    aiAnalysis: AiReview)

  /** Everything the four GitHub requests of `analyze_repository` returned. */
  datatype GitHubData = GitHubData(
    repoInfo: RawRepoInfo,
    languages: seq<(string, nat)>,
    commits: seq<RawCommit>,
    contributors: seq<RawContributor>)

  const RecentCommitCount: nat := 5
  const ShortShaLength: nat := 7

  function SummarizeCommits(commits: seq<RawCommit>): (r: seq<CommitSummary>)
    ensures |r| == |commits|
    ensures forall i :: 0 <= i < |r| ==>
              r[i] == CommitSummary(Take(commits[i].sha, ShortShaLength), commits[i].message, commits[i].authorDate)
  {
    if commits == [] then []
    else [CommitSummary(Take(commits[0].sha, ShortShaLength), commits[0].message, commits[0].authorDate)]
         + SummarizeCommits(commits[1..])
  }

  /**
   * `commit_activity`: the number of fetched commits, and the first five of
   * them in order, each with its hash cut to seven characters.
   */
  function ShapeCommitActivity(commits: seq<RawCommit>): (a: CommitActivity)
    ensures a.totalCommits == |commits|
    ensures |a.recentCommits| == Min(RecentCommitCount, |commits|)
    ensures forall i :: 0 <= i < |a.recentCommits| ==>
              && a.recentCommits[i].sha <= commits[i].sha
              && |a.recentCommits[i].sha| == Min(ShortShaLength, |commits[i].sha|)
              && a.recentCommits[i].message == commits[i].message
              && a.recentCommits[i].date == commits[i].authorDate
  {
    CommitActivity(|commits|, SummarizeCommits(Take(commits, RecentCommitCount)))
  }

  /** `contributors`: one `{login, contributions}` entry per fetched contributor, in order. */
  function ShapeContributors(raw: seq<RawContributor>): (r: seq<Contributor>)
    ensures |r| == |raw|
    ensures forall i :: 0 <= i < |r| ==> r[i].login == raw[i].login && r[i].contributions == raw[i].contributions
  {
    if raw == [] then [] else [Contributor(raw[0].login, raw[0].contributions)] + ShapeContributors(raw[1..])
  }

  /** `repository`: the repository object's fields, copied one for one. */
  function ShapeRepository(info: RawRepoInfo): (r: RepositorySummary)
    ensures r.name == info.name && r.description == info.description
    ensures r.stars == info.stargazersCount && r.forks == info.forksCount
    ensures r.openIssues == info.openIssuesCount
    ensures r.createdAt == info.createdAt && r.lastUpdated == info.updatedAt
  {
    RepositorySummary(info.name, info.description, info.stargazersCount, info.forksCount,
                      info.openIssuesCount, info.createdAt, info.updatedAt)
  }

  /**
   * `analyze_repository`: fails when the URL has no owner part (before any
   * request is made), when a GitHub request raised (`None`), or when the
   * review could not be obtained or parsed; otherwise it assembles the record.
   */
  function AnalyzeRepository(url: string, github: Option<GitHubData>, review: Result<AiReview>)
    : (r: Result<RepositoryAnalysis>)
    ensures OwnerAndRepo(url).Err? ==> r == Err(IndexErrorMessage)
    ensures r.Ok? <==> OwnerAndRepo(url).Ok? && github.Some? && review.Ok?
    ensures r.Ok? ==>
              && r.value.commitActivity == ShapeCommitActivity(github.value.commits)
              && r.value.contributors == ShapeContributors(github.value.contributors)
              && r.value.languages == github.value.languages
              && r.value.repository == ShapeRepository(github.value.repoInfo)
              && r.value.aiAnalysis == review.value
  {
    match OwnerAndRepo(url)
    case Err(e) => Err(e)
    case Ok(_) =>
      match github
      case None => Err("GitHub request failed")
      case Some(data) =>
        match review
        case Err(e) => Err(e)
        case Ok(ai) =>
          Ok(RepositoryAnalysis(
            ShapeRepository(data.repoInfo),
            data.languages,
            ShapeCommitActivity(data.commits),
            ShapeContributors(data.contributors),
            ai))
  }

  // ---------------------------------------------------------------------------
  // `get_repository_files`
  // ---------------------------------------------------------------------------

  /**
   * One entry of the repository's top-level listing. `fetched` is the decoded
   * body of the file request, or `None` when that request or the decoding raised.
   */
  datatype ListingItem = ListingItem(kind: string, size: int, path: string, fetched: Option<string>)

  datatype FileContent = FileContent(path: string, content: string)

  const ListedItemLimit: nat := 5
  const MaxFileSize: int := 1000000
  const ContentLimit: nat := 1000

  predicate Eligible(item: ListingItem) {
    item.kind == "file" && item.size <= MaxFileSize
  }

  /**
   * The files kept from a run of listing entries, read left to right: an
   * eligible entry whose fetch raised ends the run (the exception leaves the
   * loop with what was gathered so far).
   */
  function Selected(items: seq<ListingItem>): (r: seq<FileContent>)
    ensures |r| <= |items|
    ensures forall i :: 0 <= i < |r| ==> |r[i].content| <= ContentLimit
  {
    if items == [] then []
    else if !Eligible(items[0]) then Selected(items[1..])
    else match items[0].fetched
      case None => []
      case Some(body) => [FileContent(items[0].path, Take(body, ContentLimit))] + Selected(items[1..])
  }

  /** Every eligible entry whose fetch succeeded, in listing order: what is kept when nothing raises. */
  function Kept(items: seq<ListingItem>): seq<FileContent> {
    if items == [] then []
    else if Eligible(items[0]) && items[0].fetched.Some? then
      [FileContent(items[0].path, Take(items[0].fetched.value, ContentLimit))] + Kept(items[1..])
    else Kept(items[1..])
  }

  /**
   * The files gathered are always a prefix of the eligible, fetched entries
   * in listing order, and all of them when no fetch raised.
   */
  lemma {:induction false} SelectedIsPrefixOfKept(items: seq<ListingItem>)
    ensures Selected(items) <= Kept(items)
    ensures (forall i :: 0 <= i < |items| && Eligible(items[i]) ==> items[i].fetched.Some?) ==>
              Selected(items) == Kept(items)
  {
    if items != [] {
      SelectedIsPrefixOfKept(items[1..]);
      if Eligible(items[0]) && items[0].fetched.Some? {
        assert forall i :: 1 <= i < |items| ==> items[1..][i - 1] == items[i];
      }
    }
  }

  /** Every kept file comes from an eligible entry with that path. */
  lemma {:induction false} KeptFromEligible(items: seq<ListingItem>, k: nat)
    requires k < |Kept(items)|
    ensures exists i :: 0 <= i < |items| && Eligible(items[i]) && items[i].path == Kept(items)[k].path
  {
    if Eligible(items[0]) && items[0].fetched.Some? && k == 0 {
      assert Eligible(items[0]) && items[0].path == Kept(items)[k].path;
    } else {
      var k' := if Eligible(items[0]) && items[0].fetched.Some? then k - 1 else k;
      KeptFromEligible(items[1..], k');
      var i :| 0 <= i < |items[1..]| && Eligible(items[1..][i]) && items[1..][i].path == Kept(items[1..])[k'].path;
      assert items[i + 1] == items[1..][i];
    }
  }

  lemma AppendAssociative<T>(a: seq<T>, b: seq<T>, c: seq<T>)
    ensures (a + b) + c == a + (b + c)
  {
  }

  /** One entry of the walk: what the files gathered so far become, and when the walk ends. */
  lemma SelectedStep(window: seq<ListingItem>, i: nat, files: seq<FileContent>)
    requires i < |window| && files + Selected(window[i..]) == Selected(window)
    ensures !Eligible(window[i]) ==> files + Selected(window[i + 1..]) == Selected(window)
    ensures Eligible(window[i]) && window[i].fetched.None? ==> files == Selected(window)
    ensures Eligible(window[i]) && window[i].fetched.Some? ==>
              var file := FileContent(window[i].path, Take(window[i].fetched.value, ContentLimit));
              (files + [file]) + Selected(window[i + 1..]) == Selected(window)
  {
    var item, rest := window[i], window[i + 1..];
    assert window[i..][0] == item && window[i..][1..] == rest;
    if Eligible(item) && item.fetched.Some? {
      var file := FileContent(item.path, Take(item.fetched.value, ContentLimit));
      AppendAssociative(files, [file], Selected(rest));
    }
  }

  /**
   * `get_repository_files`: walks the first five listing entries and keeps
   * each `file` of at most 1,000,000 bytes with its content cut to 1000
   * characters. A listing request that raised yields no files.
   */
  method GetRepositoryFiles(listing: Option<seq<ListingItem>>) returns (files: seq<FileContent>)
    ensures listing.None? ==> files == []
    ensures listing.Some? ==> files == Selected(Take(listing.value, ListedItemLimit))
    ensures |files| <= ListedItemLimit
    ensures forall i :: 0 <= i < |files| ==> |files[i].content| <= ContentLimit
  {
    files := [];
    if listing.None? {
      return;
    }
    var window := Take(listing.value, ListedItemLimit);
    var i := 0;
    while i < |window|
      invariant 0 <= i <= |window|
      invariant files + Selected(window[i..]) == Selected(window)
      invariant |files| <= i
    {
      var item := window[i];
      SelectedStep(window, i, files);
      if item.kind == "file" {
        if item.size <= MaxFileSize {
          match item.fetched {
            case None =>
              // the exception leaves the loop; what was gathered is returned
              return;
            case Some(body) =>
              files := files + [FileContent(item.path, Take(body, ContentLimit))];
          }
        }
      }
      i := i + 1;
    }
    assert window[i..] == [];
  }
}

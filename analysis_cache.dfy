/**
 * The back end's table of stored analyses (`RepoAnalysis`) and the two routes
 * that use it: `/api/analyze`, which answers from the table when the URL was
 * analysed before and otherwise analyses and stores, and `/api/stats`, which
 * counts the rows and lists the five most accessed. The SQL table is an
 * in-memory sequence of rows; a row is found by its URL, of which the stored
 * MD5 hash is a function.
 */
module AnalysisCache {
  import opened Wrappers
  import Analyzer

  datatype Row = Row(
    repoUrl: string,
    analysis: Analyzer.RepositoryAnalysis,
    createdBy: string,
    createdAt: int,
    accessCount: int)

  /** The JSON body of an `/api/analyze` reply, with its HTTP status. */
  datatype Response =
    | Unauthorized
    | MissingUrl
    | Cached(analysis: Analyzer.RepositoryAnalysis, analyzedBy: string, analyzedAt: int)
    | Analysed(analysis: Analyzer.RepositoryAnalysis, analyzedBy: string, analyzedAt: int)
    | ServerError(message: string)

  function Status(r: Response): (code: int)
    ensures code == 200 <==> r.Cached? || r.Analysed?
  {
    match r
    case Unauthorized => 401
    case MissingUrl => 400
    case Cached(_, _, _) => 200
    case Analysed(_, _, _) => 200
    case ServerError(_) => 500
  }

  /** `repo_url` is a unique column. */
  ghost predicate UniqueUrls(rows: seq<Row>) {
    forall i, j :: 0 <= i < j < |rows| ==> rows[i].repoUrl != rows[j].repoUrl
  }

  /** `filter_by(...).first()`: the index of the first row stored for `url`. */
  function FindRow(rows: seq<Row>, url: string): (r: Option<nat>)
    ensures r.Some? ==> r.value < |rows| && rows[r.value].repoUrl == url
    ensures r.Some? ==> forall j :: 0 <= j < r.value ==> rows[j].repoUrl != url
    ensures r.None? <==> forall j :: 0 <= j < |rows| ==> rows[j].repoUrl != url
  {
    if rows == [] then None
    else if rows[0].repoUrl == url then Some(0)
    else match FindRow(rows[1..], url)
      case None => None
      case Some(k) => Some(k + 1)
  }

  /** `RepoAnalysis.access_count` defaults to 1. */
  const InitialAccessCount: int := 1

  /** One entry of `most_popular`. */
  datatype PopularEntry = PopularEntry(repoUrl: string, accessCount: int, lastAccessed: int)

  datatype Stats = Stats(totalAnalyses: nat, mostPopular: seq<PopularEntry>)

  const PopularLimit: nat := 5

  predicate NonIncreasing(rows: seq<Row>) {
    forall i, j :: 0 <= i < j < |rows| ==> rows[i].accessCount >= rows[j].accessCount
  }

  /** Places `r` before the first row with a lower access count. */
  function InsertByAccess(r: Row, rows: seq<Row>): (out: seq<Row>)
    ensures |out| == |rows| + 1
  {
    if rows == [] || r.accessCount >= rows[0].accessCount then [r] + rows
    else [rows[0]] + InsertByAccess(r, rows[1..])
  }

  /** `order_by(access_count.desc())`. */
  function ByAccessDesc(rows: seq<Row>): (out: seq<Row>)
    ensures |out| == |rows|
  {
    if rows == [] then [] else InsertByAccess(rows[0], ByAccessDesc(rows[1..]))
  }

  /** Inserting into a non-increasing sequence keeps it non-increasing. */
  lemma {:induction false} InsertByAccessSorted(r: Row, rows: seq<Row>)
    requires NonIncreasing(rows)
    ensures var out := InsertByAccess(r, rows);
            NonIncreasing(out) && (out[0] == r || (rows != [] && out[0] == rows[0]))
  {
    if rows != [] && r.accessCount < rows[0].accessCount {
      var rest := InsertByAccess(r, rows[1..]);
      InsertByAccessSorted(r, rows[1..]);
      assert rows[0].accessCount >= rest[0].accessCount;
      assert InsertByAccess(r, rows) == [rows[0]] + rest;
    }
  }

  /** The ordered copy is non-increasing in access count. */
  lemma {:induction false} ByAccessDescSorted(rows: seq<Row>)
    ensures NonIncreasing(ByAccessDesc(rows))
  {
    if rows != [] {
      ByAccessDescSorted(rows[1..]);
      InsertByAccessSorted(rows[0], ByAccessDesc(rows[1..]));
    }
  }

  /** Inserting adds exactly `r`. */
  lemma {:induction false} InsertByAccessAdds(r: Row, rows: seq<Row>)
    ensures multiset(InsertByAccess(r, rows)) == multiset(rows) + multiset{r}
  {
    if rows != [] && r.accessCount < rows[0].accessCount {
      InsertByAccessAdds(r, rows[1..]);
      assert InsertByAccess(r, rows) == [rows[0]] + InsertByAccess(r, rows[1..]);
      assert multiset(rows) == multiset{rows[0]} + multiset(rows[1..]) by {
        assert rows == [rows[0]] + rows[1..];
      }
    }
  }

  /** The ordered copy holds the same rows. */
  lemma {:induction false} ByAccessDescPermutes(rows: seq<Row>)
    ensures multiset(ByAccessDesc(rows)) == multiset(rows)
  {
    if rows != [] {
      var sorted := ByAccessDesc(rows[1..]);
      ByAccessDescPermutes(rows[1..]);
      InsertByAccessAdds(rows[0], sorted);
      assert ByAccessDesc(rows) == InsertByAccess(rows[0], sorted);
      assert multiset(rows) == multiset(rows[1..]) + multiset{rows[0]} by {
        assert rows == [rows[0]] + rows[1..];
      }
    }
  }

  /** `order_by(access_count.desc()).limit(5)`: at most five rows, most accessed first. */
  function MostAccessed(rows: seq<Row>): (top: seq<Row>)
    ensures |top| == Min(PopularLimit, |rows|)
    ensures NonIncreasing(top)
  {
    ByAccessDescSorted(rows);
    Take(ByAccessDesc(rows), PopularLimit)
  }

  /** Every row kept is a row of the table. */
  lemma MostAccessedFromRows(rows: seq<Row>)
    ensures forall k :: 0 <= k < |MostAccessed(rows)| ==> MostAccessed(rows)[k] in rows
  {
    var top := MostAccessed(rows);
    ByAccessDescPermutes(rows);
    forall k | 0 <= k < |top| ensures top[k] in rows {
      assert top[k] in multiset(ByAccessDesc(rows));
    }
  }

  /** The rows kept are rows of the table, and no row left out is accessed more often than any row kept. */
  lemma MostAccessedRanked(rows: seq<Row>)
    ensures multiset(MostAccessed(rows)) <= multiset(rows)
    ensures var top := MostAccessed(rows);
            forall r, t :: r in multiset(rows) - multiset(top) && t in top ==> r.accessCount <= t.accessCount
  {
    var ordered := ByAccessDesc(rows);
    ByAccessDescPermutes(rows);
    ByAccessDescSorted(rows);
    var top := MostAccessed(rows);
    var k := |top|;
    assert top == ordered[..k];
    assert ordered == top + ordered[k..];
    assert multiset(rows) - multiset(top) == multiset(ordered[k..]);
    RankingSplit(ordered, k);
  }

  /** In a non-increasing sequence, no row after position `k` is accessed more often than a row before it. */
  lemma RankingSplit(ordered: seq<Row>, k: nat)
    requires NonIncreasing(ordered) && k <= |ordered|
    ensures forall r, t :: r in multiset(ordered[k..]) && t in ordered[..k] ==> r.accessCount <= t.accessCount
  {
    forall r, t | r in multiset(ordered[k..]) && t in ordered[..k]
      ensures r.accessCount <= t.accessCount
    {
      var j :| 0 <= j < |ordered[k..]| && ordered[k..][j] == r;
      var i :| 0 <= i < k && ordered[..k][i] == t;
      assert ordered[i] == t && ordered[k + j] == r;
    }
  }

  function Popular(rows: seq<Row>): (entries: seq<PopularEntry>)
    ensures |entries| == |rows|
    ensures forall i :: 0 <= i < |rows| ==>
              entries[i] == PopularEntry(rows[i].repoUrl, rows[i].accessCount, rows[i].createdAt)
  {
    if rows == [] then [] else [PopularEntry(rows[0].repoUrl, rows[0].accessCount, rows[0].createdAt)] + Popular(rows[1..])
  }

  /** Every entry of the statistics list comes from a stored row. */
  lemma PopularFromRows(rows: seq<Row>)
    ensures var entries := Popular(MostAccessed(rows));
            forall k :: 0 <= k < |entries| ==>
              exists r :: r in rows && entries[k] == PopularEntry(r.repoUrl, r.accessCount, r.createdAt)
  {
    var top := MostAccessed(rows);
    MostAccessedFromRows(rows);
    var entries := Popular(top);
    forall k | 0 <= k < |entries|
      ensures exists r :: r in rows && entries[k] == PopularEntry(r.repoUrl, r.accessCount, r.createdAt)
    {
      assert top[k] in rows && entries[k] == PopularEntry(top[k].repoUrl, top[k].accessCount, top[k].createdAt);
    }
  }

  /**
   * The listed entries are distinct stored rows, and no row left off the list
   * was opened more often than any row on it.
   */
  lemma PopularRanked(rows: seq<Row>)
    ensures multiset(MostAccessed(rows)) <= multiset(rows)
    ensures var entries := Popular(MostAccessed(rows));
            forall r, k :: r in multiset(rows) - multiset(MostAccessed(rows)) && 0 <= k < |entries| ==>
              r.accessCount <= entries[k].accessCount
  {
    var top := MostAccessed(rows);
    MostAccessedRanked(rows);
    var entries := Popular(top);
    forall r, k | r in multiset(rows) - multiset(top) && 0 <= k < |entries|
      ensures r.accessCount <= entries[k].accessCount
    {
      assert top[k] in top && entries[k].accessCount == top[k].accessCount;
    }
  }

  /** The stored analyses, and the user name and clock reading of a request. */
  class AnalysisTable {
    var rows: seq<Row>

    ghost predicate Valid()
      reads this
    {
      && UniqueUrls(rows)
      && forall i :: 0 <= i < |rows| ==> rows[i].accessCount >= InitialAccessCount
    }

    constructor ()
      ensures Valid() && rows == []
    {
      rows := [];
    }

    /**
     * `/api/analyze`. Unauthorised requests and requests without a URL are
     * refused before the table is read. A stored URL has its access count
     * raised by one and its stored analysis returned as it is. Otherwise the
     * repository is analysed (`github` and `review` are what the requests
     * returned) and, on success, stored with access count 1 under the
     * requesting user's name; a failure stores nothing.
     */
    method Analyze(authorized: bool, username: string, repoUrl: Option<string>,
                   github: Option<Analyzer.GitHubData>, review: Result<Analyzer.AiReview>, now: int)
      returns (resp: Response)
      requires Valid()
      modifies this
      ensures Valid()
      ensures !authorized ==> resp == Unauthorized && rows == old(rows)
      ensures authorized && (repoUrl.None? || repoUrl.value == "") ==> resp == MissingUrl && rows == old(rows)
      ensures authorized && repoUrl.Some? && repoUrl.value != "" && FindRow(old(rows), repoUrl.value).Some? ==>
                var i := FindRow(old(rows), repoUrl.value).value;
                var hit := old(rows)[i];
                && rows == old(rows)[i := hit.(accessCount := hit.accessCount + 1)]
                && resp == Cached(hit.analysis, hit.createdBy, hit.createdAt)
      ensures authorized && repoUrl.Some? && repoUrl.value != "" && FindRow(old(rows), repoUrl.value).None? ==>
                match Analyzer.AnalyzeRepository(repoUrl.value, github, review)
                case Ok(a) =>
                  && rows == old(rows) + [Row(repoUrl.value, a, username, now, InitialAccessCount)]
                  && resp == Analysed(a, username, now)
                case Err(e) => rows == old(rows) && resp == ServerError(e)
    {
      if !authorized {
        return Unauthorized;
      }
      if repoUrl.None? || repoUrl.value == "" {
        return MissingUrl;
      }
      var url := repoUrl.value;
      var existing := FindRow(rows, url);
      if existing.Some? {
        var i := existing.value;
        rows := rows[i := rows[i].(accessCount := rows[i].accessCount + 1)];
        return Cached(rows[i].analysis, rows[i].createdBy, rows[i].createdAt);
      }
      var analysis := Analyzer.AnalyzeRepository(url, github, review);
      match analysis {
        case Err(e) =>
          resp := ServerError(e);
        case Ok(a) =>
          rows := rows + [Row(url, a, username, now, InitialAccessCount)];
          resp := Analysed(a, username, now);
      }
    }

    /** `/api/stats`: the row count and the five most accessed rows. */
    function GetStats(): (s: Stats)
      reads this
      ensures s.totalAnalyses == |rows|
      ensures |s.mostPopular| == Min(PopularLimit, |rows|)
      ensures forall i, j :: 0 <= i < j < |s.mostPopular| ==>
                s.mostPopular[i].accessCount >= s.mostPopular[j].accessCount
      ensures forall k :: 0 <= k < |s.mostPopular| ==>
                exists r :: r in rows && s.mostPopular[k] == PopularEntry(r.repoUrl, r.accessCount, r.createdAt)
      ensures s.mostPopular == Popular(MostAccessed(rows))
      ensures multiset(MostAccessed(rows)) <= multiset(rows)
      ensures forall r, k :: r in multiset(rows) - multiset(MostAccessed(rows)) && 0 <= k < |s.mostPopular| ==>
                r.accessCount <= s.mostPopular[k].accessCount
    {
      PopularFromRows(rows);
      PopularRanked(rows);
      Stats(|rows|, Popular(MostAccessed(rows)))
    }
  }
}

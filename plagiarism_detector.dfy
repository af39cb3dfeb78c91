/**
 * The front end's plagiarism risk scorer. Three analyses each emit red flags
 * by fixed threshold rules: commit timing and message variety, code size per
 * contributor, and the spread of the code quality breakdown. The flags are
 * folded into a weighted score out of 100 and a three-tier risk level, and
 * each flag kind contributes two fixed recommendations, de-duplicated in
 * order of first appearance.
 */
module PlagiarismDetector {
  import opened Wrappers
  import opened RealArith
  import Analyzer

  // ---------------------------------------------------------------------------
  // Input record and flags
  // ---------------------------------------------------------------------------

  /** A recent commit; `date` is the commit time in milliseconds since the epoch. */
  datatype Commit = Commit(sha: string, message: string, date: int)

  datatype CommitActivity = CommitActivity(totalCommits: nat, recentCommits: seq<Commit>)

  /** The AI review object; only its optional `score_breakdown` values are read. */
  datatype AiAnalysis = AiAnalysis(scoreBreakdown: Option<seq<real>>)

  /** The analysis record the detector is constructed from; `languages` maps names to byte counts, in order. */
  datatype AnalysisRecord = AnalysisRecord(
    repositoryName: string,
    commitActivity: CommitActivity,
    languages: seq<(string, nat)>,
    contributors: seq<Analyzer.Contributor>,
    aiAnalysis: AiAnalysis)

  datatype FlagKind = CommitPattern | CommitMessages | ContributorRatio | CodeQuality

  datatype Severity = High | Medium | Low

  datatype RedFlag = RedFlag(kind: FlagKind, severity: Severity, description: string)

  const FewCommits := RedFlag(CommitPattern, High, "Repository has very few commits which is highly suspicious")
  const WithinTwoDays := RedFlag(CommitPattern, High, "All commits were made within 2 days - highly suspicious for copied code")
  const WithinSevenDays := RedFlag(CommitPattern, Medium, "All commits were made within 7 days - potentially suspicious activity")
  const LowMessageVariety := RedFlag(CommitMessages, Medium, "Low variety in commit messages suggests automated or bulk commits")
  const FewContributors := RedFlag(ContributorRatio, High, "Large codebase with suspiciously few contributors")
  const InconsistentQuality := RedFlag(CodeQuality, Medium, "Highly inconsistent code quality across codebase")

  /** `1000 * 60 * 60 * 24`. */
  const MillisecondsPerDay: int := 86400000

  // ---------------------------------------------------------------------------
  // JavaScript numbers where a division by zero can occur
  // ---------------------------------------------------------------------------

  datatype JsNumber = Finite(value: real) | PosInfinity | NegInfinity | NaN

  /** `a / b` on JavaScript numbers, for a non-negative divisor. */
  function JsDivide(a: real, b: nat): (q: JsNumber)
    ensures b > 0 ==> q == Finite(a / b as real)
    ensures b == 0 ==> (q == NaN <==> a == 0.0)
  {
    if b > 0 then Finite(a / b as real)
    else if a > 0.0 then PosInfinity
    else if a < 0.0 then NegInfinity
    else NaN
  }

  /** `x > c`: `NaN` compares false with everything. */
  predicate JsGreater(x: JsNumber, c: real) {
    match x
    case Finite(v) => v > c
    case PosInfinity => true
    case NegInfinity => false
    case NaN => false
  }

  // ---------------------------------------------------------------------------
  // Commit patterns, declaratively
  // ---------------------------------------------------------------------------

  /** The earliest commit date. */
  function MinDate(cs: seq<Commit>): int
    requires |cs| > 0
  {
    if |cs| == 1 then cs[0].date
    else
      var rest := MinDate(cs[1..]);
      if cs[0].date <= rest then cs[0].date else rest
  }

  /** The latest commit date. */
  function MaxDate(cs: seq<Commit>): int
    requires |cs| > 0
  {
    if |cs| == 1 then cs[0].date
    else
      var rest := MaxDate(cs[1..]);
      if cs[0].date >= rest then cs[0].date else rest
  }

  /** `MinDate` and `MaxDate` are the least and the greatest date of some commit in the sequence. */
  lemma {:induction false} DateBounds(cs: seq<Commit>)
    requires |cs| > 0
    ensures forall c :: c in cs ==> MinDate(cs) <= c.date <= MaxDate(cs)
    ensures exists c :: c in cs && c.date == MinDate(cs)
    ensures exists c :: c in cs && c.date == MaxDate(cs)
  {
    if |cs| == 1 {
      assert cs[0] in cs;
    } else {
      var rest := cs[1..];
      DateBounds(rest);
      forall c | c in cs ensures MinDate(cs) <= c.date <= MaxDate(cs) {
        if c != cs[0] {
          assert c in rest by {
            assert cs == [cs[0]] + rest;
          }
        }
      }
      var lo :| lo in rest && lo.date == MinDate(rest);
      var hi :| hi in rest && hi.date == MaxDate(rest);
      assert cs[0] in cs && lo in cs && hi in cs;
      if cs[0].date <= lo.date {
        assert MinDate(cs) == cs[0].date;
      } else {
        assert MinDate(cs) == lo.date;
      }
      if cs[0].date >= hi.date {
        assert MaxDate(cs) == cs[0].date;
      } else {
        assert MaxDate(cs) == hi.date;
      }
    }
  }


  /** `new Set(commits.map(c => c.message))`. */
  function DistinctMessages(cs: seq<Commit>): set<string> {
    set c | c in cs :: c.message
  }

  /** The timing flag for two or more commits: by the span from the earliest to the latest date. */
  function TimingFlags(cs: seq<Commit>): seq<RedFlag>
    requires |cs| >= 2
  {
    var span := MaxDate(cs) - MinDate(cs);
    if span <= 2 * MillisecondsPerDay then [WithinTwoDays]
    else if span <= 7 * MillisecondsPerDay then [WithinSevenDays]
    else []
  }

  /** The variety flag: fewer than 3 distinct messages in every 10. */
  function VarietyFlags(cs: seq<Commit>): seq<RedFlag> {
    if 10 * |DistinctMessages(cs)| < 3 * |cs| then [LowMessageVariety] else []
  }

  /** The commit flags: one alone below two commits, otherwise timing then variety. */
  function CommitFlags(cs: seq<Commit>): (r: seq<RedFlag>)
    ensures |cs| < 2 ==> r == [FewCommits]
    ensures |r| <= 2
  {
    if |cs| < 2 then [FewCommits] else TimingFlags(cs) + VarietyFlags(cs)
  }

  /**
   * With two or more commits at most one `commit_pattern` flag is raised, in
   * first place: high for a span of at most 2 days, medium for one of at most
   * 7 days, none beyond; the variety flag follows when fewer than 3 in 10
   * messages are distinct.
   */
  lemma CommitPatternBySpan(cs: seq<Commit>)
    requires |cs| >= 2
    ensures var span := MaxDate(cs) - MinDate(cs);
            var r := CommitFlags(cs);
            && (forall i :: 1 <= i < |r| ==> r[i].kind != CommitPattern)
            && (|r| > 0 && r[0] == WithinTwoDays <==> span <= 172800000)
            && (|r| > 0 && r[0] == WithinSevenDays <==> 172800000 < span <= 604800000)
            && (LowMessageVariety in r <==> 10 * |DistinctMessages(cs)| < 3 * |cs|)
            && |r| <= 2
  {
  }

  /** Two sequences holding the same commits have the same earliest and latest dates and the same messages. */
  lemma {:induction false} SameCommitsSameBounds(a: seq<Commit>, b: seq<Commit>)
    requires |a| > 0 && multiset(a) == multiset(b)
    ensures |b| > 0
    ensures MinDate(a) == MinDate(b) && MaxDate(a) == MaxDate(b)
    ensures DistinctMessages(a) == DistinctMessages(b)
  {
    assert a[0] in multiset(b);
    assert forall c :: c in a <==> c in b by {
      forall c ensures c in a <==> c in b {
        assert c in a <==> c in multiset(a);
        assert c in b <==> c in multiset(b);
      }
    }
    DateBounds(a);
    DateBounds(b);
    var ma, mb := MinDate(a), MinDate(b);
    var ca :| ca in a && ca.date == ma;
    var cb :| cb in b && cb.date == mb;
    assert mb <= ca.date && ma <= cb.date;
    var xa, xb := MaxDate(a), MaxDate(b);
    var da :| da in a && da.date == xa;
    var db :| db in b && db.date == xb;
    assert da.date <= xb && db.date <= xa;
  }

  /** The order in which the recent commits arrive does not change the commit flags. */
  lemma CommitFlagsIgnoreOrder(a: seq<Commit>, b: seq<Commit>)
    requires multiset(a) == multiset(b)
    ensures CommitFlags(a) == CommitFlags(b)
  {
    assert |a| == |multiset(a)| == |multiset(b)| == |b|;
    if |a| >= 2 {
      SameCommitsSameBounds(a, b);
      assert TimingFlags(a) == TimingFlags(b);
      assert VarietyFlags(a) == VarietyFlags(b);
    }
  }

  // ---------------------------------------------------------------------------
  // Sorting a copy by date
  // ---------------------------------------------------------------------------

  predicate SortedByDate(s: seq<Commit>) {
    forall i, j :: 0 <= i < j < |s| ==> s[i].date <= s[j].date
  }

  /** Places `c` before the first commit of `s` that is not earlier than it. */
  function InsertByDate(c: Commit, s: seq<Commit>): (r: seq<Commit>)
    ensures |r| == |s| + 1
  {
    if s == [] || c.date <= s[0].date then [c] + s else [s[0]] + InsertByDate(c, s[1..])
  }

  /** `[...commits].sort((a, b) => date(a) - date(b))`: a sorted copy. */
  function SortByDate(cs: seq<Commit>): (r: seq<Commit>)
    ensures |r| == |cs|
  {
    if cs == [] then [] else InsertByDate(cs[0], SortByDate(cs[1..]))
  }

  /** Inserting into a sorted sequence keeps it sorted. */
  lemma {:induction false} InsertByDateSorted(c: Commit, s: seq<Commit>)
    requires SortedByDate(s)
    ensures var r := InsertByDate(c, s);
            SortedByDate(r) && (r[0] == c || (s != [] && r[0] == s[0]))
  {
    if s != [] && c.date > s[0].date {
      var rest := InsertByDate(c, s[1..]);
      InsertByDateSorted(c, s[1..]);
      assert s[0].date <= rest[0].date;
      assert InsertByDate(c, s) == [s[0]] + rest;
    }
  }

  /** The copy is sorted by date. */
  lemma {:induction false} SortByDateSorted(cs: seq<Commit>)
    ensures SortedByDate(SortByDate(cs))
  {
    if cs != [] {
      SortByDateSorted(cs[1..]);
      InsertByDateSorted(cs[0], SortByDate(cs[1..]));
    }
  }

  /** Inserting adds exactly `c`. */
  lemma {:induction false} InsertByDateAdds(c: Commit, s: seq<Commit>)
    ensures multiset(InsertByDate(c, s)) == multiset(s) + multiset{c}
  {
    if s != [] && c.date > s[0].date {
      InsertByDateAdds(c, s[1..]);
      assert InsertByDate(c, s) == [s[0]] + InsertByDate(c, s[1..]);
      assert multiset(s) == multiset{s[0]} + multiset(s[1..]) by {
        assert s == [s[0]] + s[1..];
      }
    }
  }

  /** The sorted copy holds the same commits. */
  lemma {:induction false} SortByDatePermutes(cs: seq<Commit>)
    ensures multiset(SortByDate(cs)) == multiset(cs)
  {
    if cs != [] {
      var sorted := SortByDate(cs[1..]);
      SortByDatePermutes(cs[1..]);
      InsertByDateAdds(cs[0], sorted);
      assert SortByDate(cs) == InsertByDate(cs[0], sorted);
      assert multiset(cs) == multiset(cs[1..]) + multiset{cs[0]} by {
        assert cs == [cs[0]] + cs[1..];
      }
    }
  }

  /** Inserting keeps the smaller first date and the larger last date. */
  lemma {:induction false} InsertEnds(c: Commit, s: seq<Commit>)
    requires SortedByDate(s) && |s| > 0
    ensures var r := InsertByDate(c, s);
            && r[0].date == (if c.date <= s[0].date then c.date else s[0].date)
            && r[|r| - 1].date == (if c.date >= s[|s| - 1].date then c.date else s[|s| - 1].date)
  {
    if c.date > s[0].date {
      var rest := InsertByDate(c, s[1..]);
      assert InsertByDate(c, s) == [s[0]] + rest;
      if |s| > 1 {
        InsertEnds(c, s[1..]);
        assert s[1..][|s| - 2] == s[|s| - 1];
      }
    }
  }

  /** The first and the last commit of the sorted copy carry the earliest and the latest date. */
  lemma {:induction false} SortedEnds(cs: seq<Commit>)
    requires |cs| > 0
    ensures var s := SortByDate(cs);
            |s| == |cs| && s[0].date == MinDate(cs) && s[|s| - 1].date == MaxDate(cs)
  {
    if |cs| > 1 {
      SortedEnds(cs[1..]);
      SortByDateSorted(cs[1..]);
      InsertEnds(cs[0], SortByDate(cs[1..]));
    }
  }

  /** A span in milliseconds is within 2 or 7 days exactly when it is within that many times `MillisecondsPerDay`. */
  lemma SpanInDays(span: int)
    ensures span as real / MillisecondsPerDay as real <= 2.0 <==> span <= 2 * MillisecondsPerDay
    ensures span as real / MillisecondsPerDay as real <= 7.0 <==> span <= 7 * MillisecondsPerDay
  {
    DivideAtMost(span as real, MillisecondsPerDay as real, 2.0);
    DivideAtMost(span as real, MillisecondsPerDay as real, 7.0);
  }

  /** The distinct-message ratio stays below 0.3 exactly when `10 * distinct < 3 * count`. */
  lemma RatioBelowThreshold(distinct: nat, count: nat)
    requires count > 0
    ensures (distinct as real / count as real < 0.3) <==> 10 * distinct < 3 * count
  {
    var q := distinct as real / count as real;
    assert q * count as real == distinct as real;
    if q < 0.3 {
      MultiplyStrict(q, 0.3, count as real);
    } else if q > 0.3 {
      MultiplyStrict(0.3, q, count as real);
    }
  }

  /**
   * `analyzeCommitPatterns`: below two commits one high flag and nothing else;
   * otherwise the span between the first and last of a date-sorted copy, in
   * days, picks the timing flag, and the share of distinct messages the
   * variety flag.
   */
  method AnalyzeCommitPatterns(commits: seq<Commit>) returns (redFlags: seq<RedFlag>)
    ensures redFlags == CommitFlags(commits)
  {
    redFlags := [];
    if |commits| < 2 {
      redFlags := redFlags + [FewCommits];
      return;
    }
    var sortedCommits := SortByDate(commits);
    SortedEnds(commits);
    var firstCommit := sortedCommits[0].date;
    var lastCommit := sortedCommits[|sortedCommits| - 1].date;
    var timeSpanDays := (lastCommit - firstCommit) as real / MillisecondsPerDay as real;
    SpanInDays(lastCommit - firstCommit);
    if timeSpanDays <= 2.0 {
      redFlags := redFlags + [WithinTwoDays];
    } else if timeSpanDays <= 7.0 {
      redFlags := redFlags + [WithinSevenDays];
    }
    assert redFlags == TimingFlags(commits);
    var uniqueMessages := DistinctMessages(commits);
    RatioBelowThreshold(|uniqueMessages|, |commits|);
    if |uniqueMessages| as real / |commits| as real < 0.3 {
      redFlags := redFlags + [LowMessageVariety];
    }
  }

  // ---------------------------------------------------------------------------
  // Contributor patterns
  // ---------------------------------------------------------------------------

  /** `Object.values(languages).reduce((a, b) => a + b, 0)`. */
  function TotalBytes(languages: seq<(string, nat)>): nat {
    if languages == [] then 0 else languages[0].1 + TotalBytes(languages[1..])
  }

  /** The ratio flag: fewer than 3 contributors and over a million bytes each. */
  function ContributorFlags(totalBytes: nat, contributorCount: nat): (r: seq<RedFlag>)
    ensures r == [FewContributors] || r == []
  {
    if contributorCount < 3 && totalBytes > 1000000 * contributorCount then [FewContributors] else []
  }

  /** With no contributors the flag is raised exactly when there is any code: `Infinity` exceeds the limit, `NaN` does not. */
  lemma NoContributorsFlaggedByAnyCode(totalBytes: nat)
    ensures ContributorFlags(totalBytes, 0) == (if totalBytes > 0 then [FewContributors] else [])
  {
  }

  /** The bytes per contributor exceed a million exactly when the bytes exceed a million per contributor. */
  lemma PerContributorThreshold(totalBytes: nat, contributorCount: nat)
    ensures JsGreater(JsDivide(totalBytes as real, contributorCount), 1000000.0) <==>
              totalBytes > 1000000 * contributorCount
  {
    if contributorCount > 0 {
      DivideAtMost(totalBytes as real, contributorCount as real, 1000000.0);
      assert (1000000 * contributorCount) as real == 1000000.0 * contributorCount as real;
    }
  }

  /** `analyzeContributorPatterns`: the bytes per contributor as a JavaScript division, then both conditions. */
  method AnalyzeContributorPatterns(languages: seq<(string, nat)>, contributors: seq<Analyzer.Contributor>)
    returns (redFlags: seq<RedFlag>)
    ensures redFlags == ContributorFlags(TotalBytes(languages), |contributors|)
  {
    redFlags := [];
    var totalCode := TotalBytes(languages);
    var codePerContributor := JsDivide(totalCode as real, |contributors|);
    PerContributorThreshold(totalCode, |contributors|);
    if JsGreater(codePerContributor, 1000000.0) && |contributors| < 3 {
      redFlags := redFlags + [FewContributors];
    }
  }

  // ---------------------------------------------------------------------------
  // Code quality
  // ---------------------------------------------------------------------------

  function Sum(s: seq<real>): real {
    if s == [] then 0.0 else s[0] + Sum(s[1..])
  }

  /** `scores.reduce((a, b) => a + Math.pow(b - mean, 2), 0)`. */
  function SquaredDeviations(s: seq<real>, mean: real): real {
    if s == [] then 0.0 else (s[0] - mean) * (s[0] - mean) + SquaredDeviations(s[1..], mean)
  }

  /** A sum of squares is never negative. */
  lemma {:induction false} SquaredDeviationsNonNegative(s: seq<real>, mean: real)
    ensures SquaredDeviations(s, mean) >= 0.0
  {
    if s != [] {
      SquaredDeviationsNonNegative(s[1..], mean);
      SquareNonNegative(s[0] - mean);
    }
  }

  function Mean(s: seq<real>): real
    requires |s| > 0
  {
    Sum(s) / |s| as real
  }

  /** The population variance. */
  function Variance(s: seq<real>): (v: real)
    requires |s| > 0
    ensures v >= 0.0
  {
    SquaredDeviationsNonNegative(s, Mean(s));
    SquaredDeviations(s, Mean(s)) / |s| as real
  }

  /** The quality flag: a present, non-empty breakdown whose variance exceeds 0.5. */
  function QualityFlags(breakdown: Option<seq<real>>): (r: seq<RedFlag>)
    ensures r == [InconsistentQuality] || r == []
    ensures breakdown == None || breakdown == Some([]) ==> r == []
  {
    if breakdown.Some? && |breakdown.value| > 0 && Variance(breakdown.value) > 0.5 then [InconsistentQuality] else []
  }

  /**
   * One step of the bound below, on plain numbers: a score `x` in `[lo, hi]`
   * deviates from `m` by at most the line `(lo + hi - 2m) * x + m^2 - lo * hi`.
   */
  lemma LineStep(x: real, m: real, lo: real, hi: real, k: real, n: real, sum: real, deviations: real,
                 sum': real, deviations': real)
    requires lo <= x <= hi && n == k + 1.0
    requires deviations <= (lo + hi - 2.0 * m) * sum + k * (m * m - lo * hi)
    requires sum' == x + sum && deviations' == (x - m) * (x - m) + deviations
    ensures deviations' <= (lo + hi - 2.0 * m) * sum' + n * (m * m - lo * hi)
  {
    var c, e := lo + hi - 2.0 * m, m * m - lo * hi;
    MultiplyNonNegative(x - lo, hi - x);
    assert (x - lo) * (hi - x) == c * x + e - (x - m) * (x - m);
    assert c * (x + sum) == c * x + c * sum;
    assert (k + 1.0) * e == k * e + e;
  }

  /** The scores after the first stay within the same bounds. */
  lemma TailWithin(s: seq<real>, lo: real, hi: real)
    requires s != [] && forall i :: 0 <= i < |s| ==> lo <= s[i] <= hi
    ensures forall i :: 0 <= i < |s| - 1 ==> lo <= s[1..][i] <= hi
  {
    forall i | 0 <= i < |s| - 1 ensures lo <= s[1..][i] <= hi {
      assert s[1..][i] == s[i + 1];
    }
  }

  /** Scores within `[lo, hi]` deviate from any `m` by at most `(lo + hi - 2m) * sum + n * (m^2 - lo * hi)` in total. */
  lemma {:induction false} DeviationsBelowLine(s: seq<real>, m: real, lo: real, hi: real)
    requires forall i :: 0 <= i < |s| ==> lo <= s[i] <= hi
    ensures SquaredDeviations(s, m) <= (lo + hi - 2.0 * m) * Sum(s) + |s| as real * (m * m - lo * hi)
  {
    if s != [] {
      var t := s[1..];
      var x, k, n := s[0], |t| as real, |s| as real;
      assert lo <= x <= hi && n == k + 1.0;
      TailWithin(s, lo, hi);
      DeviationsBelowLine(t, m, lo, hi);
      LineStep(x, m, lo, hi, k, n, Sum(t), SquaredDeviations(t, m), Sum(s), SquaredDeviations(s, m));
    }
  }

  /**
   * The bound below on plain numbers: when the sum is `n * m`, the line
   * `(lo + hi - 2m) * sum + n * (m^2 - lo * hi)` is `n * (m - lo) * (hi - m)`,
   * at most `n * (hi - lo)^2 / 4`.
   */
  lemma SpreadStep(n: real, m: real, sum: real, deviations: real, lo: real, hi: real)
    requires n > 0.0 && sum == m * n
    requires deviations <= (lo + hi - 2.0 * m) * sum + n * (m * m - lo * hi)
    ensures deviations <= n * ((hi - lo) * (hi - lo) / 4.0)
  {
    var g := (m - lo) * (hi - m);
    var w := (hi - lo) * (hi - lo) / 4.0;
    assert (lo + hi - 2.0 * m) * (m * n) == n * ((lo + hi - 2.0 * m) * m);
    assert n * ((lo + hi - 2.0 * m) * m) + n * (m * m - lo * hi) == n * g;
    SquareNonNegative(2.0 * m - lo - hi);
    assert w - g == (2.0 * m - lo - hi) * (2.0 * m - lo - hi) / 4.0;
    MultiplyNonNegative(n, w - g);
    assert n * (w - g) == n * w - n * g;
  }

  /** Scores within `[lo, hi]` whose sum is `n * m` deviate from `m` by at most `(hi - lo)^2 / 4` each on average. */
  lemma {:induction false} DeviationsBoundedBySpread(s: seq<real>, m: real, lo: real, hi: real)
    requires |s| > 0 && Sum(s) == m * |s| as real
    requires forall i :: 0 <= i < |s| ==> lo <= s[i] <= hi
    ensures SquaredDeviations(s, m) <= |s| as real * ((hi - lo) * (hi - lo) / 4.0)
  {
    var n, sum, deviations := |s| as real, Sum(s), SquaredDeviations(s, m);
    assert n > 0.0 && sum == m * n;
    DeviationsBelowLine(s, m, lo, hi);
    SpreadStep(n, m, sum, deviations, lo, hi);
  }

  /**
   * Scores within an interval of width `w` have variance at most `w * w / 4`,
   * so a breakdown spread over less than the square root of 2 is never flagged.
   */
  lemma {:induction false} VarianceBoundedBySpread(s: seq<real>, lo: real, hi: real)
    requires |s| > 0
    requires forall i :: 0 <= i < |s| ==> lo <= s[i] <= hi
    ensures Variance(s) <= (hi - lo) * (hi - lo) / 4.0
  {
    var n, m := |s| as real, Mean(s);
    assert Sum(s) == m * n;
    DeviationsBoundedBySpread(s, m, lo, hi);
    DivideAtMost(SquaredDeviations(s, m), n, (hi - lo) * (hi - lo) / 4.0);
  }

  /** Quality scores on a scale of width 1, such as 0 to 1, never raise the quality flag. */
  lemma UnitScaleNeverInconsistent(s: seq<real>, lo: real)
    requires forall i :: 0 <= i < |s| ==> lo <= s[i] <= lo + 1.0
    ensures QualityFlags(Some(s)) == []
  {
    if |s| > 0 {
      VarianceBoundedBySpread(s, lo, lo + 1.0);
    }
  }

  /**
   * `analyzeCodeQuality`: for a present breakdown, its mean and variance as
   * JavaScript divisions (an empty breakdown gives `NaN`, which is not above
   * the threshold).
   */
  method AnalyzeCodeQuality(aiAnalysis: AiAnalysis) returns (redFlags: seq<RedFlag>)
    ensures redFlags == QualityFlags(aiAnalysis.scoreBreakdown)
  {
    redFlags := [];
    if aiAnalysis.scoreBreakdown.Some? {
      var scores := aiAnalysis.scoreBreakdown.value;
      var avgScore := JsDivide(Sum(scores), |scores|);
      var variance := if avgScore.Finite? then JsDivide(SquaredDeviations(scores, avgScore.value), |scores|) else NaN;
      if JsGreater(variance, 0.5) {
        redFlags := redFlags + [InconsistentQuality];
      }
    }
  }

  // ---------------------------------------------------------------------------
  // Risk score
  // ---------------------------------------------------------------------------

  function SeverityWeight(s: Severity): real {
    match s
    case High => 1.0
    case Medium => 0.6
    case Low => 0.3
  }

  /** The weight a flag adds; `commit_pattern` flags count double. */
  function FlagWeight(f: RedFlag): (w: real)
    ensures 0.3 <= w <= 2.0
  {
    if f.kind == CommitPattern then SeverityWeight(f.severity) * 2.0 else SeverityWeight(f.severity)
  }

  /** The `reduce` over the flags, from 0. */
  function WeightedScore(flags: seq<RedFlag>): (w: real)
    ensures w >= 0.0
  {
    if flags == [] then 0.0 else FlagWeight(flags[0]) + WeightedScore(flags[1..])
  }

  lemma {:induction false} WeightedScoreAppend(a: seq<RedFlag>, b: seq<RedFlag>)
    ensures WeightedScore(a + b) == WeightedScore(a) + WeightedScore(b)
  {
    if a == [] {
      assert a + b == b;
    } else {
      assert (a + b)[1..] == a[1..] + b;
      WeightedScoreAppend(a[1..], b);
    }
  }

  /** `Math.min(100, weightedScore * 15)`. */
  function RiskScore(flags: seq<RedFlag>): (score: real)
    ensures 0.0 <= score <= 100.0
    ensures flags == [] ==> score == 0.0
  {
    var scaled := WeightedScore(flags) * 15.0;
    if 100.0 <= scaled then 100.0 else scaled
  }

  datatype RiskLevel = LowRisk | MediumRisk | HighRisk

  /** High above 70, Medium above 40, Low otherwise. */
  function RiskLevelFor(score: real): (level: RiskLevel)
    ensures level == HighRisk <==> score > 70.0
    ensures level == LowRisk <==> score <= 40.0
  {
    if score > 70.0 then HighRisk else if score > 40.0 then MediumRisk else LowRisk
  }

  /** All flags of a record: commit flags, then the contributor flag, then the quality flag. */
  function AllFlags(record: AnalysisRecord): seq<RedFlag> {
    CommitFlags(record.commitActivity.recentCommits)
      + ContributorFlags(TotalBytes(record.languages), |record.contributors|)
      + QualityFlags(record.aiAnalysis.scoreBreakdown)
  }

  /** At most four flags weighing at most 4.2 together: the score never exceeds 63, so the cap never binds and the level is never High. */
  lemma {:induction false} RiskScoreBounded(record: AnalysisRecord)
    ensures |AllFlags(record)| <= 4
    ensures WeightedScore(AllFlags(record)) <= 4.2
    ensures RiskScore(AllFlags(record)) == WeightedScore(AllFlags(record)) * 15.0 <= 63.0
    ensures RiskLevelFor(RiskScore(AllFlags(record))) != HighRisk
  {
    var c := CommitFlags(record.commitActivity.recentCommits);
    var p := ContributorFlags(TotalBytes(record.languages), |record.contributors|);
    var q := QualityFlags(record.aiAnalysis.scoreBreakdown);
    WeightedScoreAppend(c + p, q);
    WeightedScoreAppend(c, p);
    CommitWeightAtMost(record.commitActivity.recentCommits);
    assert WeightedScore(p) <= 1.0 && WeightedScore(q) <= 0.6;
    assert WeightedScore(AllFlags(record)) <= 4.2;
  }

  /** The commit flags weigh at most 2.6: a high timing flag (2.0) and the variety flag (0.6). */
  lemma CommitWeightAtMost(cs: seq<Commit>)
    ensures WeightedScore(CommitFlags(cs)) <= 2.6
  {
    if |cs| >= 2 {
      WeightedScoreAppend(TimingFlags(cs), VarietyFlags(cs));
      assert WeightedScore(TimingFlags(cs)) <= 2.0 && WeightedScore(VarietyFlags(cs)) <= 0.6;
    }
  }

  /** Fewer than two recent commits alone put the score at 30 or more. */
  lemma {:induction false} FewCommitsScoreAtLeast30(record: AnalysisRecord)
    requires |record.commitActivity.recentCommits| < 2
    ensures RiskScore(AllFlags(record)) >= 30.0
  {
    var c := CommitFlags(record.commitActivity.recentCommits);
    var p := ContributorFlags(TotalBytes(record.languages), |record.contributors|);
    var q := QualityFlags(record.aiAnalysis.scoreBreakdown);
    WeightedScoreAppend(c + p, q);
    WeightedScoreAppend(c, p);
    assert WeightedScore(c) == 2.0;
  }

  /** The result of `calculateRiskScore`, without its timestamp. */
  datatype RiskAnalysis = RiskAnalysis(score: real, riskLevel: RiskLevel, redFlags: seq<RedFlag>)

  /** `calculateRiskScore`: the three analyses in order, the weighted score and the level. */
  method CalculateRiskScore(record: AnalysisRecord) returns (risk: RiskAnalysis)
    ensures risk.redFlags == AllFlags(record)
    ensures risk.score == RiskScore(risk.redFlags)
    ensures risk.riskLevel == RiskLevelFor(risk.score)
    ensures 0.0 <= risk.score <= 63.0 && risk.riskLevel != HighRisk
  {
    var commitFlags := AnalyzeCommitPatterns(record.commitActivity.recentCommits);
    var contributorFlags := AnalyzeContributorPatterns(record.languages, record.contributors);
    var codeQualityFlags := AnalyzeCodeQuality(record.aiAnalysis);
    var allRedFlags := commitFlags + contributorFlags + codeQualityFlags;
    var normalizedScore := RiskScore(allRedFlags);
    RiskScoreBounded(record);
    risk := RiskAnalysis(normalizedScore, RiskLevelFor(normalizedScore), allRedFlags);
  }

  // ---------------------------------------------------------------------------
  // Recommendations
  // ---------------------------------------------------------------------------

  const InvestigateHistory := "Investigate commit history for bulk copying of code"
  const ReviewGitLogs := "Review git logs for signs of repository copying"
  const ReviewPermissions := "Review contributor permissions and access patterns"
  const VerifyContributions := "Verify authenticity of large code contributions"
  const ReviewInconsistentSections := "Conduct detailed code review of inconsistent sections"
  const CheckStyles := "Check for mixing of different coding styles/standards"

  /** The two fixed recommendations of a flag kind; message variety has none. */
  function KindRecommendations(kind: FlagKind): seq<string> {
    match kind
    case CommitPattern => [InvestigateHistory, ReviewGitLogs]
    case ContributorRatio => [ReviewPermissions, VerifyContributions]
    case CodeQuality => [ReviewInconsistentSections, CheckStyles]
    case CommitMessages => []
  }

  /** Every recommendation of every flag, in flag order, duplicates included. */
  function AllRecommendations(flags: seq<RedFlag>): seq<string> {
    if flags == [] then [] else AllRecommendations(flags[..|flags| - 1]) + KindRecommendations(flags[|flags| - 1].kind)
  }

  /** `Set.prototype.add` on an insertion-ordered set held as a sequence. */
  function Add(set_: seq<string>, x: string): (r: seq<string>)
    ensures x in r && set_ <= r
    ensures x in set_ ==> r == set_
  {
    if x in set_ then set_ else set_ + [x]
  }

  /** Adds each of `xs` in turn. */
  function AddAll(set_: seq<string>, xs: seq<string>): seq<string>
    decreases |xs|
  {
    if xs == [] then set_ else AddAll(Add(set_, xs[0]), xs[1..])
  }

  /** Adding two in turn. */
  lemma AddAllTwo(set_: seq<string>, x: string, y: string)
    ensures AddAll(set_, [x, y]) == Add(Add(set_, x), y)
  {
    assert [x, y][1..] == [y];
    assert AddAll(set_, [x, y]) == AddAll(Add(set_, x), [y]);
    assert [y][1..] == [];
    assert AddAll(Add(set_, x), [y]) == AddAll(Add(Add(set_, x), y), []);
  }

  predicate NoDuplicates(s: seq<string>) {
    forall i, j :: 0 <= i < j < |s| ==> s[i] != s[j]
  }

  /** Adding keeps every earlier entry in its place, holds exactly the old entries and the new ones, and never repeats one. */
  lemma {:induction false} AddAllProperties(set_: seq<string>, xs: seq<string>)
    ensures set_ <= AddAll(set_, xs)
    ensures forall y :: y in AddAll(set_, xs) <==> y in set_ || y in xs
    ensures NoDuplicates(set_) ==> NoDuplicates(AddAll(set_, xs))
    decreases |xs|
  {
    if xs != [] {
      var next := Add(set_, xs[0]);
      assert forall y :: y in next <==> y in set_ || y == xs[0];
      AddAllProperties(next, xs[1..]);
      assert forall y :: y in xs <==> y == xs[0] || y in xs[1..] by {
        assert xs == [xs[0]] + xs[1..];
      }
      if NoDuplicates(set_) && xs[0] !in set_ {
        assert NoDuplicates(next);
      }
    }
  }

  lemma {:induction false} AddAllAppend(set_: seq<string>, xs: seq<string>, ys: seq<string>)
    ensures AddAll(set_, xs + ys) == AddAll(AddAll(set_, xs), ys)
    decreases |xs|
  {
    if xs == [] {
      assert xs + ys == ys;
    } else {
      assert (xs + ys)[1..] == xs[1..] + ys;
      AddAllAppend(Add(set_, xs[0]), xs[1..], ys);
    }
  }

  /** The `switch` of one loop step: the two recommendations of a kind, added in turn. */
  function AddKind(set_: seq<string>, kind: FlagKind): seq<string> {
    match kind
    case CommitPattern => Add(Add(set_, InvestigateHistory), ReviewGitLogs)
    case ContributorRatio => Add(Add(set_, ReviewPermissions), VerifyContributions)
    case CodeQuality => Add(Add(set_, ReviewInconsistentSections), CheckStyles)
    case CommitMessages => set_
  }

  /** The `switch` adds exactly the kind's recommendations, in order. */
  lemma AddKindAddsAll(set_: seq<string>, kind: FlagKind)
    ensures AddKind(set_, kind) == AddAll(set_, KindRecommendations(kind))
  {
    var texts := KindRecommendations(kind);
    if texts != [] {
      AddAllTwo(set_, texts[0], texts[1]);
    }
  }

  /** Adding the recommendations of flag `i` to those of the flags before it gives those of the first `i + 1` flags. */
  lemma RecommendationsStep(flags: seq<RedFlag>, i: nat, before: seq<string>)
    requires i < |flags| && before == AddAll([], AllRecommendations(flags[..i]))
    ensures AddKind(before, flags[i].kind) == AddAll([], AllRecommendations(flags[..i + 1]))
  {
    assert flags[..i + 1][..i] == flags[..i];
    AddAllAppend([], AllRecommendations(flags[..i]), KindRecommendations(flags[i].kind));
    AddKindAddsAll(before, flags[i].kind);
  }

  /**
   * `generateRecommendations`: for each flag in order, the `switch` on its
   * kind adds that kind's two recommendations to an insertion-ordered set.
   */
  method GenerateRecommendations(redFlags: seq<RedFlag>) returns (recommendations: seq<string>)
    ensures recommendations == AddAll([], AllRecommendations(redFlags))
  {
    recommendations := [];
    var i := 0;
    while i < |redFlags|
      invariant 0 <= i <= |redFlags|
      invariant recommendations == AddAll([], AllRecommendations(redFlags[..i]))
    {
      RecommendationsStep(redFlags, i, recommendations);
      match redFlags[i].kind {
        case CommitPattern =>
          recommendations := Add(recommendations, InvestigateHistory);
          recommendations := Add(recommendations, ReviewGitLogs);
        case ContributorRatio =>
          recommendations := Add(recommendations, ReviewPermissions);
          recommendations := Add(recommendations, VerifyContributions);
        case CodeQuality =>
          recommendations := Add(recommendations, ReviewInconsistentSections);
          recommendations := Add(recommendations, CheckStyles);
        case CommitMessages =>
      }
      i := i + 1;
    }
    assert redFlags[..i] == redFlags;
  }

  /** A recommendation is listed exactly when some flag's kind calls for it. */
  lemma {:induction false} RecommendationsOfFlags(flags: seq<RedFlag>, x: string)
    ensures x in AllRecommendations(flags) <==> exists f :: f in flags && x in KindRecommendations(f.kind)
  {
    if flags != [] {
      var init := flags[..|flags| - 1];
      var last := flags[|flags| - 1];
      RecommendationsOfFlags(init, x);
      assert flags == init + [last];
      if x in AllRecommendations(init) {
        var f :| f in init && x in KindRecommendations(f.kind);
        assert f in flags;
      }
      if x in KindRecommendations(last.kind) {
        assert last in flags;
      }
      if exists f :: f in flags && x in KindRecommendations(f.kind) {
        var f :| f in flags && x in KindRecommendations(f.kind);
        if f != last {
          assert f in init;
        }
      }
    }
  }

  /** The recommendations gathered after the first `k` flags begin the final list. */
  lemma {:induction false} RecommendationsOfPrefixKept(flags: seq<RedFlag>, k: nat)
    requires k <= |flags|
    ensures AddAll([], AllRecommendations(flags[..k])) <= AddAll([], AllRecommendations(flags))
  {
    var all, first := AllRecommendations(flags), AllRecommendations(flags[..k]);
    PrefixRecommendations(flags, k);
    var rest := all[|first|..];
    assert all == first + rest;
    AddAllAppend([], first, rest);
    AddAllProperties(AddAll([], first), rest);
  }

  /**
   * The recommendations never repeat, keep first-occurrence order, and are
   * exactly those of the flag kinds present; a message-variety flag adds none.
   */
  lemma {:induction false} RecommendationsDeduplicated(flags: seq<RedFlag>)
    ensures var recs := AddAll([], AllRecommendations(flags));
            && NoDuplicates(recs)
            && (forall x :: x in recs <==> exists f :: f in flags && x in KindRecommendations(f.kind))
            && (forall k :: 0 <= k <= |flags| ==> AddAll([], AllRecommendations(flags[..k])) <= recs)
  {
    AddAllProperties([], AllRecommendations(flags));
    forall x {
      RecommendationsOfFlags(flags, x);
    }
    forall k | 0 <= k <= |flags| {
      RecommendationsOfPrefixKept(flags, k);
    }
  }

  /** The recommendations of the first `k` flags begin those of all flags. */
  lemma {:induction false} PrefixRecommendations(flags: seq<RedFlag>, k: nat)
    requires k <= |flags|
    ensures AllRecommendations(flags[..k]) <= AllRecommendations(flags)
    decreases |flags| - k
  {
    if k < |flags| {
      PrefixRecommendations(flags, k + 1);
      assert flags[..k + 1][..k] == flags[..k];
    } else {
      assert flags[..k] == flags;
    }
  }

  // ---------------------------------------------------------------------------
  // Report
  // ---------------------------------------------------------------------------

  datatype Metadata = Metadata(totalCommits: nat, languagesUsed: seq<string>, contributorCount: nat)

  /** The report of `generateReport`, without its timestamp. */
  datatype Report = Report(
    repositoryName: string,
    riskAssessment: RiskAnalysis,
    recommendations: seq<string>,
    metadata: Metadata)

  /** `Object.keys(languages)`. */
  function LanguageNames(languages: seq<(string, nat)>): (names: seq<string>)
    ensures |names| == |languages|
    ensures forall i :: 0 <= i < |languages| ==> names[i] == languages[i].0
  {
    if languages == [] then [] else [languages[0].0] + LanguageNames(languages[1..])
  }

  /**
   * `generateReport`: the risk analysis, the recommendations for its flags
   * and the metadata; the commit total is the record's `total_commits`, not
   * the number of recent commits.
   */
  method GenerateReport(record: AnalysisRecord) returns (report: Report)
    ensures report.repositoryName == record.repositoryName
    ensures report.riskAssessment.redFlags == AllFlags(record)
    ensures report.riskAssessment.score == RiskScore(AllFlags(record))
    ensures report.riskAssessment.riskLevel == RiskLevelFor(report.riskAssessment.score)
    ensures report.recommendations == AddAll([], AllRecommendations(AllFlags(record)))
    ensures report.metadata == Metadata(record.commitActivity.totalCommits, LanguageNames(record.languages), |record.contributors|)
  {
    var riskAnalysis := CalculateRiskScore(record);
    var recommendations := GenerateRecommendations(riskAnalysis.redFlags);
    report := Report(
      record.repositoryName,
      riskAnalysis,
      recommendations,
      Metadata(record.commitActivity.totalCommits, LanguageNames(record.languages), |record.contributors|));
  }

  // ---------------------------------------------------------------------------
  // Examples
  // ---------------------------------------------------------------------------

  /**
   * Two commits a day apart with different messages, one contributor and two
   * million bytes of code: a two-day timing flag and a ratio flag, 45 points,
   * Medium risk.
   */
  lemma ExampleTwoDaysOneContributor()
    ensures var record := AnalysisRecord(
              "demo",
              CommitActivity(40, [Commit("a", "init", 0), Commit("b", "fix", 86400000)]),
              [("Python", 2000000)],
              [Analyzer.Contributor("octocat", 2)],
              AiAnalysis(None));
            && AllFlags(record) == [WithinTwoDays, FewContributors]
            && RiskScore(AllFlags(record)) == 45.0
            && RiskLevelFor(RiskScore(AllFlags(record))) == MediumRisk
  {
    var cs := [Commit("a", "init", 0), Commit("b", "fix", 86400000)];
    assert MinDate(cs) == 0 && MaxDate(cs) == 86400000;
    assert DistinctMessages(cs) == {"init", "fix"};
  }
}

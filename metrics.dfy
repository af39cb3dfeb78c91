/**
 * `generate_metrics`: six sub-scores of a repository, each in [0, 1], the
 * findings gathered along the way, the total brought to a score out of 5 and
 * the rating word for that score. Dates arrive already parsed, as whole
 * seconds since the epoch, and the current time is a parameter.
 */
module Metrics {
  import opened Wrappers
  import opened RealArith
  import Analyzer

  /** The fields of `repo_info` that `generate_metrics` reads; `None` is a missing key. */
  datatype RepoInfo = RepoInfo(
    stars: nat,
    forks: nat,
    watchersCount: Option<nat>,
    collaborators: Option<seq<string>>,
    tags: Option<seq<string>>,
    createdAt: int,
    lastUpdated: int,
    totalCommits: Option<nat>,
    openIssuesCount: nat)

  /** The `findings` dictionary: three lists, each appended to along the branches taken. */
  datatype Findings = Findings(strengths: seq<Finding>, areasForImprovement: seq<Finding>, recommendations: seq<Finding>)
  {
    /** Every finding listed belongs to section `c`. */
    predicate Within(c: Component) {
      && (forall x :: x in strengths ==> SectionOf(x) == c)
      && (forall x :: x in areasForImprovement ==> SectionOf(x) == c)
      && (forall x :: x in recommendations ==> SectionOf(x) == c)
    }

    /** These findings followed by those of a later section. */
    function Then(later: Findings): Findings {
      Findings(strengths + later.strengths, areasForImprovement + later.areasForImprovement,
               recommendations + later.recommendations)
    }
  }

  const NoFindings := Findings([], [], [])


  /** The six sections of `generate_metrics`, one per component. */
  datatype Component = Documentation | Structure | Engagement | Maintenance | Issues | Maturity

  datatype Rating = Excellent | Good | Average | Poor | Bad

  datatype MetricsResult = MetricsResult(
    components: Components,
    findings: Findings,
    normalizedScore: real,
    rating: Rating)

  /**
   * `score_components`: one field per dictionary key ("documentation",
   * "structure", "engagement", "maintenance", "issues", "maturity").
   */
  datatype Components = Components(
    documentation: real,
    structure: real,
    engagement: real,
    maintenance: real,
    issues: real,
    maturity: real)
  {
    predicate InUnitRange() {
      && 0.0 <= documentation <= 1.0 && 0.0 <= structure <= 1.0 && 0.0 <= engagement <= 1.0
      && 0.0 <= maintenance <= 1.0 && 0.0 <= issues <= 1.0 && 0.0 <= maturity <= 1.0
    }
  }

  const MaxScore: real := 6.0

  // ---------------------------------------------------------------------------
  // Strings and numbers as Python treats them
  // ---------------------------------------------------------------------------

  /** `str.lower()` on ASCII letters. */
  function Lower(s: string): (r: string)
    ensures |r| == |s|
    ensures forall i :: 0 <= i < |s| ==> r[i] == (if 'A' <= s[i] <= 'Z' then (s[i] as int + 32) as char else s[i])
  {
    if s == [] then []
    else [if 'A' <= s[0] <= 'Z' then (s[0] as int + 32) as char else s[0]] + Lower(s[1..])
  }

  predicate EndsWith(s: string, suffix: string) {
    |suffix| <= |s| && s[|s| - |suffix|..] == suffix
  }

  /** `sub in s`: `sub` occurs in `s` at some position. */
  predicate Contains(s: string, sub: string)
    decreases |s|
  {
    |sub| <= |s| && (s[..|sub|] == sub || Contains(s[1..], sub))
  }

  function DigitChar(d: nat): char
    requires d < 10
  {
    "0123456789"[d]
  }

  /** The number a string of decimal digits denotes, most significant digit first. */
  function DigitsValue(s: string): int {
    if s == [] then 0 else DigitsValue(s[..|s| - 1]) * 10 + (s[|s| - 1] as int - '0' as int)
  }

  /** `str(n)` for a natural number: its decimal digits, without leading zeros. */
  function NatToString(n: nat): (s: string)
    ensures |s| >= 1
    ensures forall i :: 0 <= i < |s| ==> '0' <= s[i] <= '9'
    ensures DigitsValue(s) == n
    ensures s[0] == '0' ==> s == "0"
  {
    if n < 10 then
      [DigitChar(n)]
    else
      var front, last := NatToString(n / 10), DigitChar(n % 10);
      assert (front + [last])[..|front|] == front;
      assert (front + [last])[0] == front[0];
      front + [last]
  }

  /** `', '.join(parts)`. */
  function JoinComma(parts: seq<string>): string {
    if parts == [] then ""
    else if |parts| == 1 then parts[0]
    else parts[0] + ", " + JoinComma(parts[1..])
  }

  function MinReal(a: real, b: real): (r: real)
    ensures r <= a && r <= b && (r == a || r == b)
  {
    if a <= b then a else b
  }

  /**
   * The integer nearest to `y`, ties to the even one, as Python's `round`
   * does for a value it holds exactly.
   */
  function RoundHalfEven(y: real): (k: int)
    ensures y - 0.5 <= k as real <= y + 0.5
    ensures y - y.Floor as real != 0.5 ==> y - 0.5 < k as real < y + 0.5
    ensures y - y.Floor as real == 0.5 ==> k % 2 == 0
  {
    var f := y.Floor;
    var d := y - f as real;
    if d < 0.5 then f
    else if d > 0.5 then f + 1
    else if f % 2 == 0 then f
    else f + 1
  }

  /** Rounding keeps a value between two integers between them. */
  lemma RoundHalfEvenWithin(y: real, lo: int, hi: int)
    requires lo as real <= y <= hi as real
    ensures lo <= RoundHalfEven(y) <= hi
  {
  }

  /** `round(x, digits)`, with `scale == 10^digits`. */
  function RoundTo(x: real, scale: nat): (r: real)
    requires scale > 0
    ensures x - 0.5 / scale as real <= r <= x + 0.5 / scale as real
  {
    var k := RoundHalfEven(x * scale as real);
    DivideWithin(x, scale as real, k as real, 0.5);
    k as real / scale as real
  }

  /** `RoundTo` is the rounded scaled value divided back by the scale. */
  lemma RoundToUnfolded(x: real, scale: nat)
    requires scale > 0
    ensures RoundTo(x, scale) == RoundHalfEven(x * scale as real) as real / scale as real
  {
  }

  /** Rounding a value of [0, b] stays in [0, b] when `b` is a multiple of the rounding step. */
  lemma {:induction false} RoundToWithin(x: real, scale: nat, steps: nat)
    requires scale > 0
    requires 0.0 <= x <= steps as real / scale as real
    ensures 0.0 <= RoundTo(x, scale) <= steps as real / scale as real
  {
    RoundToUnfolded(x, scale);
    var y := x * scale as real;
    ScaleWithin(x, scale as real, steps as real);
    RoundHalfEvenWithin(y, 0, steps);
    var k := RoundHalfEven(y);
    DivideMonotone(0.0, k as real, scale as real);
    DivideMonotone(k as real, steps as real, scale as real);
  }

  // ---------------------------------------------------------------------------
  // Dates
  // ---------------------------------------------------------------------------

  const SecondsPerDay: int := 86400

  /** `(now - t).days`: whole days elapsed, rounded down, also when negative. */
  function DaysBetween(t: int, now: int): (d: int)
    ensures d * SecondsPerDay <= now - t < (d + 1) * SecondsPerDay
  {
    (now - t) / SecondsPerDay
  }

  // ---------------------------------------------------------------------------
  // The six components
  // ---------------------------------------------------------------------------

  function ReadmeFiles(files: seq<Analyzer.FileContent>): (r: seq<Analyzer.FileContent>)
    ensures |r| <= |files|
    ensures forall f :: f in r ==> f in files && Lower(f.path) == "readme.md"
    ensures (exists f :: f in files && Lower(f.path) == "readme.md") ==> |r| > 0
  {
    if files == [] then []
    else if Lower(files[0].path) == "readme.md" then [files[0]] + ReadmeFiles(files[1..])
    else
      assert forall f :: f in files[1..] ==> f in files;
      assert forall f :: f in files ==> f == files[0] || f in files[1..];
      ReadmeFiles(files[1..])
  }

  /**
   * The README files keep the listing order: the first of them is the first
   * file of the listing whose lower-cased path is `readme.md`.
   */
  lemma {:induction false} FirstReadme(files: seq<Analyzer.FileContent>)
    requires |ReadmeFiles(files)| > 0
    ensures exists i :: 0 <= i < |files| && ReadmeFiles(files)[0] == files[i] && Lower(files[i].path) == "readme.md" &&
              forall j :: 0 <= j < i ==> Lower(files[j].path) != "readme.md"
  {
    if Lower(files[0].path) == "readme.md" {
      assert ReadmeFiles(files)[0] == files[0];
    } else {
      var rest := files[1..];
      FirstReadme(rest);
      var i :| 0 <= i < |rest| && ReadmeFiles(rest)[0] == rest[i] && Lower(rest[i].path) == "readme.md" &&
                forall j :: 0 <= j < i ==> Lower(rest[j].path) != "readme.md";
      assert files[i + 1] == rest[i];
      forall j | 0 <= j < i + 1 ensures Lower(files[j].path) != "readme.md" {
        if j > 0 {
          assert files[j] == rest[j - 1];
        }
      }
    }
  }

  predicate HasReadme(files: seq<Analyzer.FileContent>) {
    |ReadmeFiles(files)| > 0
  }

  /** The README counts in full only when the first one is longer than 500 characters. */
  function DocumentationScore(files: seq<Analyzer.FileContent>): (r: real)
    ensures r == 1.0 <==> HasReadme(files) && |ReadmeFiles(files)[0].content| > 500
    ensures r == 0.5 <==> HasReadme(files) && |ReadmeFiles(files)[0].content| <= 500
    ensures r == 0.0 <==> !HasReadme(files)
  {
    if !HasReadme(files) then 0.0
    else if |ReadmeFiles(files)[0].content| > 500 then 1.0
    else 0.5
  }

  /** A dependency manifest, judged by `str.endswith` on the four suffixes. */
  predicate IsDependencyFile(path: string) {
    EndsWith(path, ".txt") || EndsWith(path, ".toml") || EndsWith(path, "requirements.txt") || EndsWith(path, "package.json")
  }

  /** `any(...)` over the files for a dependency manifest. */
  predicate HasRequirements(files: seq<Analyzer.FileContent>) {
    files != [] && (IsDependencyFile(files[0].path) || HasRequirements(files[1..]))
  }

  /** `any(f['path'] == '.gitignore' ...)`. */
  predicate HasGitignore(files: seq<Analyzer.FileContent>) {
    files != [] && (files[0].path == ".gitignore" || HasGitignore(files[1..]))
  }

  /** `any('test' in f['path'].lower() ...)`. */
  predicate HasTests(files: seq<Analyzer.FileContent>) {
    files != [] && (Contains(Lower(files[0].path), "test") || HasTests(files[1..]))
  }

  function Indicator(b: bool): real {
    if b then 1.0 else 0.0
  }

  /** 0.4 for dependency files, 0.3 for a `.gitignore`, 0.3 for tests. */
  function StructureScore(hasRequirements: bool, hasGitignore: bool, hasTests: bool): (r: real)
    ensures 0.0 <= r <= 1.0
    ensures r == 1.0 <==> hasRequirements && hasGitignore && hasTests
    ensures r == 0.0 <==> !hasRequirements && !hasGitignore && !hasTests
  {
    0.4 * Indicator(hasRequirements) + 0.3 * Indicator(hasGitignore) + 0.3 * Indicator(hasTests)
  }

  /** Commits per 30 days of age; 0 for a repository less than a day old. */
  function CommitFrequency(totalCommits: nat, ageDays: int): (f: real)
    ensures 0.0 <= f
    ensures ageDays < 1 ==> f == 0.0
    ensures ageDays >= 1 ==> f * ageDays as real == (totalCommits * 30) as real
  {
    if ageDays < 1 then 0.0 else (totalCommits * 30) as real / ageDays as real
  }

  /** The sum of the six capped engagement factors, before the cap at 1 and the rounding. */
  function EngagementSum(stars: nat, forks: nat, watchers: nat, collaborators: nat, tags: nat, frequency: real): (r: real)
    requires 0.0 <= frequency
    ensures 0.0 <= r <= 1.0
  {
    MinReal(stars as real / 100.0, 0.3)
    + MinReal(forks as real / 50.0, 0.2)
    + MinReal(watchers as real / 50.0, 0.15)
    + MinReal(collaborators as real / 5.0, 0.15)
    + MinReal(tags as real / 10.0, 0.1)
    + MinReal(frequency / 20.0, 0.1)
  }

  /** `round(min(sum, 1.0), 2)`. */
  function EngagementScore(sum: real): (r: real)
    requires 0.0 <= sum
    ensures 0.0 <= r <= 1.0
  {
    var capped := MinReal(sum, 1.0);
    RoundToWithin(capped, 100, 100);
    RoundTo(capped, 100)
  }

  function FrequencyTier(frequency: real): real {
    if frequency >= 10.0 then 0.6
    else if frequency >= 4.0 then 0.4
    else if frequency >= 1.0 then 0.2
    else 0.1
  }

  function RecencyTier(daysSinceUpdate: int): real {
    if daysSinceUpdate < 7 then 0.4
    else if daysSinceUpdate < 30 then 0.3
    else if daysSinceUpdate < 90 then 0.2
    else 0.0
  }

  /** Commit frequency tier plus recency tier. */
  function MaintenanceScore(frequency: real, daysSinceUpdate: int): (r: real)
    ensures 0.1 <= r <= 1.0
  {
    FrequencyTier(frequency) + RecencyTier(daysSinceUpdate)
  }

  /** A repository updated more recently never scores lower on maintenance. */
  lemma MaintenanceNonIncreasingInAge(frequency: real, d1: int, d2: int)
    requires d1 <= d2
    ensures MaintenanceScore(frequency, d1) >= MaintenanceScore(frequency, d2)
  {
  }

  /** More frequent commits never score lower on maintenance. */
  lemma MaintenanceNonDecreasingInFrequency(f1: real, f2: real, days: int)
    requires f1 <= f2
    ensures MaintenanceScore(f1, days) <= MaintenanceScore(f2, days)
  {
  }

  function IssuesScore(openIssues: nat): (r: real)
    ensures 0.4 <= r <= 1.0
    ensures r == 1.0 <==> openIssues == 0
    ensures r == 0.8 <==> 0 < openIssues < 10
    ensures r == 0.6 <==> 10 <= openIssues < 50
    ensures r == 0.4 <==> openIssues >= 50
  {
    if openIssues == 0 then 1.0
    else if openIssues < 10 then 0.8
    else if openIssues < 50 then 0.6
    else 0.4
  }

  /** Fewer open issues never score lower. */
  lemma IssuesNonIncreasing(n1: nat, n2: nat)
    requires n1 <= n2
    ensures IssuesScore(n1) >= IssuesScore(n2)
  {
  }

  function MaturityScore(ageDays: int): (r: real)
    ensures 0.2 <= r <= 1.0
    ensures r == 1.0 <==> ageDays > 30
    ensures r == 0.6 <==> 7 < ageDays <= 30
    ensures r == 0.2 <==> ageDays <= 7
  {
    if ageDays <= 7 then 0.2
    else if ageDays <= 30 then 0.6
    else 1.0
  }

  /** The rating word for a normalised score. */
  function RatingFor(score: real): (r: Rating)
    ensures r == Excellent <==> score >= 4.5
    ensures r == Good <==> 3.5 <= score < 4.5
    ensures r == Average <==> 2.5 <= score < 3.5
    ensures r == Poor <==> 1.5 <= score < 2.5
    ensures r == Bad <==> score < 1.5
  {
    if score >= 4.5 then Excellent
    else if score >= 3.5 then Good
    else if score >= 2.5 then Average
    else if score >= 1.5 then Poor
    else Bad
  }

  function RatingRank(r: Rating): nat {
    match r
    case Bad => 0
    case Poor => 1
    case Average => 2
    case Good => 3
    case Excellent => 4
  }

  /** A higher score never gets a worse rating. */
  lemma RatingMonotone(s1: real, s2: real)
    requires s1 <= s2
    ensures RatingRank(RatingFor(s1)) <= RatingRank(RatingFor(s2))
  {
  }

  /** `sum(score_components.values())`, in insertion order. */
  function Total(c: Components): real {
    c.documentation + c.structure + c.engagement + c.maintenance + c.issues + c.maturity
  }

  /** `round((total_score / max_score) * 5, 1)`: the total out of 6 as a score out of 5, to one decimal. */
  function NormalizedScore(c: Components): real {
    RoundTo(Total(c) / MaxScore * 5.0, 10)
  }

  /** Six components in [0, 1] give a score out of 5 in [0, 5], before and after rounding. */
  lemma {:induction false} NormalizedWithinRange(c: Components)
    requires c.InUnitRange()
    ensures 0.0 <= Total(c) / MaxScore * 5.0 <= 5.0
    ensures 0.0 <= NormalizedScore(c) <= 5.0
  {
    RoundToWithin(Total(c) / MaxScore * 5.0, 10, 50);
  }

  // ---------------------------------------------------------------------------
  // Findings texts
  // ---------------------------------------------------------------------------

  /** The findings `generate_metrics` can record; `Text` gives the sentence stored for each. */
  datatype Finding =
    | ComprehensiveReadme
    | ReadmeTooShort
    | ExpandReadme
    | ReadmeMissing
    | AddReadme
    | DependencyFilesPresent
    | AddDependencyFiles
    | GitignorePresent
    | TestsPresent
    | NoTests
    | AddTests
    | MoreEngagement
    | PromoteRepository
    | HighlyActive
    | RegularMaintenance
    | MoreFrequentUpdates
    | Unmaintained
    | VeryNew
    | KeepCommitting
    | RelativelyNew
    | EstablishedHistory
    | OpenIssues(count: nat)
    | CommunityEngagement(details: seq<string>)

  /** The section whose branches record a finding. */
  function SectionOf(f: Finding): Component {
    match f
    case ComprehensiveReadme | ReadmeTooShort | ExpandReadme | ReadmeMissing | AddReadme => Documentation
    case DependencyFilesPresent | AddDependencyFiles | GitignorePresent | TestsPresent | NoTests | AddTests => Structure
    case MoreEngagement | PromoteRepository | CommunityEngagement(_) => Engagement
    case HighlyActive | RegularMaintenance | MoreFrequentUpdates | Unmaintained => Maintenance
    case OpenIssues(_) => Issues
    case VeryNew | KeepCommitting | RelativelyNew | EstablishedHistory => Maturity
  }

  function Text(f: Finding): string {
    match f
    case ComprehensiveReadme => "Comprehensive README documentation"
    case ReadmeTooShort => "README could be more detailed"
    case ExpandReadme => "Expand README with installation, usage, and contribution guidelines"
    case ReadmeMissing => "Missing README documentation"
    case AddReadme => "Add a README.md file with project documentation"
    case DependencyFilesPresent => "Dependency management files present"
    case AddDependencyFiles => "Add dependency management files (requirements.txt/package.json)"
    case GitignorePresent => "Proper git configuration with .gitignore"
    case TestsPresent => "Testing infrastructure present"
    case NoTests => "No tests found"
    case AddTests => "Add unit tests to ensure code quality"
    case MoreEngagement => "Could benefit from more community engagement"
    case PromoteRepository => "Consider promoting the repository to attract more contributors"
    case HighlyActive => "Highly active maintenance with regular commits"
    case RegularMaintenance => "Regular maintenance activity"
    case MoreFrequentUpdates => "Repository could benefit from more frequent updates"
    case Unmaintained => "Repository appears to be unmaintained"
    case VeryNew => "Repository is very new with limited commit history"
    case KeepCommitting => "Continue developing the project and making regular commits"
    case RelativelyNew => "Repository is relatively new"
    case EstablishedHistory => "Repository has established history"
    case OpenIssues(count) => "Large number of open issues (" + NatToString(count) + ")"
    case CommunityEngagement(details) => "Community engagement: " + JoinComma(details)
  }

  /** The "N stars", "N forks", "N watchers" parts, for the non-zero counts only. */
  function EngagementDetails(stars: nat, forks: nat, watchers: nat): (d: seq<string>)
    ensures d == [] <==> stars == 0 && forks == 0 && watchers == 0
  {
    (if stars > 0 then [NatToString(stars) + " stars"] else [])
    + (if forks > 0 then [NatToString(forks) + " forks"] else [])
    + (if watchers > 0 then [NatToString(watchers) + " watchers"] else [])
  }

  // ---------------------------------------------------------------------------
  // Findings recorded by each section
  // ---------------------------------------------------------------------------

  /** Documentation: praise for a long README, a nudge for a short one, a warning when there is none. */
  function DocumentationFindings(score: real): (f: Findings)
    ensures ComprehensiveReadme in f.strengths <==> score == 1.0
    ensures ReadmeTooShort in f.areasForImprovement <==> score == 0.5
    ensures ExpandReadme in f.recommendations <==> score == 0.5
    ensures ReadmeMissing in f.areasForImprovement <==> score != 1.0 && score != 0.5
    ensures AddReadme in f.recommendations <==> score != 1.0 && score != 0.5
  {
    if score == 1.0 then Findings([ComprehensiveReadme], [], [])
    else if score == 0.5 then Findings([], [ReadmeTooShort], [ExpandReadme])
    else Findings([], [ReadmeMissing], [AddReadme])
  }

  /** Structure, dependency files: a strength when present, a recommendation when missing. */
  function RequirementsFindings(hasRequirements: bool): Findings {
    if hasRequirements then Findings([DependencyFilesPresent], [], [])
    else Findings([], [], [AddDependencyFiles])
  }

  /** Structure, `.gitignore`: a strength when present, nothing when missing. */
  function GitignoreFindings(hasGitignore: bool): Findings {
    if hasGitignore then Findings([GitignorePresent], [], []) else NoFindings
  }

  /** Structure, tests: a strength when present, a weakness and a recommendation when missing. */
  function TestsFindings(hasTests: bool): Findings {
    if hasTests then Findings([TestsPresent], [], [])
    else Findings([], [NoTests], [AddTests])
  }

  /** Structure: the three checks in order, each recording its own findings. */
  function StructureFindings(hasRequirements: bool, hasGitignore: bool, hasTests: bool): (f: Findings)
    ensures DependencyFilesPresent in f.strengths <==> hasRequirements
    ensures AddDependencyFiles in f.recommendations <==> !hasRequirements
    ensures GitignorePresent in f.strengths <==> hasGitignore
    ensures TestsPresent in f.strengths <==> hasTests
    ensures NoTests in f.areasForImprovement <==> !hasTests
    ensures AddTests in f.recommendations <==> !hasTests
  {
    RequirementsFindings(hasRequirements).Then(GitignoreFindings(hasGitignore)).Then(TestsFindings(hasTests))
  }

  /** Engagement: the non-zero counts as a strength; a low score asks for promotion. */
  function EngagementFindings(stars: nat, forks: nat, watchers: nat, score: real): (f: Findings)
    ensures CommunityEngagement(EngagementDetails(stars, forks, watchers)) in f.strengths <==>
              stars > 0 || forks > 0 || watchers > 0
    ensures MoreEngagement in f.areasForImprovement <==> score < 0.3
    ensures PromoteRepository in f.recommendations <==> score < 0.3
  {
    var details := EngagementDetails(stars, forks, watchers);
    Findings(
      if details != [] then [CommunityEngagement(details)] else [],
      if score < 0.3 then [MoreEngagement] else [],
      if score < 0.3 then [PromoteRepository] else [])
  }

  /** Maintenance: exactly one finding, for the band the score falls in. */
  function MaintenanceFindings(score: real): (f: Findings)
    ensures |f.strengths| + |f.areasForImprovement| == 1 && f.recommendations == []
    ensures HighlyActive in f.strengths <==> score >= 0.8
    ensures RegularMaintenance in f.strengths <==> 0.5 <= score < 0.8
    ensures MoreFrequentUpdates in f.areasForImprovement <==> 0.3 <= score < 0.5
    ensures Unmaintained in f.areasForImprovement <==> score < 0.3
  {
    if score >= 0.8 then Findings([HighlyActive], [], [])
    else if score >= 0.5 then Findings([RegularMaintenance], [], [])
    else if score >= 0.3 then Findings([], [MoreFrequentUpdates], [])
    else Findings([], [Unmaintained], [])
  }

  /** Issues: only the last band is reported, with the count. */
  function IssuesFindings(openIssues: nat): (f: Findings)
    ensures f.strengths == [] && f.recommendations == []
    ensures OpenIssues(openIssues) in f.areasForImprovement <==> openIssues >= 50
  {
    Findings([], if openIssues >= 50 then [OpenIssues(openIssues)] else [], [])
  }

  /** Maturity: a new repository is told to keep committing; an old one has an established history. */
  function MaturityFindings(repoAgeDays: int): (f: Findings)
    ensures VeryNew in f.areasForImprovement <==> repoAgeDays <= 7
    ensures KeepCommitting in f.recommendations <==> repoAgeDays <= 7
    ensures RelativelyNew in f.areasForImprovement <==> 7 < repoAgeDays <= 30
    ensures EstablishedHistory in f.strengths <==> repoAgeDays > 30
  {
    if repoAgeDays <= 7 then Findings([], [VeryNew], [KeepCommitting])
    else if repoAgeDays <= 30 then Findings([], [RelativelyNew], [])
    else Findings([EstablishedHistory], [], [])
  }

  // ---------------------------------------------------------------------------
  // The whole report, declaratively
  // ---------------------------------------------------------------------------

  /** The six component scores for a repository observed at time `now`. */
  function ComponentsFor(info: RepoInfo, files: seq<Analyzer.FileContent>, now: int): (c: Components)
    ensures c.InUnitRange()
  {
    var ageDays := DaysBetween(info.createdAt, now);
    var frequency := CommitFrequency(info.totalCommits.GetOr(0), ageDays);
    Components(
      DocumentationScore(files),
      StructureScore(HasRequirements(files), HasGitignore(files), HasTests(files)),
      EngagementScore(EngagementSum(info.stars, info.forks, info.watchersCount.GetOr(0),
        |info.collaborators.GetOr([])|, |info.tags.GetOr([])|, frequency)),
      MaintenanceScore(frequency, DaysBetween(info.lastUpdated, now)),
      IssuesScore(info.openIssuesCount),
      MaturityScore(ageDays))
  }

  /** The findings of the six sections, in section order. */
  function FindingsFor(info: RepoInfo, files: seq<Analyzer.FileContent>, now: int): Findings {
    var c := ComponentsFor(info, files, now);
    Concatenated(
      DocumentationFindings(c.documentation),
      StructureFindings(HasRequirements(files), HasGitignore(files), HasTests(files)),
      EngagementFindings(info.stars, info.forks, info.watchersCount.GetOr(0), c.engagement),
      MaintenanceFindings(c.maintenance),
      IssuesFindings(info.openIssuesCount),
      MaturityFindings(DaysBetween(info.createdAt, now)))
  }

  /** The findings of all six sections, in section order, after the initially empty lists. */
  function Concatenated(d: Findings, s: Findings, e: Findings, mt: Findings, i: Findings, mr: Findings): Findings {
    NoFindings.Then(d).Then(s).Then(e).Then(mt).Then(i).Then(mr)
  }

  /** The one of six section findings that belongs to section `c`. */
  function SectionPart(d: Findings, s: Findings, e: Findings, mt: Findings, i: Findings, mr: Findings, c: Component): Findings {
    match c
    case Documentation => d
    case Structure => s
    case Engagement => e
    case Maintenance => mt
    case Issues => i
    case Maturity => mr
  }

  /** A finding kept within its section's findings is not among another section's. */
  lemma NotInOtherSection(f: Findings, c: Component, x: Finding)
    requires f.Within(c) && SectionOf(x) != c
    ensures x !in f.strengths && x !in f.areasForImprovement && x !in f.recommendations
  {
  }

  /**
   * When each section records only its own findings, the concatenation holds
   * a finding exactly when the finding's own section holds it.
   */
  lemma {:induction false} FromOwnSection(d: Findings, s: Findings, e: Findings, mt: Findings, i: Findings, mr: Findings, x: Finding)
    requires d.Within(Documentation) && s.Within(Structure) && e.Within(Engagement)
    requires mt.Within(Maintenance) && i.Within(Issues) && mr.Within(Maturity)
    ensures var f := Concatenated(d, s, e, mt, i, mr);
            var own := SectionPart(d, s, e, mt, i, mr, SectionOf(x));
            && (x in f.strengths <==> x in own.strengths)
            && (x in f.areasForImprovement <==> x in own.areasForImprovement)
            && (x in f.recommendations <==> x in own.recommendations)
  {
    var c := SectionOf(x);
    if c != Documentation { NotInOtherSection(d, Documentation, x); }
    if c != Structure { NotInOtherSection(s, Structure, x); }
    if c != Engagement { NotInOtherSection(e, Engagement, x); }
    if c != Maintenance { NotInOtherSection(mt, Maintenance, x); }
    if c != Issues { NotInOtherSection(i, Issues, x); }
    if c != Maturity { NotInOtherSection(mr, Maturity, x); }
  }

  /** Each section records only findings of its own. */
  lemma DocumentationWithin(score: real)
    ensures DocumentationFindings(score).Within(Documentation)
  {
  }

  /** Findings of one section, followed by more of the same section, stay within it. */
  lemma ThenWithin(first: Findings, later: Findings, c: Component)
    requires first.Within(c) && later.Within(c)
    ensures first.Then(later).Within(c)
  {
  }

  lemma StructureWithin(hasRequirements: bool, hasGitignore: bool, hasTests: bool)
    ensures StructureFindings(hasRequirements, hasGitignore, hasTests).Within(Structure)
  {
    var requirements := RequirementsFindings(hasRequirements);
    var gitignore := GitignoreFindings(hasGitignore);
    var tests := TestsFindings(hasTests);
    assert requirements.Within(Structure) && gitignore.Within(Structure) && tests.Within(Structure);
    ThenWithin(requirements, gitignore, Structure);
    ThenWithin(requirements.Then(gitignore), tests, Structure);
  }

  lemma EngagementWithin(stars: nat, forks: nat, watchers: nat, score: real)
    ensures EngagementFindings(stars, forks, watchers, score).Within(Engagement)
  {
  }

  lemma MaintenanceWithin(score: real)
    ensures MaintenanceFindings(score).Within(Maintenance)
  {
  }

  lemma IssuesWithin(openIssues: nat)
    ensures IssuesFindings(openIssues).Within(Issues)
  {
  }

  lemma MaturityWithin(repoAgeDays: int)
    ensures MaturityFindings(repoAgeDays).Within(Maturity)
  {
  }

  /**
   * The report lists a finding exactly when the finding's own section
   * recorded it, whatever each section measured.
   */
  lemma ReportFindings(
    documentation: real, hasRequirements: bool, hasGitignore: bool, hasTests: bool,
    stars: nat, forks: nat, watchers: nat, engagement: real, maintenance: real, openIssues: nat, repoAgeDays: int,
    x: Finding)
    ensures var d := DocumentationFindings(documentation);
            var s := StructureFindings(hasRequirements, hasGitignore, hasTests);
            var e := EngagementFindings(stars, forks, watchers, engagement);
            var mt := MaintenanceFindings(maintenance);
            var i := IssuesFindings(openIssues);
            var mr := MaturityFindings(repoAgeDays);
            var f := Concatenated(d, s, e, mt, i, mr);
            var own := SectionPart(d, s, e, mt, i, mr, SectionOf(x));
            && (x in f.strengths <==> x in own.strengths)
            && (x in f.areasForImprovement <==> x in own.areasForImprovement)
            && (x in f.recommendations <==> x in own.recommendations)
  {
    DocumentationWithin(documentation);
    StructureWithin(hasRequirements, hasGitignore, hasTests);
    EngagementWithin(stars, forks, watchers, engagement);
    MaintenanceWithin(maintenance);
    IssuesWithin(openIssues);
    MaturityWithin(repoAgeDays);
    FromOwnSection(
      DocumentationFindings(documentation),
      StructureFindings(hasRequirements, hasGitignore, hasTests),
      EngagementFindings(stars, forks, watchers, engagement),
      MaintenanceFindings(maintenance),
      IssuesFindings(openIssues),
      MaturityFindings(repoAgeDays),
      x);
  }

  // ---------------------------------------------------------------------------
  // `generate_metrics`, section by section
  // ---------------------------------------------------------------------------

  /** Documentation: the first README file and its length. */
  method DocumentationSection(files: seq<Analyzer.FileContent>) returns (score: real, found: Findings)
    ensures score == DocumentationScore(files)
    ensures found == DocumentationFindings(score)
  {
    found := NoFindings;
    var readmeFiles := ReadmeFiles(files);
    if |readmeFiles| > 0 {
      var readmeLength := |readmeFiles[0].content|;
      if readmeLength > 500 {
        score := 1.0;
        found := found.(strengths := found.strengths + [ComprehensiveReadme]);
      } else {
        score := 0.5;
        found := found.(areasForImprovement := found.areasForImprovement + [ReadmeTooShort]);
        found := found.(recommendations := found.recommendations + [ExpandReadme]);
      }
    } else {
      score := 0.0;
      found := found.(areasForImprovement := found.areasForImprovement + [ReadmeMissing]);
      found := found.(recommendations := found.recommendations + [AddReadme]);
    }
  }

  /** Project structure: dependency files, `.gitignore` and tests, accumulated into one score. */
  method StructureSection(hasRequirements: bool, hasGitignore: bool, hasTests: bool) returns (score: real, found: Findings)
    ensures score == StructureScore(hasRequirements, hasGitignore, hasTests)
    ensures found == StructureFindings(hasRequirements, hasGitignore, hasTests)
  {
    found := NoFindings;
    score := 0.0;
    if hasRequirements {
      score := score + 0.4;
      found := found.(strengths := found.strengths + [DependencyFilesPresent]);
    } else {
      found := found.(recommendations := found.recommendations + [AddDependencyFiles]);
    }
    assert found == RequirementsFindings(hasRequirements);
    if hasGitignore {
      score := score + 0.3;
      found := found.(strengths := found.strengths + [GitignorePresent]);
    }
    assert found == RequirementsFindings(hasRequirements).Then(GitignoreFindings(hasGitignore));
    if hasTests {
      score := score + 0.3;
      found := found.(strengths := found.strengths + [TestsPresent]);
    } else {
      found := found.(areasForImprovement := found.areasForImprovement + [NoTests]);
      found := found.(recommendations := found.recommendations + [AddTests]);
    }
  }

  /** Community engagement: six capped factors, their capped and rounded sum, and its findings. */
  method EngagementSection(stars: nat, forks: nat, watchers: nat, collaborators: nat, tags: nat, commitFrequency: real)
    returns (score: real, found: Findings)
    requires 0.0 <= commitFrequency
    ensures score == EngagementScore(EngagementSum(stars, forks, watchers, collaborators, tags, commitFrequency))
    ensures found == EngagementFindings(stars, forks, watchers, score)
  {
    found := NoFindings;
    score := EngagementScore(EngagementSum(stars, forks, watchers, collaborators, tags, commitFrequency));
    var details := EngagementDetails(stars, forks, watchers);
    if details != [] {
      found := found.(strengths := found.strengths + [CommunityEngagement(details)]);
    }
    if score < 0.3 {
      found := found.(areasForImprovement := found.areasForImprovement + [MoreEngagement]);
      found := found.(recommendations := found.recommendations + [PromoteRepository]);
    }
  }

  /** Maintenance: a commit frequency tier plus a recency tier, and one finding for the band it falls in. */
  method MaintenanceSection(commitFrequency: real, daysSinceUpdate: int) returns (score: real, found: Findings)
    ensures score == MaintenanceScore(commitFrequency, daysSinceUpdate)
    ensures found == MaintenanceFindings(score)
  {
    found := NoFindings;
    var frequencyScore;
    if commitFrequency >= 10.0 {
      frequencyScore := 0.6;
    } else if commitFrequency >= 4.0 {
      frequencyScore := 0.4;
    } else if commitFrequency >= 1.0 {
      frequencyScore := 0.2;
    } else {
      frequencyScore := 0.1;
    }
    var recencyScore;
    if daysSinceUpdate < 7 {
      recencyScore := 0.4;
    } else if daysSinceUpdate < 30 {
      recencyScore := 0.3;
    } else if daysSinceUpdate < 90 {
      recencyScore := 0.2;
    } else {
      recencyScore := 0.0;
    }
    score := frequencyScore + recencyScore;
    if score >= 0.8 {
      found := found.(strengths := found.strengths + [HighlyActive]);
    } else if score >= 0.5 {
      found := found.(strengths := found.strengths + [RegularMaintenance]);
    } else if score >= 0.3 {
      found := found.(areasForImprovement := found.areasForImprovement + [MoreFrequentUpdates]);
    } else {
      found := found.(areasForImprovement := found.areasForImprovement + [Unmaintained]);
    }
  }

  /** Issues: four bands of open issue counts. */
  method IssuesSection(openIssues: nat) returns (score: real, found: Findings)
    ensures score == IssuesScore(openIssues)
    ensures found == IssuesFindings(openIssues)
  {
    found := NoFindings;
    if openIssues == 0 {
      score := 1.0;
    } else if openIssues < 10 {
      score := 0.8;
    } else if openIssues < 50 {
      score := 0.6;
    } else {
      score := 0.4;
      found := found.(areasForImprovement := found.areasForImprovement + [OpenIssues(openIssues)]);
    }
  }

  /** Maturity: three bands of repository age. */
  method MaturitySection(repoAgeDays: int) returns (score: real, found: Findings)
    ensures score == MaturityScore(repoAgeDays)
    ensures found == MaturityFindings(repoAgeDays)
  {
    found := NoFindings;
    if repoAgeDays <= 7 {
      score := 0.2;
      found := found.(areasForImprovement := found.areasForImprovement + [VeryNew]);
      found := found.(recommendations := found.recommendations + [KeepCommitting]);
    } else if repoAgeDays <= 30 {
      score := 0.6;
      found := found.(areasForImprovement := found.areasForImprovement + [RelativelyNew]);
    } else {
      score := 1.0;
      found := found.(strengths := found.strengths + [EstablishedHistory]);
    }
  }

  /**
   * The six sections of `generate_metrics` in order, each filling its key of
   * `score_components` and appending its findings.
   */
  method ScoreSections(info: RepoInfo, files: seq<Analyzer.FileContent>, now: int)
    returns (components: Components, findings: Findings)
    ensures components == ComponentsFor(info, files, now)
    ensures findings == FindingsFor(info, files, now)
  {
    components := Components(0.0, 0.0, 0.0, 0.0, 0.0, 0.0);
    findings := NoFindings;

    var documentationScore, documentationFindings := DocumentationSection(files);
    components := components.(documentation := documentationScore);
    findings := findings.Then(documentationFindings);

    var hasRequirements := HasRequirements(files);
    var hasGitignore := HasGitignore(files);
    var hasTests := HasTests(files);
    var structureScore, structureFindings := StructureSection(hasRequirements, hasGitignore, hasTests);
    components := components.(structure := structureScore);
    findings := findings.Then(structureFindings);

    var repoAgeDays := DaysBetween(info.createdAt, now);
    var daysSinceUpdate := DaysBetween(info.lastUpdated, now);
    var totalCommits := info.totalCommits.GetOr(0);
    var commitFrequency := 0.0;
    if repoAgeDays >= 1 {
      commitFrequency := (totalCommits * 30) as real / repoAgeDays as real;
    }
    assert commitFrequency == CommitFrequency(totalCommits, repoAgeDays);

    var engagementScore, engagementFindings := EngagementSection(
      info.stars, info.forks, info.watchersCount.GetOr(0), |info.collaborators.GetOr([])|,
      |info.tags.GetOr([])|, commitFrequency);
    components := components.(engagement := engagementScore);
    findings := findings.Then(engagementFindings);

    var maintenanceScore, maintenanceFindings := MaintenanceSection(commitFrequency, daysSinceUpdate);
    components := components.(maintenance := maintenanceScore);
    findings := findings.Then(maintenanceFindings);

    var issuesScore, issuesFindings := IssuesSection(info.openIssuesCount);
    components := components.(issues := issuesScore);
    findings := findings.Then(issuesFindings);

    var maturityScore, maturityFindings := MaturitySection(repoAgeDays);
    components := components.(maturity := maturityScore);
    findings := findings.Then(maturityFindings);

    assert components == Components(documentationScore, structureScore, engagementScore,
                                    maintenanceScore, issuesScore, maturityScore);
    assert components == ComponentsFor(info, files, now);
    assert findings == Concatenated(documentationFindings, structureFindings, engagementFindings,
                                    maintenanceFindings, issuesFindings, maturityFindings);
  }

  /** The rating word, by the thresholds 4.5, 3.5, 2.5 and 1.5 in turn. */
  method RateScore(normalizedScore: real) returns (rating: Rating)
    ensures rating == RatingFor(normalizedScore)
  {
    if normalizedScore >= 4.5 {
      rating := Excellent;
    } else if normalizedScore >= 3.5 {
      rating := Good;
    } else if normalizedScore >= 2.5 {
      rating := Average;
    } else if normalizedScore >= 1.5 {
      rating := Poor;
    } else {
      rating := Bad;
    }
  }

  /**
   * `generate_metrics`: the sections, then the total out of 6 brought to a
   * score out of 5, rounded to one decimal, and the rating word for it.
   */
  method GenerateMetrics(info: RepoInfo, files: seq<Analyzer.FileContent>, now: int) returns (m: MetricsResult)
    ensures m.components == ComponentsFor(info, files, now)
    ensures m.findings == FindingsFor(info, files, now)
    ensures m.normalizedScore == NormalizedScore(m.components)
    ensures 0.0 <= m.normalizedScore <= 5.0
    ensures m.rating == RatingFor(m.normalizedScore)
  {
    var components, findings := ScoreSections(info, files, now);
    NormalizedWithinRange(components);
    var normalizedScore := NormalizedScore(components);
    var rating := RateScore(normalizedScore);
    m := MetricsResult(components, findings, normalizedScore, rating);
  }
}

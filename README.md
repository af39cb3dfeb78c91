# gitanalyze: repository scoring and plagiarism risk

This project models the core of gitanalyze, a web application that analyses a
GitHub repository. The model covers five parts of it.

- **Analyzer** (`analyzer.dfy`): the pure part of the back end's analysis.
  It splits a repository URL into owner and name. It walks the first five
  entries of the repository listing to collect small files
  (`get_repository_files`). It shapes what GitHub and OpenAI returned into
  the stored analysis record.
- **AnalysisCache** (`analysis_cache.dfy`): the table of stored analyses, as
  a class whose `rows` field the routes update.
  - `/api/analyze` answers from the table when the URL is known and raises
    that row's access count.
  - Otherwise it analyses the repository and stores the result with access
    count 1.
  - `/api/stats` counts the rows and lists the five most accessed.
- **Metrics** (`metrics.dfy`): `generate_metrics`. It computes six
  sub-scores in [0, 1] (documentation, structure, engagement, maintenance,
  issues, maturity) and collects the strengths, weaknesses and
  recommendations recorded along the way. The total becomes a score out of
  5, rounded to one decimal, and then a rating word. The computation is an
  imperative method, section by section. Each section is proved equal to a
  specification function, and the properties are proved about those
  functions.
- **PlagiarismDetector** (`plagiarism_detector.dfy`): the front end's
  plagiarism risk scorer.
  - Commit flags: too few commits, a short commit span, low message variety.
  - A contributor flag: a large codebase with few contributors.
  - A quality flag: a high variance of the AI quality scores.
  - A weighted risk score with its level.
  - Deduplicated recommendations, and the report.

  The analyses are methods that push flags as the JavaScript does, including
  JavaScript's `NaN` and `Infinity` on division by zero. They are proved
  against declarative functions that use integer thresholds and the
  earliest and latest commit dates.
- **ScoreBadge** (`score_badge.dfy`): the rating badge. A rating word becomes
  a star value, the star value becomes a row of five stars, and the word
  picks a badge style.

`wrappers.dfy` holds `Option`, `Result`, `Min` and `Take`, which is Python's
and JavaScript's slice to a prefix. `real_arith.dfy` holds the small
inequalities about real multiplication and division that the other proofs
use.

Two behaviours of the code are worth stating:

- **No contributors.** With an empty contributor list the JavaScript
  computes `totalCode / 0`. That is `Infinity` when there is code, so the
  contributor flag is raised; it is `NaN` when there is none, so the flag is
  not raised. There is no guard against division by zero.
  `PlagiarismDetector.NoContributorsFlaggedByAnyCode` states this.
- **Fewer than two commits.** The commit analysis returns right after the
  "very few commits" flag. The message-variety check is therefore skipped
  as well.

The contracts also record what the code implies about its own design.

- **High risk is unreachable.** At most four flags can be raised, and they
  weigh at most 4.2 together. The score therefore never exceeds 63, the
  100 cap never applies, and the level is never "High".
- **The quality flag needs a spread.** Quality scores that all lie on a
  scale of width 1 never raise the quality flag: their variance is at most
  1/4.

## Model

| member | source | states |
|---|---|---|
| Analyzer.RStrip | backend/app.py:106 | `rstrip('/')` returns a prefix of the URL that does not end in `/`, and only `/` characters were removed |
| Analyzer.Split | backend/app.py:106 | `split('/')` gives at least one piece, no piece contains `/`, and joining the pieces with `/` gives back the string |
| Analyzer.SplitJoin | backend/app.py:106 | splitting a joined sequence of `/`-free pieces gives back the pieces |
| Analyzer.OwnerAndRepo | backend/app.py:105-108 | fails with Python's index error exactly when the stripped URL has no `/`; otherwise owner and name are `/`-free and the name is non-empty |
| Analyzer.TrailingSlashIrrelevant | backend/app.py:106 | a trailing slash never changes the extracted owner and name |
| Analyzer.OwnerAndRepoOfUrl | backend/app.py:105-108 | for any URL `base/owner/repo` with `/`-free parts, the extraction gives back `owner` and `repo` |
| Analyzer.OwnerAndRepoOfPath | backend/app.py:105-108 | a bare `owner/repo` with `/`-free parts also gives back `owner` and `repo` |
| Analyzer.OwnerAndRepoEndsUrl | backend/app.py:105-108 | conversely, a successful extraction returns the last two pieces: the stripped URL ends with `owner/repo`, either as the whole URL or right after a `/` |
| Analyzer.SummarizeCommits | backend/app.py:140-143 | one summary per commit, in order, each holding the commit's first 7 hash characters, its message and its author date |
| Analyzer.ShapeCommitActivity | backend/app.py:138-144 | the total is the number of fetched commits; the recent list holds the first five, in order, each hash cut to at most 7 characters and a prefix of the full hash |
| Analyzer.ShapeContributors | backend/app.py:145-147 | one `{login, contributions}` entry per fetched contributor, in order |
| Analyzer.AnalyzeRepository | backend/app.py:105-150 | succeeds exactly when the URL has an owner part, the GitHub requests succeeded and the review parsed; a URL without an owner part fails before any request; on success the record carries the shaped commits, the contributors, the languages, the shaped repository object and the review |
| Analyzer.ShapeRepository | backend/app.py:128-136 | the `repository` object copies name, description, star, fork and open-issue counts, creation date and last update from GitHub's repository object, field for field |
| Analyzer.Selected | backend/app.py:91-100 | the walk keeps no more files than it visits, and each kept content is at most 1000 characters |
| Analyzer.SelectedIsPrefixOfKept | backend/app.py:91-103 | the files gathered are a prefix of the eligible fetched entries in listing order, and all of them when no fetch raises |
| Analyzer.KeptFromEligible | backend/app.py:92-97 | every kept file comes from a listing entry of type `file` of at most 1,000,000 bytes, with the same path |
| Analyzer.SelectedStep | backend/app.py:91-100 | one step of the walk: a skipped entry adds nothing, a failed fetch ends the walk with what was gathered, a fetched file is appended |
| Analyzer.GetRepositoryFiles | backend/app.py:86-103 | the loop returns no files when the listing request raised; otherwise it returns the files selected from the first five entries; at most 5 files, each content at most 1000 characters |
| AnalysisCache.Status | backend/app.py:168-214 | the reply has status 200 exactly for a cached or a fresh analysis |
| AnalysisCache.FindRow | backend/app.py:182 | `filter_by(...).first()`: the index of the first row with the URL, and `None` exactly when no row has it |
| AnalysisCache.ByAccessDesc | backend/app.py:219 | ordering the rows by access count keeps their number |
| AnalysisCache.InsertByAccessSorted | backend/app.py:219 | inserting into rows ordered by descending access count keeps them ordered |
| AnalysisCache.ByAccessDescSorted | backend/app.py:219 | `order_by(access_count.desc())` gives rows in non-increasing access-count order |
| AnalysisCache.InsertByAccessAdds | backend/app.py:219 | insertion adds exactly the one row, as a multiset |
| AnalysisCache.ByAccessDescPermutes | backend/app.py:219 | the ordering is a permutation of the table's rows |
| AnalysisCache.MostAccessed | backend/app.py:219 | `.limit(5)`: `min(5, n)` rows in non-increasing access-count order |
| AnalysisCache.MostAccessedFromRows | backend/app.py:219 | every listed row is a row of the table |
| AnalysisCache.MostAccessedRanked | backend/app.py:219 | the listed rows are a sub-multiset of the table, and no row left out has a higher access count than any listed row |
| AnalysisCache.Popular | backend/app.py:223-227 | one `{repo_url, access_count, last_accessed}` entry per row, in order; `last_accessed` is the row's creation time |
| AnalysisCache.AnalysisTable.constructor | backend/app.py:43-50 | an empty table, which satisfies the invariant: unique URLs and access counts of at least 1 |
| AnalysisCache.AnalysisTable.Analyze | backend/app.py:168-214 | keeps the invariant. An unauthorised request or a missing URL leaves the table unchanged. A known URL has only its row's count raised by one and its stored analysis returned. An unknown URL appends one row with count 1 on success, or leaves the table unchanged and returns the error |
| AnalysisCache.AnalysisTable.GetStats | backend/app.py:216-228 | the total is the row count; at most five entries in non-increasing access-count order, each built from a row of the table; the entries are distinct rows of the table (a sub-multiset), and no row left off the list was opened more often than any listed one |
| AnalysisCache.PopularFromRows | backend/app.py:219-228 | every entry of the statistics list is built from a stored row |
| AnalysisCache.PopularRanked | backend/app.py:219 | the listed rows are a sub-multiset of the table and outrank, by access count, every row left off the list |
| Metrics.Lower | backend/metrics.py:24 | `lower()` on ASCII: same length, and only `A`-`Z` are shifted to lower case |
| Metrics.NatToString | backend/metrics.py:105 | the decimal text of a count is non-empty, made of digits only, without a leading zero, and denotes the count |
| Metrics.RoundHalfEven | backend/metrics.py:100 | the integer chosen is within 1/2 of the value, strictly nearest unless the value lies halfway, and even when it lies halfway |
| Metrics.RoundTo | backend/metrics.py:100 | `round(x, n)` is within half a unit of the last kept decimal from `x` |
| Metrics.RoundToWithin | backend/metrics.py:178 | rounding a value within `[0, steps/scale]` stays within that range |
| Metrics.DaysBetween | backend/metrics.py:79-80 | `timedelta.days`: the number of whole days between two instants, rounded down |
| Metrics.ReadmeFiles | backend/metrics.py:24 | only files whose lower-cased path is `readme.md`, and at least one when such a file exists |
| Metrics.FirstReadme | backend/metrics.py:24-28 | the first README chosen is the first file of the listing whose lower-cased path is `readme.md` |
| Metrics.DocumentationScore | backend/metrics.py:23-40 | 1 exactly for a first README longer than 500 characters, 0.5 exactly for a shorter one, 0 exactly when there is none |
| Metrics.StructureScore | backend/metrics.py:47-63 | in [0, 1]; 1 exactly when all three checks pass, 0 exactly when none does |
| Metrics.CommitFrequency | backend/metrics.py:83-87 | commits per 30 days: 0 for a repository less than a day old, otherwise frequency times age equals 30 times the commit count |
| Metrics.EngagementSum | backend/metrics.py:90-99 | the six capped factors sum to a value in [0, 1] |
| Metrics.EngagementScore | backend/metrics.py:100 | the capped, rounded engagement score stays in [0, 1] |
| Metrics.MaintenanceScore | backend/metrics.py:118-136 | the frequency tier plus the recency tier lies in [0.1, 1] |
| Metrics.MaintenanceNonIncreasingInAge | backend/metrics.py:127-134 | a longer time since the last update never raises the maintenance score |
| Metrics.MaintenanceNonDecreasingInFrequency | backend/metrics.py:118-125 | a higher commit frequency never lowers the maintenance score |
| Metrics.IssuesScore | backend/metrics.py:149-158 | in [0.4, 1]; 1 exactly with no open issues, 0.8 exactly for 1 to 9, 0.6 exactly for 10 to 49, 0.4 exactly from 50 open issues |
| Metrics.IssuesNonIncreasing | backend/metrics.py:149-158 | more open issues never raise the issues score |
| Metrics.MaturityScore | backend/metrics.py:163-171 | in [0.2, 1]; 1 exactly beyond 30 days, 0.6 exactly from 8 to 30 days, 0.2 exactly up to 7 days |
| Metrics.RatingFor | backend/metrics.py:180-189 | "Excellent" exactly from 4.5, "Good" exactly in [3.5, 4.5), "Average" exactly in [2.5, 3.5), "Poor" exactly in [1.5, 2.5), "Bad" exactly below 1.5 |
| Metrics.RatingMonotone | backend/metrics.py:180-189 | a higher score never gets a worse rating |
| Metrics.NormalizedWithinRange | backend/metrics.py:175-178 | six sub-scores in [0, 1] give a score out of 5 in [0, 5], before and after rounding |
| Metrics.EngagementDetails | backend/metrics.py:103-109 | the engagement details are empty exactly when stars, forks and watchers are all zero |
| Metrics.DocumentationFindings | backend/metrics.py:27-40 | each documentation finding is recorded exactly when its branch is taken |
| Metrics.StructureFindings | backend/metrics.py:48-63 | a strength per present item; "add dependency files" exactly when they are missing; "no tests" and "add tests" exactly when tests are missing |
| Metrics.EngagementFindings | backend/metrics.py:111-116 | the community strength exactly when some count is non-zero; the weakness and the recommendation exactly below 0.3 |
| Metrics.MaintenanceFindings | backend/metrics.py:138-145 | exactly one maintenance finding, chosen by the thresholds 0.8, 0.5 and 0.3 |
| Metrics.IssuesFindings | backend/metrics.py:157-159 | the open-issues weakness exactly from 50 open issues, and nothing else |
| Metrics.MaturityFindings | backend/metrics.py:163-172 | each maturity finding exactly in its age band |
| Metrics.ComponentsFor | backend/metrics.py:17-174 | all six sub-scores lie in [0, 1] |
| Metrics.NotInOtherSection | backend/metrics.py:21 | a finding of another section never appears among a section's findings |
| Metrics.FromOwnSection | backend/metrics.py:21-172 | a finding is in the concatenated lists exactly when it is in its own section's lists |
| Metrics.ThenWithin | backend/metrics.py:48-63 | appending findings of the same section keeps them within that section |
| Metrics.DocumentationWithin | backend/metrics.py:27-40 | the documentation branches record documentation findings only |
| Metrics.StructureWithin | backend/metrics.py:48-63 | the structure branches record structure findings only |
| Metrics.EngagementWithin | backend/metrics.py:111-116 | the engagement branches record engagement findings only |
| Metrics.MaintenanceWithin | backend/metrics.py:138-145 | the maintenance branches record maintenance findings only |
| Metrics.IssuesWithin | backend/metrics.py:157-159 | the issues branch records issues findings only |
| Metrics.MaturityWithin | backend/metrics.py:163-172 | the maturity branches record maturity findings only |
| Metrics.ReportFindings | backend/metrics.py:21-172 | in the final report each finding appears exactly when its own section recorded it |
| Metrics.DocumentationSection | backend/metrics.py:23-40 | the documentation section computes the documentation score and findings |
| Metrics.StructureSection | backend/metrics.py:42-65 | the structure section accumulates the structure score and findings |
| Metrics.EngagementSection | backend/metrics.py:89-116 | the engagement section computes the engagement score and findings |
| Metrics.MaintenanceSection | backend/metrics.py:118-147 | the maintenance section computes the maintenance score and findings |
| Metrics.IssuesSection | backend/metrics.py:149-161 | the issues section computes the issues score and findings |
| Metrics.MaturitySection | backend/metrics.py:163-174 | the maturity section computes the maturity score and findings |
| Metrics.ScoreSections | backend/metrics.py:17-174 | the six sections in order give the sub-scores and the findings of the specification |
| Metrics.RateScore | backend/metrics.py:180-189 | the rating follows the thresholds in turn |
| Metrics.GenerateMetrics | backend/metrics.py:17-189 | the components, findings, normalised score and rating of the specification; the normalised score lies in [0, 5] |
| PlagiarismDetector.JsDivide | frontend/src/PlagiarismDetector.jsx:67 | JavaScript division by a count: the quotient for a non-zero count; for a zero count, `NaN` exactly when the dividend is 0 |
| PlagiarismDetector.DateBounds | frontend/src/PlagiarismDetector.jsx:26-28 | every commit date lies between the earliest and the latest, and both are dates of some commit |
| PlagiarismDetector.CommitFlags | frontend/src/PlagiarismDetector.jsx:12-59 | fewer than two commits give the single "very few commits" flag; never more than two flags |
| PlagiarismDetector.CommitPatternBySpan | frontend/src/PlagiarismDetector.jsx:26-56 | with two or more commits: the high timing flag exactly for a span of at most 2 days; the medium one exactly for a span over 2 and at most 7 days; the variety flag exactly when fewer than 3 in 10 messages are distinct; at most one `commit_pattern` flag, always first |
| PlagiarismDetector.SameCommitsSameBounds | frontend/src/PlagiarismDetector.jsx:26-49 | the same commits in any order have the same earliest and latest dates and the same messages |
| PlagiarismDetector.CommitFlagsIgnoreOrder | frontend/src/PlagiarismDetector.jsx:12-59 | the commit flags do not depend on the order of the commits |
| PlagiarismDetector.SortByDate | frontend/src/PlagiarismDetector.jsx:26 | the sorted copy has as many commits as the original |
| PlagiarismDetector.InsertByDateSorted | frontend/src/PlagiarismDetector.jsx:26 | inserting into a date-sorted sequence keeps it sorted |
| PlagiarismDetector.SortByDateSorted | frontend/src/PlagiarismDetector.jsx:26 | the sorted copy is sorted by date |
| PlagiarismDetector.InsertByDateAdds | frontend/src/PlagiarismDetector.jsx:26 | insertion adds exactly the one commit, as a multiset |
| PlagiarismDetector.SortByDatePermutes | frontend/src/PlagiarismDetector.jsx:26 | the sorted copy is a permutation of the commits |
| PlagiarismDetector.SortedEnds | frontend/src/PlagiarismDetector.jsx:26-28 | the first and last commits of the sorted copy carry the earliest and the latest dates |
| PlagiarismDetector.SpanInDays | frontend/src/PlagiarismDetector.jsx:31-39 | comparing the span in days with 2 and 7 is comparing the span in milliseconds with 2 and 7 days |
| PlagiarismDetector.RatioBelowThreshold | frontend/src/PlagiarismDetector.jsx:50 | a distinct-message ratio below 0.3 means exactly fewer than 3 distinct messages in every 10 |
| PlagiarismDetector.AnalyzeCommitPatterns | frontend/src/PlagiarismDetector.jsx:12-59 | the method's pushes give exactly the commit flags of the specification |
| PlagiarismDetector.ContributorFlags | frontend/src/PlagiarismDetector.jsx:69-75 | the contributor analysis raises the ratio flag or nothing |
| PlagiarismDetector.NoContributorsFlaggedByAnyCode | frontend/src/PlagiarismDetector.jsx:66-69 | with no contributors the flag is raised exactly when there is any code (`Infinity` exceeds the threshold, `NaN` does not) |
| PlagiarismDetector.PerContributorThreshold | frontend/src/PlagiarismDetector.jsx:67-69 | bytes per contributor above one million, in JavaScript division, means exactly more than one million bytes times the contributor count |
| PlagiarismDetector.AnalyzeContributorPatterns | frontend/src/PlagiarismDetector.jsx:62-78 | the method gives exactly the contributor flags of the specification |
| PlagiarismDetector.SquaredDeviationsNonNegative | frontend/src/PlagiarismDetector.jsx:89 | the sum of squared deviations is never negative |
| PlagiarismDetector.Variance | frontend/src/PlagiarismDetector.jsx:88-89 | the population variance is never negative |
| PlagiarismDetector.QualityFlags | frontend/src/PlagiarismDetector.jsx:83-98 | the quality flag or nothing; nothing when the breakdown is absent or empty |
| PlagiarismDetector.DeviationsBelowLine | frontend/src/PlagiarismDetector.jsx:89 | scores within `[lo, hi]` have squared deviations bounded by a line in their sum |
| PlagiarismDetector.DeviationsBoundedBySpread | frontend/src/PlagiarismDetector.jsx:88-89 | scores within `[lo, hi]` deviate from their mean by at most `(hi - lo)^2 / 4` each, on average |
| PlagiarismDetector.VarianceBoundedBySpread | frontend/src/PlagiarismDetector.jsx:88-89 | the variance of scores within an interval of width `w` is at most `w^2 / 4` |
| PlagiarismDetector.UnitScaleNeverInconsistent | frontend/src/PlagiarismDetector.jsx:86-91 | scores on a scale of width 1 never raise the quality flag |
| PlagiarismDetector.AnalyzeCodeQuality | frontend/src/PlagiarismDetector.jsx:81-101 | the method, with its JavaScript divisions, gives exactly the quality flags of the specification |
| PlagiarismDetector.FlagWeight | frontend/src/PlagiarismDetector.jsx:112-122 | each flag weighs between 0.3 and 2.0 |
| PlagiarismDetector.WeightedScore | frontend/src/PlagiarismDetector.jsx:119-123 | the weighted sum is never negative |
| PlagiarismDetector.WeightedScoreAppend | frontend/src/PlagiarismDetector.jsx:109-123 | the weighted sum of concatenated flags is the sum of the parts |
| PlagiarismDetector.RiskScore | frontend/src/PlagiarismDetector.jsx:126 | the score is in [0, 100], and 0 without flags |
| PlagiarismDetector.RiskLevelFor | frontend/src/PlagiarismDetector.jsx:130 | "High" exactly above 70, "Low" exactly at 40 or below |
| PlagiarismDetector.CommitWeightAtMost | frontend/src/PlagiarismDetector.jsx:12-59 | the commit flags weigh at most 2.6 |
| PlagiarismDetector.RiskScoreBounded | frontend/src/PlagiarismDetector.jsx:104-134 | at most four flags weighing at most 4.2; the score is the uncapped product and at most 63; the level is never "High" |
| PlagiarismDetector.FewCommitsScoreAtLeast30 | frontend/src/PlagiarismDetector.jsx:16-23 | fewer than two commits give a score of at least 30 |
| PlagiarismDetector.CalculateRiskScore | frontend/src/PlagiarismDetector.jsx:104-134 | the flags of the three analyses in order, their score and level; the score is at most 63 and the level is never "High" |
| PlagiarismDetector.Add | frontend/src/PlagiarismDetector.jsx:159-176 | `Set.add` keeps the earlier entries in place and contains the new one; it changes nothing when the entry is present |
| PlagiarismDetector.AddAllTwo | frontend/src/PlagiarismDetector.jsx:163-174 | adding two entries is adding one after the other |
| PlagiarismDetector.AddAllProperties | frontend/src/PlagiarismDetector.jsx:159-178 | adding keeps earlier entries in place, holds exactly the old and the new entries, and never repeats one |
| PlagiarismDetector.AddAllAppend | frontend/src/PlagiarismDetector.jsx:161-176 | adding two lists is adding one after the other |
| PlagiarismDetector.AddKindAddsAll | frontend/src/PlagiarismDetector.jsx:162-175 | each `switch` case adds exactly its flag kind's two recommendations, in order; `commit_messages` adds none |
| PlagiarismDetector.RecommendationsStep | frontend/src/PlagiarismDetector.jsx:161-176 | handling one more flag extends the recommendations of the flags handled so far |
| PlagiarismDetector.GenerateRecommendations | frontend/src/PlagiarismDetector.jsx:158-179 | the loop's set equals adding every flag's recommendations, in flag order, to an empty set; `RecommendationsDeduplicated` states what that set holds |
| PlagiarismDetector.RecommendationsOfFlags | frontend/src/PlagiarismDetector.jsx:161-176 | a recommendation is listed exactly when some flag's kind calls for it |
| PlagiarismDetector.RecommendationsOfPrefixKept | frontend/src/PlagiarismDetector.jsx:161-176 | the recommendations of the first flags are a prefix of the recommendations of all flags |
| PlagiarismDetector.RecommendationsDeduplicated | frontend/src/PlagiarismDetector.jsx:158-179 | the result has no duplicates, holds exactly the recommendations some flag calls for, and extends the result of every prefix of the flags |
| PlagiarismDetector.PrefixRecommendations | frontend/src/PlagiarismDetector.jsx:161-176 | the recommendations of the first flags, duplicates included, are a prefix of those of all flags |
| PlagiarismDetector.LanguageNames | frontend/src/PlagiarismDetector.jsx:151 | `Object.keys(languages)`: the language names, in order |
| PlagiarismDetector.GenerateReport | frontend/src/PlagiarismDetector.jsx:137-155 | the report carries the repository name, the risk assessment, the recommendations of its flags and the metadata |
| PlagiarismDetector.ExampleTwoDaysOneContributor | frontend/src/PlagiarismDetector.jsx:104-134 | two commits a day apart and one contributor with 2,000,000 bytes give the two-day and ratio flags, a score of 45 and the level "Medium" |
| ScoreBadge.NumericScore | frontend/src/ScoreBadge.jsx:5-14 | a known rating word gets a star value in [1, 4.5]: 4.5, 3.5, 2.5, 2 and 1 exactly for "Excellent", "Good", "Average", "Poor" and "Bad"; any other word gets exactly 0 |
| ScoreBadge.Ceil | frontend/src/ScoreBadge.jsx:23 | `Math.ceil`: the least integer not below the value |
| ScoreBadge.StarAt | frontend/src/ScoreBadge.jsx:21-23 | a star is filled exactly before index `floor(n)`, and half exactly at that index when `n` has a fractional part |
| ScoreBadge.Stars | frontend/src/ScoreBadge.jsx:17-21 | the row has five stars |
| ScoreBadge.StarsShape | frontend/src/ScoreBadge.jsx:16-23 | the filled stars form a prefix of length `floor(n)`, followed by one half star only for a fractional value |
| ScoreBadge.AtMostOneHalf | frontend/src/ScoreBadge.jsx:22-23 | a row holds at most one half star |
| ScoreBadge.StarCounts | frontend/src/ScoreBadge.jsx:17-23 | filled and half stars together number at most five |
| ScoreBadge.CountAll | frontend/src/ScoreBadge.jsx:21-39 | every star is filled, half or empty |
| ScoreBadge.StarCountTable | frontend/src/ScoreBadge.jsx:5-23 | filled and half stars per word: Excellent 4+1, Good 3+1, Average 2+1, Poor 2+0, Bad 1+0, any other word 0+0 |
| ScoreBadge.BadgeStyleFor | frontend/src/ScoreBadge.jsx:44-53 | a known word gets its own style; a name inherited from `Object.prototype` (`constructor`, `toString`, ...) finds a truthy member without `icon`, so exactly those words get no style; any other word gets the "Average" style although its star row is empty |

## Left out

- GitHub OAuth, the session, and every HTTP request to GitHub or OpenAI are
  left out. Their results are inputs: `Option` for a request that may raise,
  and `Result` for the review, whose content is not interpreted.
- The OpenAI prompt and `files_summary` are left out. They only build text
  for the external service.
- Base64 and UTF-8 decoding of file bodies, and JSON parsing, are left out.
  A file body arrives already decoded, or as `None` when decoding raised.
- The MD5 `repo_hash` is left out: rows are found by URL. The hash is a
  function of the URL, so the lookup is the same unless MD5 collides.
- Wall-clock timestamps are left out. `analyzed_at`, `created_at` and the
  current time in `generate_metrics` are parameters. The risk result's and
  the report's `timestamp` fields are omitted.
- Date parsing is left out. Commit dates are milliseconds since the epoch,
  as `new Date(...)` yields. The metrics dates are whole seconds, with
  `timedelta.days` as floor division by 86400.
- Floating point is modelled as exact real arithmetic. Python's `round` is
  exact ties-to-even, not IEEE-754 rounding of a binary value.
- Concurrency, database transactions and commit failures are left out.
- The `RepoAnalysis` rows' `id` and `repo_hash` columns are left out.
- A missing `ai_analysis` object is left out. The model always has one, and
  only its `score_breakdown` may be absent.
- `score_breakdown` is a sequence of numbers, the values of the JavaScript
  object in order.
- `[...commits].sort(...)` is modelled as a pure insertion sort that yields
  a sorted permutation. Which of several equal-date commits comes first is
  not modelled; only the first and last dates are used.
- Metrics.EngagementScore: only the range [0, 1] is stated, not the exact
  value after rounding to two decimals.
- Metrics.RoundTo: only the half-unit distance is stated. Ties-to-even is
  stated on `RoundHalfEven`, not carried through the scaling.
- The React rendering of the badge and the stars (class names, layout) is
  left out. Only the state of each star and the style chosen are modelled.

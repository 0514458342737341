# GitHub traffic report — Dafny model

A model of the aggregation and report assembly of `GitHubTrafficAnalyzer` in
`github_info.py`. The analyzer fetches five JSON documents from the GitHub REST API:
views, clones, referrers, popular paths and repository metadata. It aggregates the
daily views and clones into a traffic summary, builds a report dictionary and prints
the top five referrers and paths. The model takes the five fetch results as inputs
(`Option`, `None` for a failed request) and does the rest with pure functions.

- `wrappers.dfy` — `Option` (a fetch that may have failed) and `Result` (a call that may raise).
- `traffic.dfy` — `analyze_traffic_trends`: totals, exact daily averages, first-maximum
  peak days, the period length. It also models Python truthiness of a fetch result
  (`None` and `{}` are falsy).
- `reports.dfy` — `generate_report`. It has two versions. One is as written, with its
  two `AttributeError` crashes. The other is corrected and always yields a report.
- `display.dfy` — the top-5, 1-based numbering in `display_report`.

Lines 117 and 119-121 of `github_info.py` guard the metadata with `if repo_info`. When it is
falsy they fall back to the name `f"{self.owner}/{self.repo}"` and zero counters. Line 118
has no such guard. It calls `.get` on `repo_info` directly, so it raises when the metadata
fetch returned `None`. A failed metadata request therefore never reaches the fallback. The
fallback applies only when the fetch returns an empty object `{}`. The model follows the
code (`GenerateReportAsWritten`) and records the crash under Findings.

## Model

| member | source | states |
|---|---|---|
| `Traffic.Truthy` | github_info.py:69 | a traffic fetch result is truthy exactly when it is present and not the empty object `{}` |
| `Traffic.SeriesOf` | github_info.py:72-73 | the daily series is the payload's `views`/`clones` list, or `[]` when that key is absent |
| `Traffic.Total` | github_info.py:76-79 | the sum over a series is 0 for an empty series and at least every single day's value |
| `Traffic.TotalAppend` | github_info.py:76-79 | the total of two consecutive stretches of days is the sum of their totals |
| `Traffic.TotalAtMostDaysTimesBound` | github_info.py:76-79 | a series of n days whose daily values are at most b totals at most n·b |
| `Traffic.Average` | github_info.py:82-83 | the average times the number of days equals the total; it is 0 for zero days and never negative |
| `Traffic.AverageAtMost` | github_info.py:82-83 | an average of a total of at most days·b is at most b |
| `Traffic.PeakIndex` | github_info.py:86-87 | the chosen day is in range, has a count at least every day's count, and every earlier day has a strictly smaller count (first maximum, as Python's `max` with a key) |
| `Traffic.Peak` | github_info.py:86-87 | the peak is absent exactly for an empty series; otherwise it is an element of the series with maximal count and no earlier day has that count |
| `Traffic.PeakTieBreak` | github_info.py:86-87 | counts 5, 9, 3 peak at the second day, and a tie 9, 9 peaks at the first day |
| `Traffic.AnalyzeTrafficTrends` | github_info.py:67-99 | the summary is empty exactly when either fetch is `None` or `{}`; otherwise it has the four totals as sums, the averages as total/length, peaks that are the first maximal-count day of their series (absent only for an empty series), and a period equal to the views length |
| `Traffic.AverageAtMostPeak` | github_info.py:82-87 | the average daily views never exceed the peak day's count, and that count never exceeds the total |
| `Traffic.PeriodIgnoresClones` | github_info.py:98 | `analysis_period_days` is the views length whatever the clones fetch is |
| `Reports.RepoTruthy` | github_info.py:117-121 | a metadata fetch result is truthy exactly when it is present and not the empty object `{}` |
| `Reports.RepoInfoOf` | github_info.py:116-121 | for a present metadata object: when falsy, the name `owner/repo` and zero stars, forks and watchers; when truthy, `full_name` and each counter, or 0 if its key is missing; the description is `.get('description', 'No description')` in both cases |
| `Reports.Get` | github_info.py:117 | `.get(key)` yields a value exactly when the key is present and not `null` |
| `Reports.GetWithDefault` | github_info.py:118 | `.get(key, default)` yields the default only for an absent key, `null` for a `null` value, the value otherwise |
| `Reports.GenerateReportAsWritten` | github_info.py:101-132 | the call raises at line 118 exactly when the metadata fetch is `None`, and at line 130 exactly when the metadata is present, detailed mode is on, views are truthy and the clones fetch is `None` |
| `Reports.MetadataFailureCrashes` | github_info.py:118 | a failed metadata fetch always ends the call with an exception |
| `Reports.DetailedClonesFailureCrashes` | github_info.py:128-130 | with views truthy and clones failed, detailed mode raises and plain mode succeeds |
| `Reports.GenerateReport` | github_info.py:101-132 | falsy metadata gives the name `owner/repo` and zero stars, forks and watchers; truthy metadata gives `full_name` and each counter or 0 if its key is missing; the summary is the aggregation of the two traffic fetches; failed referrer and path fetches give `[]`; detailed extras exist exactly when `detailed` is set and views are truthy |
| `Reports.AsWrittenAgreesWhenItSucceeds` | github_info.py:115-130 | whenever the source does not raise, its report equals the corrected one |
| `Reports.AllFetchesFailed` | github_info.py:105-126 | with every fetch failed, the corrected report has the fallback name, zero counters, an empty summary, empty lists and no extras |
| `Display.Enumerate` | github_info.py:175 | each element is paired with its position counted from the start number, in order |
| `Display.TopFive` | github_info.py:175 | at most five entries, exactly min(5, n), the i-th being the source's i-th entry numbered i+1 |
| `Display.ReferralLines` | github_info.py:172-176 | the referral section shows exactly the first min(5, n) referrers in source order, the i-th numbered i+1, and nothing when there are none |
| `Display.PathLines` | github_info.py:179-185 | the paths section shows exactly the first min(5, n) paths in source order, the i-th numbered i+1, and nothing when there are none |
| `Display.TopFiveShowsPrefix` | github_info.py:175 | the k-th entry is shown, numbered k+1, exactly when k < 5 |

## Findings

| source | as written | input that shows it | evidently intended | confidence | as-written member | corrected member |
|---|---|---|---|---|---|---|
| github_info.py:118 | `repo_info.get('description', 'No description')` has no `if repo_info` guard | metadata fetch fails (`repo_info` is `None`): `AttributeError` | default description `'No description'`, like the guarded counters beside it | high; not executed | `Reports.MetadataFailureCrashes` | `Reports.GenerateReport` |
| github_info.py:130 | `clones_data.get('clones', [])` is guarded only by `views_data` | `detailed` set, views fetch succeeds, clones fetch fails: `AttributeError` | `detailed_clones` is `[]` | high; not executed | `Reports.DetailedClonesFailureCrashes` | `Reports.GenerateReport` |

## Left out

- HTTP transport (`_make_request`, the five `get_*` accessors): each fetch is an input; failed requests and their error messages are `None`.
- Header and URL strings built in `__init__`: assignment only.
- `Traffic.Average`: the result is the exact rational total/length; `round(_, 2)` is floating point and not modelled.
- Daily points, referrers and paths are records with all fields present, so the `KeyError` of `item['count']` on a malformed entry is not modelled.
- `Reports.GenerateReport`: the metadata counters are taken never to be JSON `null`. `.get('stargazers_count', 0)` on a `null` value would give `None`, not 0.
- A referrer or paths response that is a truthy non-list JSON value is not modelled; each is a list or `None`.
- All printing in `display_report`, apart from the top-5 selection. This covers the branding text, the `.get` defaults used for display, the `:,` and `:.1f` formatting, and the peak-day lines.
- `main`: argparse, the interactive `input()` mode, the timestamped file name and the `json.dump` write. These are CLI, I/O and wall-clock time.
- The unused `pandas` import.
- The progress message printed at the start of `generate_report` (line 103): output only.
- A `views` or `clones` key whose value is JSON `null` is not modelled. `.get` would then return `None` and the `sum` at line 76 would raise `TypeError`; the payload's `series` field only distinguishes a missing key from a list.
- The `detailed=False` default argument of `generate_report` is not modelled as a default; `detailed` is always an explicit input of `GenerateReport` and `GenerateReportAsWritten`.

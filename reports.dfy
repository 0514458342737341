/** The report assembly of `GitHubTrafficAnalyzer.generate_report`, with the five fetch
    results given as inputs instead of being requested over HTTP. */
module Reports {
  import opened Wrappers
  import opened Traffic

  /** One entry of `/traffic/popular/referrers`. */
  datatype Referrer = Referrer(referrer: string, count: nat, uniques: nat)

  /** One entry of `/traffic/popular/paths`. */
  datatype PopularPath = PopularPath(path: string, title: string, count: nat, uniques: nat)

  /** A JSON key read with `.get(key, default)`: absent, present with `null`, or present. */
  datatype JsonField<+T> = Missing | Null | Present(value: T)

  /** The JSON object of the repository root. `otherKeys` says whether it holds any key
      besides the five the report reads. */
  datatype RepoPayload = RepoPayload(
    fullName: JsonField<string>,
    description: JsonField<string>,
    stargazersCount: Option<nat>,
    forksCount: Option<nat>,
    watchersCount: Option<nat>,
    otherKeys: bool)

  /** Python truthiness of the metadata fetch result: `None` and `{}` are falsy. */
  predicate RepoTruthy(p: Option<RepoPayload>)
    ensures RepoTruthy(p) <==> p.Some? && p.value != RepoPayload(Missing, Missing, None, None, None, false)
  {
    p.Some? &&
    (p.value.fullName != Missing || p.value.description != Missing || p.value.stargazersCount.Some?
     || p.value.forksCount.Some? || p.value.watchersCount.Some? || p.value.otherKeys)
  }

  /** The five fetch results, in the order the source requests them. */
  datatype Fetches = Fetches(
    views: Option<TrafficPayload>,
    clones: Option<TrafficPayload>,
    referrals: Option<seq<Referrer>>,
    paths: Option<seq<PopularPath>>,
    repoInfo: Option<RepoPayload>)

  /** `repository_info`; a `None` name or description is JSON `null`. */
  datatype RepositoryInfo = RepositoryInfo(
    name: Option<string>,
    description: Option<string>,
    stars: nat,
    forks: nat,
    watchers: nat)

  /** The raw series added in detailed mode. */
  datatype Details = Details(detailedViews: Series, detailedClones: Series)

  datatype Report = Report(
    repositoryInfo: RepositoryInfo,
    trafficSummary: Summary,
    referralSources: seq<Referrer>,
    popularPaths: seq<PopularPath>,
    details: Option<Details>)

  /** The exception that ends `generate_report`: `AttributeError` raised by `.get` on
      `None`, at the given source line. */
  datatype Crash = NoneHasNoGet(line: nat)

  /** `dict.get(key)`: absent and `null` both read as `None`. */
  function Get(f: JsonField<string>): (r: Option<string>)
    ensures r.Some? <==> f.Present?
    ensures r.Some? ==> r.value == f.value
  {
    match f
    case Present(s) => Some(s)
    case _ => None
  }

  /** `dict.get(key, default)`: only an absent key reads as the default. */
  function GetWithDefault(f: JsonField<string>, default: string): (r: Option<string>)
    ensures f.Missing? ==> r == Some(default)
    ensures f.Null? ==> r == None
    ensures f.Present? ==> r == Some(f.value)
  {
    match f
    case Missing => Some(default)
    case Null => None
    case Present(s) => Some(s)
  }

  const NoDescription: string := "No description"

  /** `repository_info` with the metadata fetch present (possibly `{}`), as lines 117-121
      build it: falsy metadata gives the fallback name and zero counters, while the
      description is read from the payload in every case. */
  function RepoInfoOf(owner: string, repo: string, p: RepoPayload): (r: RepositoryInfo)
    ensures !RepoTruthy(Some(p)) ==>
      r.name == Some(owner + "/" + repo) && r.stars == 0 && r.forks == 0 && r.watchers == 0
    ensures RepoTruthy(Some(p)) ==>
      && r.name == Get(p.fullName)
      && (p.stargazersCount.None? ==> r.stars == 0)
      && (p.stargazersCount.Some? ==> r.stars == p.stargazersCount.value)
      && (p.forksCount.None? ==> r.forks == 0)
      && (p.forksCount.Some? ==> r.forks == p.forksCount.value)
      && (p.watchersCount.None? ==> r.watchers == 0)
      && (p.watchersCount.Some? ==> r.watchers == p.watchersCount.value)
    ensures r.description == GetWithDefault(p.description, NoDescription)
    ensures p.description.Missing? ==> r.description == Some(NoDescription)
  {
    var truthy := RepoTruthy(Some(p));
    RepositoryInfo(
      if truthy then Get(p.fullName) else Some(owner + "/" + repo),
      GetWithDefault(p.description, NoDescription),
      if truthy then p.stargazersCount.GetOr(0) else 0,
      if truthy then p.forksCount.GetOr(0) else 0,
      if truthy then p.watchersCount.GetOr(0) else 0)
  }

  /** `generate_report(detailed)` as written: `.get` is called on the metadata fetch
      without a guard (line 118) and on the clones fetch in detailed mode (line 130),
      so either being `None` ends the call with an exception. */
  function GenerateReportAsWritten(owner: string, repo: string, f: Fetches, detailed: bool): (r: Result<Report, Crash>)
    ensures r == Err(NoneHasNoGet(118)) <==> f.repoInfo.None?
    ensures r == Err(NoneHasNoGet(130)) <==> f.repoInfo.Some? && detailed && Truthy(f.views) && f.clones.None?
    ensures r.Err? ==> r.error.line == 118 || r.error.line == 130
  {
    if f.repoInfo.None? then Err(NoneHasNoGet(118))
    else
      var info := RepoInfoOf(owner, repo, f.repoInfo.value);
      var base := Report(info, AnalyzeTrafficTrends(f.views, f.clones),
                         f.referrals.GetOr([]), f.paths.GetOr([]), None);
      if detailed && Truthy(f.views) then
        if f.clones.None? then Err(NoneHasNoGet(130))
        else Ok(base.(details := Some(Details(SeriesOf(f.views.value), SeriesOf(f.clones.value)))))
      else Ok(base)
  }

  /** Line 118 crashes whenever the metadata fetch failed, so a failed metadata
      request never yields a report with the fallback name. */
  lemma MetadataFailureCrashes(owner: string, repo: string, f: Fetches, detailed: bool)
    requires f.repoInfo.None?
    ensures GenerateReportAsWritten(owner, repo, f, detailed).Err?
  {
  }

  /** Line 130 crashes in detailed mode when the views fetch succeeded and the
      clones fetch failed. */
  lemma DetailedClonesFailureCrashes(owner: string, repo: string, f: Fetches)
    requires f.repoInfo.Some? && Truthy(f.views) && f.clones.None?
    ensures GenerateReportAsWritten(owner, repo, f, true) == Err(NoneHasNoGet(130))
    ensures GenerateReportAsWritten(owner, repo, f, false).Ok?
  {
  }

  /** `generate_report(detailed)` with the `if repo_info` guard applied to the description
      too and `[]` taken for a missing clones fetch: it always yields a report. */
  function GenerateReport(owner: string, repo: string, f: Fetches, detailed: bool): (r: Report)
    // repository_info: fallback name and zero counters unless the metadata is truthy
    ensures !RepoTruthy(f.repoInfo) ==>
      r.repositoryInfo.name == Some(owner + "/" + repo)
      && r.repositoryInfo.stars == 0 && r.repositoryInfo.forks == 0 && r.repositoryInfo.watchers == 0
    ensures f.repoInfo.None? ==> r.repositoryInfo.description == Some(NoDescription)
    ensures RepoTruthy(f.repoInfo) ==>
      var p := f.repoInfo.value;
      && r.repositoryInfo.name == Get(p.fullName)
      && (p.stargazersCount.None? ==> r.repositoryInfo.stars == 0)
      && (p.stargazersCount.Some? ==> r.repositoryInfo.stars == p.stargazersCount.value)
      && (p.forksCount.None? ==> r.repositoryInfo.forks == 0)
      && (p.forksCount.Some? ==> r.repositoryInfo.forks == p.forksCount.value)
      && (p.watchersCount.None? ==> r.repositoryInfo.watchers == 0)
      && (p.watchersCount.Some? ==> r.repositoryInfo.watchers == p.watchersCount.value)
    ensures f.repoInfo.Some? ==> r.repositoryInfo.description == GetWithDefault(f.repoInfo.value.description, NoDescription)
    // the summary is the aggregation of the two traffic fetches
    ensures r.trafficSummary == AnalyzeTrafficTrends(f.views, f.clones)
    // missing lists become []
    ensures f.referrals.None? ==> r.referralSources == []
    ensures f.referrals.Some? ==> r.referralSources == f.referrals.value
    ensures f.paths.None? ==> r.popularPaths == []
    ensures f.paths.Some? ==> r.popularPaths == f.paths.value
    // the detailed extras appear exactly in detailed mode with truthy views
    ensures r.details.Some? <==> detailed && Truthy(f.views)
    ensures r.details.Some? ==>
      r.details.value.detailedViews == SeriesOf(f.views.value)
      && (f.clones.Some? ==> r.details.value.detailedClones == SeriesOf(f.clones.value))
      && (f.clones.None? ==> r.details.value.detailedClones == [])
  {
    var info := if f.repoInfo.None?
      then RepositoryInfo(Some(owner + "/" + repo), Some(NoDescription), 0, 0, 0)
      else RepoInfoOf(owner, repo, f.repoInfo.value);
    var details := if detailed && Truthy(f.views)
      then Some(Details(SeriesOf(f.views.value), if f.clones.Some? then SeriesOf(f.clones.value) else []))
      else None;
    Report(info, AnalyzeTrafficTrends(f.views, f.clones), f.referrals.GetOr([]), f.paths.GetOr([]), details)
  }

  /** The corrected assembly changes nothing where the source does not crash. */
  lemma AsWrittenAgreesWhenItSucceeds(owner: string, repo: string, f: Fetches, detailed: bool)
    requires GenerateReportAsWritten(owner, repo, f, detailed).Ok?
    ensures GenerateReportAsWritten(owner, repo, f, detailed).value == GenerateReport(owner, repo, f, detailed)
  {
  }

  /** With every fetch failed the corrected report is the fallback name, zero counters,
      an empty summary and empty lists, in either mode. */
  lemma AllFetchesFailed(owner: string, repo: string, detailed: bool)
    ensures GenerateReport(owner, repo, Fetches(None, None, None, None, None), detailed)
      == Report(RepositoryInfo(Some(owner + "/" + repo), Some(NoDescription), 0, 0, 0), EmptySummary, [], [], None)
  {
  }
}

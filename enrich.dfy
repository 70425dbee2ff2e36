/** Best-effort enrichment: the three Amplify SDK lookups that sit inside one `try` block
    of the handler, and the three locals they overwrite. */
module Enrich {
  import opened Js

  /** The outcome of one SDK call: it threw, or it resolved to a response. */
  datatype Lookup<T> = Fail | Ok(response: T)

  /** GetApp's response, reduced to `appResponse.app?.name`. */
  datatype AppResponse = AppResponse(name: JsValue)

  /** ListDomainAssociations' response, reduced to the `domainName` of each association;
      `associations` is None when the response has no `domainAssociations` field. */
  datatype DomainsResponse = DomainsResponse(associations: Option<seq<JsValue>>)

  /** GetJob's response, reduced to `job?.summary?.commitMessage` and `job?.commitMessage`. */
  datatype JobResponse = JobResponse(summaryCommitMessage: JsValue, commitMessage: JsValue)

  /** An SDK request the handler sends. */
  datatype Request =
    | GetApp(appId: JsValue)
    | ListDomainAssociations(appId: JsValue)
    | GetJob(appId: JsValue, branchName: JsValue, jobId: JsValue)

  /** The three locals `appName`, `domainName` and `commitMessage`. */
  datatype Metadata = Metadata(appName: JsValue, domainName: JsValue, commitMessage: JsValue)

  /** The values the locals are declared with. */
  function Defaults(appId: JsValue): Metadata {
    Metadata(appId, Null, Null)
  }

  /** `appResponse.app?.name || appId` */
  function AppNameOf(r: AppResponse, appId: JsValue): JsValue {
    Or(r.name, appId)
  }

  /** The first association's domain name, or None when there is no non-empty association list. */
  function FirstDomain(r: DomainsResponse): Option<JsValue> {
    match r.associations
    case Some(list) => if |list| > 0 then Some(list[0]) else None
    case None => None
  }

  /** `job?.summary?.commitMessage || job?.commitMessage` */
  function CommitOf(r: JobResponse): JsValue {
    Or(r.summaryCommitMessage, r.commitMessage)
  }

  /** The requests the `try` block would send if none of them threw, in order;
      the job lookup is sent only for a truthy `jobId`. */
  function Plan(appId: JsValue, branchName: JsValue, jobId: JsValue): (p: seq<Request>)
    ensures |p| == if Truthy(jobId) then 3 else 2
    ensures p[0] == GetApp(appId) && p[1] == ListDomainAssociations(appId)
    ensures Truthy(jobId) ==> p[2] == GetJob(appId, branchName, jobId)
  {
    [GetApp(appId), ListDomainAssociations(appId)]
      + (if Truthy(jobId) then [GetJob(appId, branchName, jobId)] else [])
  }

  /** How many planned lookups resolved before the first one threw. */
  function Completed(jobId: JsValue, app: Lookup<AppResponse>, domains: Lookup<DomainsResponse>,
                     job: Lookup<JobResponse>): (k: nat)
    ensures k <= if Truthy(jobId) then 3 else 2
  {
    if app.Fail? then 0
    else if domains.Fail? then 1
    else if Truthy(jobId) && job.Fail? then 2
    else if Truthy(jobId) then 3
    else 2
  }

  /** Reference definition of the enrichment as a prefix cut: the i-th lookup's value is
      kept exactly when the first i lookups all resolved; every later local keeps its default. */
  function Enrichment(appId: JsValue, jobId: JsValue, app: Lookup<AppResponse>,
                      domains: Lookup<DomainsResponse>, job: Lookup<JobResponse>): Metadata
  {
    var k := Completed(jobId, app, domains, job);
    var d := Defaults(appId);
    Metadata(
      if k >= 1 then AppNameOf(app.response, appId) else d.appName,
      if k >= 2 && FirstDomain(domains.response).Some? then FirstDomain(domains.response).value
      else d.domainName,
      if k >= 3 then CommitOf(job.response) else d.commitMessage)
  }

  /** The requests actually sent: the plan up to and including the first one that threw. */
  function Requests(appId: JsValue, branchName: JsValue, jobId: JsValue, app: Lookup<AppResponse>,
                    domains: Lookup<DomainsResponse>, job: Lookup<JobResponse>): seq<Request>
  {
    var plan := Plan(appId, branchName, jobId);
    var k := Completed(jobId, app, domains, job);
    if k < |plan| then plan[..k + 1] else plan
  }

  /** The `try` block: the locals start at their defaults and are overwritten in the order
      app, domains, job; the first lookup that throws abandons the rest of the block. */
  method EnrichMetadata(appId: JsValue, branchName: JsValue, jobId: JsValue, app: Lookup<AppResponse>,
                domains: Lookup<DomainsResponse>, job: Lookup<JobResponse>)
    returns (meta: Metadata, requests: seq<Request>)
    ensures meta == Enrichment(appId, jobId, app, domains, job)
    ensures requests == Requests(appId, branchName, jobId, app, domains, job)
  {
    var appName := appId;
    var domainName := Null;
    var commitMessage := Null;
    requests := [];

    requests := requests + [GetApp(appId)];
    if app.Fail? {
      meta := Metadata(appName, domainName, commitMessage);
      return;
    }
    appName := AppNameOf(app.response, appId);

    requests := requests + [ListDomainAssociations(appId)];
    if domains.Fail? {
      meta := Metadata(appName, domainName, commitMessage);
      return;
    }
    var first := FirstDomain(domains.response);
    if first.Some? {
      domainName := first.value;
    }

    if Truthy(jobId) {
      requests := requests + [GetJob(appId, branchName, jobId)];
      if job.Fail? {
        meta := Metadata(appName, domainName, commitMessage);
        return;
      }
      commitMessage := CommitOf(job.response);
    }
    meta := Metadata(appName, domainName, commitMessage);
  }

  /** Requests stop at the first lookup that throws: the trace is a non-empty prefix of the plan,
      every request before its last one resolved, its last one threw exactly when some planned
      lookup throws, and when none does the trace is the whole plan. */
  lemma RequestsStopAtFirstFailure(appId: JsValue, branchName: JsValue, jobId: JsValue,
                                   app: Lookup<AppResponse>, domains: Lookup<DomainsResponse>,
                                   job: Lookup<JobResponse>)
    ensures var plan := Plan(appId, branchName, jobId);
      var rs := Requests(appId, branchName, jobId, app, domains, job);
      && 0 < |rs| <= |plan| && rs == plan[..|rs|]
      && (forall i :: 0 <= i < |rs| - 1 ==> !Failed(rs[i], app, domains, job))
      && (Failed(rs[|rs| - 1], app, domains, job) <==> exists i :: 0 <= i < |plan| && Failed(plan[i], app, domains, job))
      && (!Failed(rs[|rs| - 1], app, domains, job) ==> rs == plan)
  {
  }

  /** Whether the given request is one whose lookup threw. */
  predicate Failed(r: Request, app: Lookup<AppResponse>, domains: Lookup<DomainsResponse>,
                   job: Lookup<JobResponse>) {
    match r
    case GetApp(_) => app.Fail?
    case ListDomainAssociations(_) => domains.Fail?
    case GetJob(_, _, _) => job.Fail?
  }

  /** A lookup that throws hides every later lookup: what they would have returned has no effect. */
  lemma EarlierFailureHidesLaterLookups(appId: JsValue, jobId: JsValue, app: Lookup<AppResponse>,
                                        domains: Lookup<DomainsResponse>, domains': Lookup<DomainsResponse>,
                                        job: Lookup<JobResponse>, job': Lookup<JobResponse>)
    ensures app.Fail? ==> Enrichment(appId, jobId, app, domains, job) == Defaults(appId)
    ensures app.Fail? ==> Enrichment(appId, jobId, app, domains, job) == Enrichment(appId, jobId, app, domains', job')
    ensures domains.Fail? ==> Enrichment(appId, jobId, app, domains, job) == Enrichment(appId, jobId, app, domains, job')
  {
  }

  /** Values obtained before a failure are kept: a later lookup throwing changes only the locals
      from that step on, which stay at their defaults. */
  lemma EarlierValuesKept(appId: JsValue, jobId: JsValue, app: Lookup<AppResponse>,
                          domains: Lookup<DomainsResponse>, job: Lookup<JobResponse>)
    requires app.Ok?
    ensures Enrichment(appId, jobId, app, Fail, job) == Metadata(AppNameOf(app.response, appId), Null, Null)
    ensures domains.Ok? ==>
      var m := Enrichment(appId, jobId, app, domains, job);
      Enrichment(appId, jobId, app, domains, Fail) == Metadata(m.appName, m.domainName, Null)
  {
  }

  /** The lookups are not isolated from each other: a failing app lookup discards a domain and a
      commit message that the later lookups would have delivered. */
  lemma LookupsAreNotIsolated()
    ensures var m := Enrichment(Str("app1"), Str("1"), Fail,
                                Ok(DomainsResponse(Some([Str("my.app.com")]))),
                                Ok(JobResponse(Str("Fix bug"), Undefined)));
      m == Metadata(Str("app1"), Null, Null)
  {
  }

  /** With every lookup resolved, each local takes its lookup's value with the source's fallbacks. */
  lemma ResolvedLookups(appId: JsValue, jobId: JsValue, a: AppResponse, d: DomainsResponse, j: JobResponse)
    ensures var m := Enrichment(appId, jobId, Ok(a), Ok(d), Ok(j));
      && m.appName == (if Truthy(a.name) then a.name else appId)
      && (m.domainName == if d.associations.Some? && |d.associations.value| > 0
                          then d.associations.value[0] else Null)
      && m.commitMessage == (if !Truthy(jobId) then Null
                             else if Truthy(j.summaryCommitMessage) then j.summaryCommitMessage
                             else j.commitMessage)
  {
  }

  /** The app name is never blank when the event carries an app id, whatever the lookups do. */
  lemma AppNameNeverBlank(appId: JsValue, jobId: JsValue, app: Lookup<AppResponse>,
                          domains: Lookup<DomainsResponse>, job: Lookup<JobResponse>)
    requires Truthy(appId)
    ensures Truthy(Enrichment(appId, jobId, app, domains, job).appName)
  {
  }

  /** Without a truthy job id there is no job lookup and no commit message. */
  lemma NoJobIdNoJobLookup(appId: JsValue, branchName: JsValue, jobId: JsValue, app: Lookup<AppResponse>,
                           domains: Lookup<DomainsResponse>, job: Lookup<JobResponse>)
    requires !Truthy(jobId)
    ensures Enrichment(appId, jobId, app, domains, job).commitMessage == Null
    ensures forall r :: r in Requests(appId, branchName, jobId, app, domains, job) ==> !r.GetJob?
  {
  }
}

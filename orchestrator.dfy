/** `main` of routes/api/strapi.js: the provisioning sequence for one
    project. It runs five blocks of ledger writes and step calls; after
    each block it checks the blocks' step results in a fixed order and
    returns the first one that reports an error. When every check passes it
    starts the three completion pollers and answers ACCEPTED. */
module Orchestrator {
  import opened Values
  import opened HealthCodes
  import opened Ledger
  import opened Retry
  import opened Database
  import opened Steps
  import opened Subdomain
  import opened Pollers

  /** The answers every remote call of one run receives. Retried calls get
      the answers of their successive attempts; the secret group's answers
      depend on the addon ids it is asked to link. */
  datatype Answers = Answers(
    project: ApiResult,
    job: nat -> ApiResult,
    service: nat -> ApiResult,
    postgresql: nat -> ApiResult,
    minio: nat -> ApiResult,
    subdomain: ApiResult,
    cloudflareSuccess: bool,
    secrets: SecretRequest -> nat -> ApiResult,
    postgresqlCredentials: ApiResult,
    minioCredentials: ApiResult)

  /** How `main` ends: the `{success, code: ACCEPTED, message: "Strapi
      created"}` answer, the first step result that reported an error, or
      a rejected promise when a step threw or its `error` could not be
      read. */
  datatype Launch = Accepted | Stopped(result: StepResult) | Aborted

  /** Whether `main` throws at the check of `r`: the awaited step itself
      threw, or it answered nothing (undefined or null), so that reading
      its `error` throws a TypeError. */
  predicate Throws(r: StepResult)
  {
    r.Crashed? || (r.Done? && r.data == Null)
  }

  /** Whether the run ends at the check of `r`. */
  predicate Halts(r: StepResult)
  {
    Throws(r) || HasError(r)
  }

  /** How the run ends at the check of a result that halts it. */
  function Ending(r: StepResult): (launch: Launch)
    ensures launch.Aborted? <==> Throws(r)
    ensures launch.Stopped? ==> launch.result == r && !Throws(r)
  {
    if Throws(r) then Aborted else Stopped(r)
  }

  /** A block of `main`: the writes it makes and the step results checked
      after it, in the order they are checked. */
  datatype Stage = Stage(writes: seq<Write>, checked: seq<StepResult>)

  /** The writes of a whole run and how it ends. */
  datatype Trace = Trace(writes: seq<Write>, launch: Launch)

  function Started(key: string): Write
  {
    Response(key, IN_PROGRESS, None)
  }

  // ---------------------------------------------------------------------
  // The five blocks

  function ProjectResult(ans: Answers): StepResult
  {
    CreationResult("Could not create project", ans.project)
  }

  function JobResult(ans: Answers): StepResult
  {
    CreationResult("Could not create job", RetriedAnswer(CallOptions, ans.job))
  }

  function ServiceResult(ans: Answers): StepResult
  {
    CreationResult("Could not create combined service", RetriedAnswer(CallOptions, ans.service))
  }

  function PostgresqlResult(ans: Answers): StepResult
  {
    CreationResult("Could not create PostgreSQL addon", RetriedAnswer(CallOptions, ans.postgresql))
  }

  function MinioResult(ans: Answers): StepResult
  {
    CreationResult("Could not create MinIO addon", RetriedAnswer(CallOptions, ans.minio))
  }

  /** `step.id` of a step result; an error object has no `id`. */
  function IdOf(r: StepResult): Json
  {
    if r.Done? then Get(r.data, "id") else Null
  }

  /** The answer of the secret group call, which links the ids the MinIO
      and PostgreSQL creations returned. */
  function SecretAnswer(ans: Answers): ApiResult
  {
    RetriedAnswer(CallOptions, ans.secrets(SecretRequest(IdOf(MinioResult(ans)), IdOf(PostgresqlResult(ans)))))
  }

  function SecretResult(ans: Answers): StepResult
  {
    CreationResult("Could not create secret group", SecretAnswer(ans))
  }

  function PostgresqlCredentialsResult(ans: Answers): StepResult
  {
    CreationResult("Could not fetch PostgreSQL credentials", ans.postgresqlCredentials)
  }

  function MinioCredentialsResult(ans: Answers): StepResult
  {
    CreationResult("Could not fetch MinIO credentials", ans.minioCredentials)
  }

  function ProjectStage(ans: Answers): Stage
  {
    Stage([Started("project")] + CreationWrites("project", SUCCESS, ans.project), [ProjectResult(ans)])
  }

  /** The four creations run, all of them, after their keys are marked;
      their results are checked job, service, PostgreSQL, MinIO. */
  function CreateStage(ans: Answers): Stage
  {
    Stage([Started("job"), Started("service"), Started("postgresql"), Started("minio")] +
          CreationWrites("job", SUCCESS, RetriedAnswer(CallOptions, ans.job)) +
          CreationWrites("service", IN_PROGRESS, RetriedAnswer(CallOptions, ans.service)) +
          CreationWrites("postgresql", DEPLOYING, RetriedAnswer(CallOptions, ans.postgresql)) +
          CreationWrites("minio", DEPLOYING, RetriedAnswer(CallOptions, ans.minio)),
          [JobResult(ans), ServiceResult(ans), PostgresqlResult(ans), MinioResult(ans)])
  }

  function DomainStage(ans: Answers): Stage
  {
    Stage([Started("domain")] + AddSubdomainWrites(ans.subdomain, ans.cloudflareSuccess),
          [AddSubdomainResult(ans.subdomain)])
  }

  function SecretStage(ans: Answers): Stage
  {
    Stage([Started("secrets")] + CreationWrites("secrets", SUCCESS, SecretAnswer(ans)), [SecretResult(ans)])
  }

  /** Both fetches run, PostgreSQL first; its result is checked first. */
  function FetchStage(ans: Answers): Stage
  {
    Stage([Started("fetchMinio"), Started("fetchPostgresql")] +
          FetchWrites("fetchPostgresql", "postgresqlConnectionDetails", ans.postgresqlCredentials) +
          FetchWrites("fetchMinio", "minioConnectionDetails", ans.minioCredentials),
          [PostgresqlCredentialsResult(ans), MinioCredentialsResult(ans)])
  }

  /** Block `k` of `main`. */
  function StageAt(ans: Answers, k: nat): Stage
    requires k < 5
  {
    if k == 0 then ProjectStage(ans)
    else if k == 1 then CreateStage(ans)
    else if k == 2 then DomainStage(ans)
    else if k == 3 then SecretStage(ans)
    else FetchStage(ans)
  }

  // ---------------------------------------------------------------------
  // Running the blocks

  /** The position of the first result that halts the run. */
  function FirstErrorIndex(rs: seq<StepResult>): (k: nat)
    ensures k <= |rs|
    ensures forall j :: 0 <= j < k ==> !Halts(rs[j])
    ensures k < |rs| ==> Halts(rs[k])
  {
    if rs == [] then 0
    else if Halts(rs[0]) then 0
    else 1 + FirstErrorIndex(rs[1..])
  }

  function FirstError(rs: seq<StepResult>): Option<StepResult>
  {
    var k := FirstErrorIndex(rs);
    if k < |rs| then Some(rs[k]) else None
  }

  /** A block followed by the run `rest`: the block's writes, then its
      first error ends the run, or else the run goes on with `rest`. */
  function Then(stage: Stage, rest: Trace): Trace
  {
    var e := FirstError(stage.checked);
    if e.Some? then Trace(stage.writes, Ending(e.value))
    else Trace(stage.writes + rest.writes, rest.launch)
  }

  /** The run from block `k` on: each block runs, and the first whose
      checks fail ends the run with its first error; after the last block
      the run answers ACCEPTED. */
  function RunFrom(ans: Answers, k: nat): Trace
    requires k <= 5
    decreases 5 - k
  {
    if k == 5 then Trace([], Accepted) else Then(StageAt(ans, k), RunFrom(ans, k + 1))
  }

  function MainTrace(ans: Answers): Trace
  {
    RunFrom(ans, 0)
  }

  /** Whether the checks of the first `k` blocks all pass. */
  predicate Passes(ans: Answers, k: nat)
    requires k <= 5
  {
    k == 0 || (Passes(ans, k - 1) && FirstError(StageAt(ans, k - 1).checked).None?)
  }

  // ---------------------------------------------------------------------
  // The blocks as methods

  method Start(ledger: Projects, name: string, key: string)
    modifies ledger
    ensures ledger.collection == ApplyWrites(old(ledger.collection), name, [Started(key)])
  {
    var _ := ledger.AddNewResponse(name, key, IN_PROGRESS, None);
    ApplyWritesOne(old(ledger.collection), name, Started(key));
  }

  lemma Chain(d0: seq<Project>, d1: seq<Project>, d2: seq<Project>, name: string, a: seq<Write>, b: seq<Write>)
    requires d1 == ApplyWrites(d0, name, a) && d2 == ApplyWrites(d1, name, b)
    ensures d2 == ApplyWrites(d0, name, a + b)
  {
    ApplyWritesConcat(d0, name, a, b);
  }

  method ProjectBlock(ledger: Projects, name: string, ans: Answers) returns (checked: seq<StepResult>)
    modifies ledger
    ensures ledger.collection == ApplyWrites(old(ledger.collection), name, StageAt(ans, 0).writes)
    ensures checked == StageAt(ans, 0).checked
  {
    Start(ledger, name, "project");
    ghost var d1 := ledger.collection;
    var project := CreateProject(ledger, name, ans.project);
    Chain(old(ledger.collection), d1, ledger.collection, name, [Started("project")], CreationWrites("project", SUCCESS, ans.project));
    checked := [project];
  }

  method MarkCreations(ledger: Projects, name: string)
    modifies ledger
    ensures ledger.collection ==
      ApplyWrites(old(ledger.collection), name, [Started("job"), Started("service"), Started("postgresql"), Started("minio")])
  {
    Start(ledger, name, "job");
    ghost var d1 := ledger.collection;
    Start(ledger, name, "service");
    ghost var d2 := ledger.collection;
    Chain(old(ledger.collection), d1, d2, name, [Started("job")], [Started("service")]);
    Start(ledger, name, "postgresql");
    ghost var d3 := ledger.collection;
    Chain(old(ledger.collection), d2, d3, name, [Started("job"), Started("service")], [Started("postgresql")]);
    Start(ledger, name, "minio");
    Chain(old(ledger.collection), d3, ledger.collection, name,
          [Started("job"), Started("service"), Started("postgresql")], [Started("minio")]);
    assert [Started("job"), Started("service"), Started("postgresql")] + [Started("minio")] ==
           [Started("job"), Started("service"), Started("postgresql"), Started("minio")];
  }

  method CreateBlock(ledger: Projects, name: string, ans: Answers) returns (checked: seq<StepResult>)
    modifies ledger
    ensures ledger.collection == ApplyWrites(old(ledger.collection), name, StageAt(ans, 1).writes)
    ensures checked == StageAt(ans, 1).checked
  {
    var marks := [Started("job"), Started("service"), Started("postgresql"), Started("minio")];
    var wJob := CreationWrites("job", SUCCESS, RetriedAnswer(CallOptions, ans.job));
    var wService := CreationWrites("service", IN_PROGRESS, RetriedAnswer(CallOptions, ans.service));
    var wPostgresql := CreationWrites("postgresql", DEPLOYING, RetriedAnswer(CallOptions, ans.postgresql));
    var wMinio := CreationWrites("minio", DEPLOYING, RetriedAnswer(CallOptions, ans.minio));
    MarkCreations(ledger, name);
    ghost var d1 := ledger.collection;
    var job := CreateManualJob(ledger, name, ans.job);
    ghost var d2 := ledger.collection;
    Chain(old(ledger.collection), d1, d2, name, marks, wJob);
    var combinedService := CreateCombinedService(ledger, name, ans.service);
    ghost var d3 := ledger.collection;
    Chain(old(ledger.collection), d2, d3, name, marks + wJob, wService);
    var postgresql := CreatePostgreSQL(ledger, name, ans.postgresql);
    ghost var d4 := ledger.collection;
    Chain(old(ledger.collection), d3, d4, name, marks + wJob + wService, wPostgresql);
    var minio := CreateMinIO(ledger, name, ans.minio);
    Chain(old(ledger.collection), d4, ledger.collection, name, marks + wJob + wService + wPostgresql, wMinio);
    checked := [job, combinedService, postgresql, minio];
  }

  /** The domain block: mark, look the project up, register its domain. */
  method DomainBlock(ledger: Projects, name: string, ans: Answers)
    returns (checked: seq<StepResult>, domainCheck: DomainVerification?)
    modifies ledger
    ensures ledger.collection == ApplyWrites(old(ledger.collection), name, StageAt(ans, 2).writes)
    ensures checked == StageAt(ans, 2).checked
    ensures (domainCheck != null) == Arms(ans.subdomain, ans.cloudflareSuccess)
    ensures domainCheck != null ==> fresh(domainCheck) && domainCheck.attempts == 0 && domainCheck.polling
  {
    Start(ledger, name, "domain");
    ghost var d1 := ledger.collection;
    // The stored domain only goes into the registration request.
    var project := ledger.FetchProject(name);
    var domain;
    domain, domainCheck := AddSubdomain(ledger, name, ans.subdomain, ans.cloudflareSuccess);
    Chain(old(ledger.collection), d1, ledger.collection, name, [Started("domain")], AddSubdomainWrites(ans.subdomain, ans.cloudflareSuccess));
    checked := [domain];
  }

  /** The secret group block; `minio` and `postgresql` are the creation
      results whose ids the group links. */
  method SecretBlock(ledger: Projects, name: string, ans: Answers, minio: StepResult, postgresql: StepResult)
    returns (checked: seq<StepResult>)
    requires minio == MinioResult(ans) && postgresql == PostgresqlResult(ans)
    modifies ledger
    ensures ledger.collection == ApplyWrites(old(ledger.collection), name, StageAt(ans, 3).writes)
    ensures checked == StageAt(ans, 3).checked
  {
    Start(ledger, name, "secrets");
    ghost var d1 := ledger.collection;
    var secretGroup := CreateSecretGroup(ledger, name, IdOf(minio), IdOf(postgresql), ans.secrets);
    Chain(old(ledger.collection), d1, ledger.collection, name, [Started("secrets")], CreationWrites("secrets", SUCCESS, SecretAnswer(ans)));
    checked := [secretGroup];
  }

  method FetchBlock(ledger: Projects, name: string, ans: Answers) returns (checked: seq<StepResult>)
    modifies ledger
    ensures ledger.collection == ApplyWrites(old(ledger.collection), name, StageAt(ans, 4).writes)
    ensures checked == StageAt(ans, 4).checked
  {
    var marks := [Started("fetchMinio"), Started("fetchPostgresql")];
    var wPostgresql := FetchWrites("fetchPostgresql", "postgresqlConnectionDetails", ans.postgresqlCredentials);
    var wMinio := FetchWrites("fetchMinio", "minioConnectionDetails", ans.minioCredentials);
    Start(ledger, name, "fetchMinio");
    ghost var d1 := ledger.collection;
    Start(ledger, name, "fetchPostgresql");
    ghost var d2 := ledger.collection;
    Chain(old(ledger.collection), d1, d2, name, [Started("fetchMinio")], [Started("fetchPostgresql")]);
    var postgresqlCredentials := FetchPostgresqlCredentials(ledger, name, ans.postgresqlCredentials);
    ghost var d3 := ledger.collection;
    Chain(old(ledger.collection), d2, d3, name, marks, wPostgresql);
    var minioCredentials := FetchMinioCredentials(ledger, name, ans.minioCredentials);
    Chain(old(ledger.collection), d3, ledger.collection, name, marks + wPostgresql, wMinio);
    checked := [postgresqlCredentials, minioCredentials];
    assert StageAt(ans, 4) == FetchStage(ans);
  }

  /** The error check after a block: the first result that throws or has
      `error` set. */
  method Check(checked: seq<StepResult>) returns (e: Option<StepResult>)
    ensures e == FirstError(checked)
    ensures e.Some? ==> Halts(e.value) && e.value in checked
    ensures e.None? ==> forall j :: 0 <= j < |checked| ==> !Halts(checked[j])
  {
    var i := 0;
    while i < |checked|
      invariant 0 <= i <= |checked|
      invariant forall j :: 0 <= j < i ==> !Halts(checked[j])
    {
      if Halts(checked[i]) {
        assert FirstErrorIndex(checked) == i by {
          FirstErrorAt(checked, i);
        }
        return Some(checked[i]);
      }
      i := i + 1;
    }
    FirstErrorAt(checked, i);
    return None;
  }

  lemma FirstErrorAt(rs: seq<StepResult>, i: nat)
    requires i <= |rs|
    requires forall j :: 0 <= j < i ==> !Halts(rs[j])
    requires i < |rs| ==> Halts(rs[i])
    ensures FirstErrorIndex(rs) == i
  {
  }

  /** The ledger holds `d0` with the writes `done`, and the whole run
      `main` is `done` followed by the run `run` still to come. */
  ghost predicate At(main: Trace, run: Trace, d0: seq<Project>, name: string, done: seq<Write>, docs: seq<Project>)
  {
    docs == ApplyWrites(d0, name, done) && main == Trace(done + run.writes, run.launch)
  }

  /** The ledger holds `d0` with the writes `done` of the first `k`
      blocks, whose checks all passed; the run goes on from block `k`. */
  ghost predicate Progress(ans: Answers, k: nat, d0: seq<Project>, name: string, done: seq<Write>, docs: seq<Project>)
    requires k <= 5
  {
    Passes(ans, k) && At(MainTrace(ans), RunFrom(ans, k), d0, name, done, docs)
  }

  /** The run ended with `error` and the ledger holds all of its writes. */
  ghost predicate Ended(ans: Answers, d0: seq<Project>, name: string, error: StepResult, docs: seq<Project>)
  {
    docs == ApplyWrites(d0, name, MainTrace(ans).writes) && MainTrace(ans).launch == Ending(error)
  }

  /** One block of a run, told without the blocks or the ledger: the run
      still to come is `stage` followed by `rest`. */
  lemma TraceStep(main: Trace, stage: Stage, rest: Trace, done: seq<Write>, e: Option<StepResult>)
    requires main == Trace(done + Then(stage, rest).writes, Then(stage, rest).launch)
    requires e == FirstError(stage.checked)
    ensures e.None? ==> main == Trace(done + stage.writes + rest.writes, rest.launch)
    ensures e.Some? ==> main == Trace(done + stage.writes, Ending(e.value))
  {
    assert done + (stage.writes + rest.writes) == done + stage.writes + rest.writes;
  }

  /** One block of a run: the run still to come is `stage` followed by
      `rest`, and the block has made its writes on `before`, giving `docs`. */
  lemma Advance(main: Trace, stage: Stage, rest: Trace, e: Option<StepResult>,
                d0: seq<Project>, name: string, done: seq<Write>, before: seq<Project>, docs: seq<Project>)
    requires At(main, Then(stage, rest), d0, name, done, before)
    requires docs == ApplyWrites(before, name, stage.writes)
    requires e == FirstError(stage.checked)
    ensures e.None? ==> At(main, rest, d0, name, done + stage.writes, docs)
    ensures e.Some? ==> docs == ApplyWrites(d0, name, main.writes) && main.launch == Ending(e.value)
  {
    TraceStep(main, stage, rest, done, e);
    Chain(d0, before, docs, name, done, stage.writes);
  }

  lemma Begin(ans: Answers, d0: seq<Project>, name: string)
    ensures Progress(ans, 0, d0, name, [], d0)
  {
    assert [] + MainTrace(ans).writes == MainTrace(ans).writes;
  }

  method ProjectPhase(ledger: Projects, name: string, ans: Answers, ghost d0: seq<Project>, ghost done: seq<Write>)
    returns (e: Option<StepResult>, ghost done': seq<Write>)
    requires Progress(ans, 0, d0, name, done, ledger.collection)
    modifies ledger
    ensures e.None? ==> Progress(ans, 1, d0, name, done', ledger.collection)
    ensures e.Some? ==> Ended(ans, d0, name, e.value, ledger.collection) && !Passes(ans, 1)
  {
    ghost var before := ledger.collection;
    var checked := ProjectBlock(ledger, name, ans);
    e := Check(checked);
    done' := done + StageAt(ans, 0).writes;
    Advance(MainTrace(ans), StageAt(ans, 0), RunFrom(ans, 1), e, d0, name, done, before, ledger.collection);
  }

  method CreatePhase(ledger: Projects, name: string, ans: Answers, ghost d0: seq<Project>, ghost done: seq<Write>)
    returns (e: Option<StepResult>, minio: StepResult, postgresql: StepResult, ghost done': seq<Write>)
    requires Progress(ans, 1, d0, name, done, ledger.collection)
    modifies ledger
    ensures e.None? ==> Progress(ans, 2, d0, name, done', ledger.collection)
    ensures e.Some? ==> Ended(ans, d0, name, e.value, ledger.collection) && !Passes(ans, 2)
    ensures minio == MinioResult(ans) && postgresql == PostgresqlResult(ans)
  {
    ghost var before := ledger.collection;
    var checked := CreateBlock(ledger, name, ans);
    minio, postgresql := checked[3], checked[2];
    e := Check(checked);
    done' := done + StageAt(ans, 1).writes;
    Advance(MainTrace(ans), StageAt(ans, 1), RunFrom(ans, 2), e, d0, name, done, before, ledger.collection);
  }

  method DomainPhase(ledger: Projects, name: string, ans: Answers, ghost d0: seq<Project>, ghost done: seq<Write>)
    returns (e: Option<StepResult>, domainCheck: DomainVerification?, ghost done': seq<Write>)
    requires Progress(ans, 2, d0, name, done, ledger.collection)
    modifies ledger
    ensures e.None? ==> Progress(ans, 3, d0, name, done', ledger.collection)
    ensures e.Some? ==> Ended(ans, d0, name, e.value, ledger.collection) && !Passes(ans, 3)
    ensures (domainCheck != null) == Arms(ans.subdomain, ans.cloudflareSuccess)
    ensures domainCheck != null ==> fresh(domainCheck) && domainCheck.attempts == 0 && domainCheck.polling
  {
    ghost var before := ledger.collection;
    var checked;
    checked, domainCheck := DomainBlock(ledger, name, ans);
    e := Check(checked);
    done' := done + StageAt(ans, 2).writes;
    Advance(MainTrace(ans), StageAt(ans, 2), RunFrom(ans, 3), e, d0, name, done, before, ledger.collection);
  }

  method SecretPhase(ledger: Projects, name: string, ans: Answers, minio: StepResult, postgresql: StepResult, ghost d0: seq<Project>, ghost done: seq<Write>)
    returns (e: Option<StepResult>, ghost done': seq<Write>)
    requires minio == MinioResult(ans) && postgresql == PostgresqlResult(ans)
    requires Progress(ans, 3, d0, name, done, ledger.collection)
    modifies ledger
    ensures e.None? ==> Progress(ans, 4, d0, name, done', ledger.collection)
    ensures e.Some? ==> Ended(ans, d0, name, e.value, ledger.collection) && !Passes(ans, 4)
  {
    ghost var before := ledger.collection;
    var checked := SecretBlock(ledger, name, ans, minio, postgresql);
    e := Check(checked);
    done' := done + StageAt(ans, 3).writes;
    Advance(MainTrace(ans), StageAt(ans, 3), RunFrom(ans, 4), e, d0, name, done, before, ledger.collection);
  }

  method FetchPhase(ledger: Projects, name: string, ans: Answers, ghost d0: seq<Project>, ghost done: seq<Write>)
    returns (e: Option<StepResult>, ghost done': seq<Write>)
    requires Progress(ans, 4, d0, name, done, ledger.collection)
    modifies ledger
    ensures e.None? ==> Progress(ans, 5, d0, name, done', ledger.collection)
    ensures e.Some? ==> Ended(ans, d0, name, e.value, ledger.collection) && !Passes(ans, 5)
  {
    ghost var before := ledger.collection;
    var checked := FetchBlock(ledger, name, ans);
    e := Check(checked);
    done' := done + StageAt(ans, 4).writes;
    Advance(MainTrace(ans), StageAt(ans, 4), RunFrom(ans, 5), e, d0, name, done, before, ledger.collection);
  }

  /** `main`. Returns how it ends and the pollers it started: the domain
      verification poller from `addSubdomain`, and the MinIO, PostgreSQL and
      service pollers, which start only when every check passed. */
  method Provision(ledger: Projects, name: string, ans: Answers)
    returns (r: Launch, domainCheck: DomainVerification?, minioCheck: Interval?, postgresqlCheck: Interval?, serviceCheck: Interval?)
    modifies ledger
    ensures ledger.collection == ApplyWrites(old(ledger.collection), name, MainTrace(ans).writes)
    ensures r == MainTrace(ans).launch
    ensures (domainCheck != null) == (Passes(ans, 2) && Arms(ans.subdomain, ans.cloudflareSuccess))
    ensures domainCheck != null ==> fresh(domainCheck) && domainCheck.attempts == 0 && domainCheck.polling
    ensures (minioCheck != null) == (postgresqlCheck != null) == (serviceCheck != null) == r.Accepted?
    ensures r.Accepted? ==> fresh(minioCheck) && fresh(postgresqlCheck) && fresh(serviceCheck) &&
                            minioCheck.active && postgresqlCheck.active && serviceCheck.active
  {
    ghost var d0 := ledger.collection;
    Begin(ans, d0, name);

    var e;
    ghost var done;
    e, done := ProjectPhase(ledger, name, ans, d0, []);
    if e.Some? {
      return Ending(e.value), null, null, null, null;
    }

    var minio, postgresql;
    e, minio, postgresql, done := CreatePhase(ledger, name, ans, d0, done);
    if e.Some? {
      return Ending(e.value), null, null, null, null;
    }

    r, domainCheck, minioCheck, postgresqlCheck, serviceCheck := ProvisionFromDomain(ledger, name, ans, minio, postgresql, d0, done);
  }

  /** The rest of `main` once the project and its resources exist: the
      domain, the secret group, the credential fetches, and the pollers. */
  method ProvisionFromDomain(ledger: Projects, name: string, ans: Answers, minio: StepResult, postgresql: StepResult,
                   ghost d0: seq<Project>, ghost done: seq<Write>)
    returns (r: Launch, domainCheck: DomainVerification?, minioCheck: Interval?, postgresqlCheck: Interval?, serviceCheck: Interval?)
    requires minio == MinioResult(ans) && postgresql == PostgresqlResult(ans)
    requires Progress(ans, 2, d0, name, done, ledger.collection)
    modifies ledger
    ensures ledger.collection == ApplyWrites(d0, name, MainTrace(ans).writes)
    ensures r == MainTrace(ans).launch
    ensures (domainCheck != null) == Arms(ans.subdomain, ans.cloudflareSuccess)
    ensures domainCheck != null ==> fresh(domainCheck) && domainCheck.attempts == 0 && domainCheck.polling
    ensures (minioCheck != null) == (postgresqlCheck != null) == (serviceCheck != null) == r.Accepted?
    ensures r.Accepted? ==> fresh(minioCheck) && fresh(postgresqlCheck) && fresh(serviceCheck) &&
                            minioCheck.active && postgresqlCheck.active && serviceCheck.active
  {
    var e;
    ghost var done';
    e, domainCheck, done' := DomainPhase(ledger, name, ans, d0, done);
    if e.Some? {
      return Ending(e.value), domainCheck, null, null, null;
    }
    r, minioCheck, postgresqlCheck, serviceCheck := ProvisionFromSecrets(ledger, name, ans, minio, postgresql, d0, done');
  }

  /** The rest of `main` once the domain block passed: the secret group,
      the credential fetches, and the three resource pollers. */
  method ProvisionFromSecrets(ledger: Projects, name: string, ans: Answers, minio: StepResult, postgresql: StepResult,
                   ghost d0: seq<Project>, ghost done: seq<Write>)
    returns (r: Launch, minioCheck: Interval?, postgresqlCheck: Interval?, serviceCheck: Interval?)
    requires minio == MinioResult(ans) && postgresql == PostgresqlResult(ans)
    requires Progress(ans, 3, d0, name, done, ledger.collection)
    modifies ledger
    ensures ledger.collection == ApplyWrites(d0, name, MainTrace(ans).writes)
    ensures r == MainTrace(ans).launch
    ensures (minioCheck != null) == (postgresqlCheck != null) == (serviceCheck != null) == r.Accepted?
    ensures r.Accepted? ==> fresh(minioCheck) && fresh(postgresqlCheck) && fresh(serviceCheck) &&
                            minioCheck.active && postgresqlCheck.active && serviceCheck.active
  {
    var e;
    ghost var done';
    e, done' := SecretPhase(ledger, name, ans, minio, postgresql, d0, done);
    if e.Some? {
      return Ending(e.value), null, null, null;
    }

    e, done' := FetchPhase(ledger, name, ans, d0, done');
    if e.Some? {
      return Ending(e.value), null, null, null;
    }

    assert done' + [] == done';
    minioCheck := new Interval();
    postgresqlCheck := new Interval();
    serviceCheck := new Interval();
    r := Accepted;
  }
}

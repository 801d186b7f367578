/** The three completion pollers `main` starts in routes/api/strapi.js once
    every resource exists: `configureMinioBucket`, `checkPostgres` and
    `checkService`. Each tick reads the remote status, writes the ledger and
    may clear its own interval; the timer itself is not modelled. */
module Pollers {
  import opened Values
  import opened HealthCodes
  import opened Ledger
  import opened Retry
  import opened Database
  import opened Steps

  /** A `setInterval` handle: `active` until `clearInterval`. */
  class Interval {
    var active: bool

    constructor ()
      ensures active
    {
      active := true;
    }
  }

  /** `data?.status` of what a detail read returned: an error object has no
      `status` field. */
  function StatusOf(r: StepResult): Json
  {
    if r.Done? then Get(r.data, "status") else Null
  }

  // ---------------------------------------------------------------------
  // MinIO

  /** The status the MinIO tick acts on. */
  function MinioStatus(details: ApiResult): Json
  {
    StatusOf(CreationResult("Could not get addon details", details))
  }

  /** Whether the MinIO tick clears its interval: the addon failed, or it
      runs and the setup job's first build has concluded. */
  predicate MinioStops(details: ApiResult, jobBuilds: ApiResult)
  {
    MinioStatus(details) == Str("failed") ||
    (MinioStatus(details) == Str("running") && JobConcluded(jobBuilds))
  }

  /** Whether the setup job's first build has concluded. */
  predicate JobConcluded(jobBuilds: ApiResult)
  {
    Truthy(Get(GetJobBuild(jobBuilds), "concluded"))
  }

  /** The tick's own writes, after the detail read's: FAILED for a failed
      addon, STAGING while it is allocated, and SUCCESS followed by the setup
      job's writes once it runs and the job has concluded. */
  function MinioMarkWrites(status: Json, concluded: bool, jobAnswer: ApiResult): seq<Write>
  {
    if status == Str("failed") then [Response("minio", FAILED, Some("Creation failed"))]
    else if status == Str("triggerAllocation") then [Response("minio", STAGING, None)]
    else if status == Str("running") && concluded then [Response("minio", SUCCESS, None)] + TriggerJobWrites(jobAnswer)
    else []
  }

  function MinioTickWrites(details: ApiResult, jobBuilds: ApiResult, trigger: nat -> ApiResult): seq<Write>
  {
    AddonDetailsWrites("minio", "minioDetails", details) +
    MinioMarkWrites(MinioStatus(details), JobConcluded(jobBuilds), RetriedAnswer(CallOptions, trigger))
  }

  /** The last `minio` response among the tick's own writes. */
  lemma MinioMarkLast(status: Json, concluded: bool, jobAnswer: ApiResult)
    ensures LastResponse(MinioMarkWrites(status, concluded, jobAnswer), "minio") ==
      if status == Str("failed") then Some(Response("minio", FAILED, Some("Creation failed")))
      else if status == Str("triggerAllocation") then Some(Response("minio", STAGING, None))
      else if status == Str("running") && concluded then Some(Response("minio", SUCCESS, None))
      else None
  {
    if status != Str("failed") && status != Str("triggerAllocation") && status == Str("running") && concluded {
      var w := Response("minio", SUCCESS, None);
      LastResponseConcat([w], TriggerJobWrites(jobAnswer), "minio");
      assert LastResponse(TriggerJobWrites(jobAnswer), "minio") == None;
      assert [w][..0] == [];
    }
  }

  /** What one MinIO tick leaves in the `minio` entry: FAILED with "Creation
      failed" for a failed addon, STAGING while it is being allocated,
      SUCCESS once it runs (the detail read marks it so even before the
      setup job has concluded), and the entry as it was otherwise. */
  lemma MinioTickEffect(docs: seq<Project>, name: string, details: ApiResult, jobBuilds: ApiResult, trigger: nat -> ApiResult)
    requires Entry(docs, name, "minio").Some?
    ensures var e := Entry(ApplyWrites(docs, name, MinioTickWrites(details, jobBuilds, trigger)), name, "minio");
      var status := MinioStatus(details);
      e.Some? &&
      (status == Str("failed") ==> e.value.health == FAILED && e.value.message == Some("Creation failed")) &&
      (status == Str("triggerAllocation") ==> e.value.health == STAGING && e.value.message == None) &&
      (status == Str("running") ==> e.value.health == SUCCESS && e.value.message == None) &&
      (status != Str("failed") && status != Str("triggerAllocation") && status != Str("running") ==>
        e == Entry(docs, name, "minio"))
  {
    var status := MinioStatus(details);
    var running := details.Ok? && Get(details.data, "status") == Str("running");
    assert running <==> status == Str("running");
    var a := AddonDetailsWrites("minio", "minioDetails", details);
    var b := MinioMarkWrites(status, JobConcluded(jobBuilds), RetriedAnswer(CallOptions, trigger));
    EntryAfterWrites(docs, name, a + b, "minio");
    LastResponseConcat(a, b, "minio");
    MinioMarkLast(status, JobConcluded(jobBuilds), RetriedAnswer(CallOptions, trigger));
    LastResponseConcat(RunningWrites("minio", running), DetailWrites("minioDetails", details, DataOf(details)), "minio");
    assert LastResponse(DetailWrites("minioDetails", details, DataOf(details)), "minio") == None;
  }

  /** The status branch of `configureMinioBucket`; answers whether the
      interval is cleared. */
  method MinioMark(ledger: Projects, name: string, status: Json, concluded: bool, trigger: nat -> ApiResult)
    returns (stop: bool)
    modifies ledger
    ensures stop <==> status == Str("failed") || (status == Str("running") && concluded)
    ensures ledger.collection ==
      ApplyWrites(old(ledger.collection), name, MinioMarkWrites(status, concluded, RetriedAnswer(CallOptions, trigger)))
  {
    var ws := MinioMarkWrites(status, concluded, RetriedAnswer(CallOptions, trigger));
    stop := false;
    if status == Str("failed") {
      stop := true;
      var _ := ledger.AddNewResponse(name, "minio", FAILED, Some("Creation failed"));
      ApplyWritesOne(old(ledger.collection), name, ws[0]);
    } else if status == Str("triggerAllocation") {
      var _ := ledger.AddNewResponse(name, "minio", STAGING, None);
      ApplyWritesOne(old(ledger.collection), name, ws[0]);
    } else if status == Str("running") && concluded {
      stop := true;
      var _ := ledger.AddNewResponse(name, "minio", SUCCESS, None);
      var w := Response("minio", SUCCESS, None);
      ApplyWritesOne(old(ledger.collection), name, w);
      var _ := TriggerJob(ledger, name, trigger);
      ApplyWritesConcat(old(ledger.collection), name, [w], TriggerJobWrites(RetriedAnswer(CallOptions, trigger)));
    }
  }

  /** `configureMinioBucket`. */
  method MinioTick(ledger: Projects, name: string, interval: Interval,
                   details: ApiResult, jobBuilds: ApiResult, trigger: nat -> ApiResult)
    requires interval.active
    modifies ledger, interval
    ensures interval.active == !MinioStops(details, jobBuilds)
    ensures ledger.collection == ApplyWrites(old(ledger.collection), name, MinioTickWrites(details, jobBuilds, trigger))
  {
    var data := GetMinioDetails(ledger, name, details);
    var jobBuild := GetJobBuild(jobBuilds);
    var stop := MinioMark(ledger, name, StatusOf(data), Truthy(Get(jobBuild, "concluded")), trigger);
    if stop {
      interval.active := false;
    }
    ApplyWritesConcat(old(ledger.collection), name, AddonDetailsWrites("minio", "minioDetails", details),
      MinioMarkWrites(MinioStatus(details), JobConcluded(jobBuilds), RetriedAnswer(CallOptions, trigger)));
  }

  // ---------------------------------------------------------------------
  // PostgreSQL

  function PostgresStatus(details: ApiResult): Json
  {
    StatusOf(CreationResult("Could not get addon details", details))
  }

  /** Whether the PostgreSQL tick clears its interval: once the addon runs. */
  predicate PostgresStops(details: ApiResult)
  {
    PostgresStatus(details) == Str("running")
  }

  function PostgresStatusWrites(details: ApiResult): seq<Write>
  {
    var status := PostgresStatus(details);
    if status == Str("triggerAllocation") then [Response("postgresql", STAGING, None)]
    else if status == Str("running") then [Response("postgresql", SUCCESS, None)]
    else []
  }

  function PostgresTickWrites(details: ApiResult): seq<Write>
  {
    AddonDetailsWrites("postgresql", "postgresqlDetails", details) + PostgresStatusWrites(details)
  }

  /** What one PostgreSQL tick leaves in the `postgresql` entry: STAGING
      while allocating, SUCCESS once running, unchanged for any other
      status, which keeps the poller going. */
  lemma PostgresTickEffect(docs: seq<Project>, name: string, details: ApiResult)
    requires Entry(docs, name, "postgresql").Some?
    ensures var e := Entry(ApplyWrites(docs, name, PostgresTickWrites(details)), name, "postgresql");
      var status := PostgresStatus(details);
      e.Some? &&
      (status == Str("triggerAllocation") ==> e.value.health == STAGING && e.value.message == None) &&
      (status == Str("running") ==> e.value.health == SUCCESS && e.value.message == None) &&
      (status != Str("triggerAllocation") && status != Str("running") ==>
        e == Entry(docs, name, "postgresql") && !PostgresStops(details))
  {
    var a := AddonDetailsWrites("postgresql", "postgresqlDetails", details);
    var b := PostgresStatusWrites(details);
    EntryAfterWrites(docs, name, a + b, "postgresql");
    LastResponseConcat(a, b, "postgresql");
    if PostgresStatus(details) == Str("running") || PostgresStatus(details) == Str("triggerAllocation") {
      assert details.Ok? && Get(details.data, "status") == PostgresStatus(details);
    }
  }

  /** `checkPostgres`. */
  method PostgresTick(ledger: Projects, name: string, interval: Interval, details: ApiResult)
    requires interval.active
    modifies ledger, interval
    ensures interval.active == !PostgresStops(details)
    ensures ledger.collection == ApplyWrites(old(ledger.collection), name, PostgresTickWrites(details))
  {
    var data := GetPostgresqlDetails(ledger, name, details);
    ghost var afterRead := ledger.collection;
    var status := StatusOf(data);
    if status == Str("triggerAllocation") {
      var _ := ledger.AddNewResponse(name, "postgresql", STAGING, None);
    } else if status == Str("running") {
      interval.active := false;
      var _ := ledger.AddNewResponse(name, "postgresql", SUCCESS, None);
    }
    var b := PostgresStatusWrites(details);
    if b != [] {
      ApplyWritesOne(afterRead, name, b[0]);
    }
    ApplyWritesConcat(old(ledger.collection), name, AddonDetailsWrites("postgresql", "postgresqlDetails", details), b);
  }

  // ---------------------------------------------------------------------
  // The combined service

  /** The build switch of `checkService`. */
  function BuildWrites(build: Json): seq<Write>
  {
    if build == Str("STARTING") then [Response("service", BUILD_STARTING, None)]
    else if build == Str("CLONING") then [Response("service", BUILD_CLONING, None)]
    else if build == Str("BUILDING") then [Response("service", BUILDING, None)]
    else if build == Str("UPLOADING") then [Response("service", BUILD_UPLOADING, None)]
    else if build == Str("FAILURE") then [Response("service", FAILED, Some("Build failed"))]
    else []
  }

  /** The pod switch, which runs after the build switch in the same tick. */
  function PodWrites(pod: Json): seq<Write>
  {
    if pod == Str("TASK_STARTING") then [Response("service", CONTAINER_STARTING, None)]
    else if pod == Str("TASK_RUNNING") then [Response("service", SUCCESS, None)]
    else []
  }

  function ServiceTickWrites(builds: ApiResult, containers: ApiResult): seq<Write>
  {
    BuildWrites(CheckServiceBuild(builds)) + PodWrites(CheckServiceContainers(containers))
  }

  /** Whether the service tick clears its interval: a failed build or a
      running last pod. */
  predicate ServiceStops(builds: ApiResult, containers: ApiResult)
  {
    CheckServiceBuild(builds) == Str("FAILURE") || CheckServiceContainers(containers) == Str("TASK_RUNNING")
  }

  /** The pod's status wins over the build's in the same tick: when the pod
      switch writes, the `service` entry shows that write; when it does not,
      it shows the build switch's. A failed build seen together with a
      running pod therefore leaves the service at SUCCESS. */
  lemma ServiceTickEffect(docs: seq<Project>, name: string, builds: ApiResult, containers: ApiResult)
    ensures var after := ApplyWrites(docs, name, ServiceTickWrites(builds, containers));
      var pods := PodWrites(CheckServiceContainers(containers));
      (pods != [] ==> Entry(after, name, "service") == Overlay(Entry(docs, name, "service"), Some(pods[0]))) &&
      (pods == [] ==> Entry(after, name, "service") == Entry(ApplyWrites(docs, name, BuildWrites(CheckServiceBuild(builds))), name, "service"))
    ensures CheckServiceContainers(containers) == Str("TASK_RUNNING") ==>
      var e := Entry(ApplyWrites(docs, name, ServiceTickWrites(builds, containers)), name, "service");
      e == Overlay(Entry(docs, name, "service"), Some(Response("service", SUCCESS, None)))
  {
    var a := BuildWrites(CheckServiceBuild(builds));
    var b := PodWrites(CheckServiceContainers(containers));
    EntryAfterWrites(docs, name, a + b, "service");
    EntryAfterWrites(docs, name, a, "service");
    LastResponseConcat(a, b, "service");
  }

  /** The build switch of `checkService`; answers whether it clears the
      interval. */
  method BuildMark(ledger: Projects, name: string, buildStatus: Json) returns (stop: bool)
    modifies ledger
    ensures stop <==> buildStatus == Str("FAILURE")
    ensures ledger.collection == ApplyWrites(old(ledger.collection), name, BuildWrites(buildStatus))
  {
    stop := false;
    if buildStatus == Str("STARTING") {
      var _ := ledger.AddNewResponse(name, "service", BUILD_STARTING, None);
    } else if buildStatus == Str("CLONING") {
      var _ := ledger.AddNewResponse(name, "service", BUILD_CLONING, None);
    } else if buildStatus == Str("BUILDING") {
      var _ := ledger.AddNewResponse(name, "service", BUILDING, None);
    } else if buildStatus == Str("UPLOADING") {
      var _ := ledger.AddNewResponse(name, "service", BUILD_UPLOADING, None);
    } else if buildStatus == Str("FAILURE") {
      var _ := ledger.AddNewResponse(name, "service", FAILED, Some("Build failed"));
      stop := true;
    }
    var ws := BuildWrites(buildStatus);
    if ws != [] {
      ApplyWritesOne(old(ledger.collection), name, ws[0]);
    }
  }

  /** The pod switch of `checkService`; answers whether it clears the
      interval. */
  method PodMark(ledger: Projects, name: string, podStatus: Json) returns (stop: bool)
    modifies ledger
    ensures stop <==> podStatus == Str("TASK_RUNNING")
    ensures ledger.collection == ApplyWrites(old(ledger.collection), name, PodWrites(podStatus))
  {
    stop := false;
    if podStatus == Str("TASK_STARTING") {
      var _ := ledger.AddNewResponse(name, "service", CONTAINER_STARTING, None);
    } else if podStatus == Str("TASK_RUNNING") {
      var _ := ledger.AddNewResponse(name, "service", SUCCESS, None);
      stop := true;
    }
    var ws := PodWrites(podStatus);
    if ws != [] {
      ApplyWritesOne(old(ledger.collection), name, ws[0]);
    }
  }

  /** `checkService`. */
  method ServiceTick(ledger: Projects, name: string, interval: Interval, builds: ApiResult, containers: ApiResult)
    requires interval.active
    modifies ledger, interval
    ensures interval.active == !ServiceStops(builds, containers)
    ensures ledger.collection == ApplyWrites(old(ledger.collection), name, ServiceTickWrites(builds, containers))
  {
    var buildStatus := CheckServiceBuild(builds);
    var podStatus := CheckServiceContainers(containers);
    var buildStop := BuildMark(ledger, name, buildStatus);
    if buildStop {
      interval.active := false;
    }
    var podStop := PodMark(ledger, name, podStatus);
    if podStop {
      interval.active := false;
    }
    ApplyWritesConcat(old(ledger.collection), name, BuildWrites(buildStatus), PodWrites(podStatus));
  }
}

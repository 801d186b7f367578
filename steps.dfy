/** The resource steps of api/strapi.js. Each one calls the provisioning API
    (its answers are parameters), writes a fixed set of entries to the
    ledger and returns either the API's data or an error object. Every step
    is a method on the ledger proved to perform exactly the writes of a
    specification function, whose meaning the lemmas state. */
module Steps {
  import opened Values
  import opened HealthCodes
  import opened Ledger
  import opened Retry
  import opened Database

  /** What a step returns: the API's `data`, the object
      `{error: true, code, message, apiResponse}`, or a rejected promise
      (a TypeError inside the step). */
  datatype StepResult =
    | Done(data: Json)
    | Failed(code: int, message: string, apiResponse: string)
    | Crashed

  /** `step.error` as the orchestrator tests it. */
  predicate HasError(r: StepResult)
  {
    r.Failed? || (r.Done? && Truthy(Get(r.data, "error")))
  }

  /** The `data` of an answer; an error answer carries none. */
  function DataOf(a: ApiResult): Json
  {
    if a.Ok? then a.data else Null
  }

  /** The error object of a step whose API call failed. */
  function Failure(a: ApiResult, message: string): (r: StepResult)
    requires a.Err?
    ensures r.Failed? && r.code == a.status && r.apiResponse == a.message
  {
    Failed(a.status, message, a.message)
  }

  // ---------------------------------------------------------------------
  // Creation steps

  /** The writes of a creation step: the raw status and message of a failed
      call, or the step's success code without a message. */
  function CreationWrites(key: string, okHealth: int, answer: ApiResult): seq<Write>
  {
    if answer.Err? then [Response(key, answer.status, Some(answer.message))]
    else [Response(key, okHealth, None)]
  }

  function CreationResult(failMessage: string, answer: ApiResult): StepResult
  {
    if answer.Err? then Failure(answer, failMessage) else Done(answer.data)
  }

  /** A creation step changes its own entry and nothing else: the entry
      carries `error.status` and `error.message` after a failure, the success
      code after success; other entries, other projects and every detail
      field stay as they were. The step reports an error exactly when the
      call failed, with the call's status as its code. */
  lemma CreationEffect(docs: seq<Project>, name: string, key: string, okHealth: int, failMessage: string,
                       answer: ApiResult, other: string, field: string)
    requires other != key
    ensures var after := ApplyWrites(docs, name, CreationWrites(key, okHealth, answer));
      Entry(after, name, key) ==
        Overlay(Entry(docs, name, key),
                Some(if answer.Err? then Response(key, answer.status, Some(answer.message)) else Response(key, okHealth, None))) &&
      Entry(after, name, other) == Entry(docs, name, other) &&
      DetailOf(after, name, field) == DetailOf(docs, name, field)
    ensures CreationResult(failMessage, answer).Failed? <==> answer.Err?
    ensures answer.Err? ==> CreationResult(failMessage, answer).code == answer.status
  {
    var ws := CreationWrites(key, okHealth, answer);
    EntryAfterWrites(docs, name, ws, key);
    EntryAfterWrites(docs, name, ws, other);
    ResponsesKeepDetails(docs, name, ws, field);
  }

  /** The body every creation step shares once its call has answered. */
  method RecordCreation(ledger: Projects, name: string, key: string, okHealth: int, failMessage: string, answer: ApiResult)
    returns (r: StepResult)
    modifies ledger
    ensures ledger.collection == ApplyWrites(old(ledger.collection), name, CreationWrites(key, okHealth, answer))
    ensures r == CreationResult(failMessage, answer)
  {
    ghost var before := ledger.collection;
    if answer.Err? {
      var _ := ledger.AddNewResponse(name, key, answer.status, Some(answer.message));
      return Failure(answer, failMessage);
    }
    var _ := ledger.AddNewResponse(name, key, okHealth, None);
    assert ApplyWrites(before, name, CreationWrites(key, okHealth, answer)) == ledger.collection by {
      assert CreationWrites(key, okHealth, answer)[..0] == [];
    }
    return Done(answer.data);
  }

  /** `createProject`: the one creation call made without retries. */
  method CreateProject(ledger: Projects, name: string, answer: ApiResult) returns (r: StepResult)
    modifies ledger
    ensures ledger.collection == ApplyWrites(old(ledger.collection), name, CreationWrites("project", SUCCESS, answer))
    ensures r == CreationResult("Could not create project", answer)
  {
    r := RecordCreation(ledger, name, "project", SUCCESS, "Could not create project", answer);
  }

  method CreateManualJob(ledger: Projects, name: string, responses: nat -> ApiResult) returns (r: StepResult)
    modifies ledger
    ensures var answer := RetriedAnswer(CallOptions, responses);
      ledger.collection == ApplyWrites(old(ledger.collection), name, CreationWrites("job", SUCCESS, answer)) &&
      r == CreationResult("Could not create job", answer)
  {
    var answer := Call(responses);
    r := RecordCreation(ledger, name, "job", SUCCESS, "Could not create job", answer);
  }

  method CreateCombinedService(ledger: Projects, name: string, responses: nat -> ApiResult) returns (r: StepResult)
    modifies ledger
    ensures var answer := RetriedAnswer(CallOptions, responses);
      ledger.collection == ApplyWrites(old(ledger.collection), name, CreationWrites("service", IN_PROGRESS, answer)) &&
      r == CreationResult("Could not create combined service", answer)
  {
    var answer := Call(responses);
    r := RecordCreation(ledger, name, "service", IN_PROGRESS, "Could not create combined service", answer);
  }

  method CreatePostgreSQL(ledger: Projects, name: string, responses: nat -> ApiResult) returns (r: StepResult)
    modifies ledger
    ensures var answer := RetriedAnswer(CallOptions, responses);
      ledger.collection == ApplyWrites(old(ledger.collection), name, CreationWrites("postgresql", DEPLOYING, answer)) &&
      r == CreationResult("Could not create PostgreSQL addon", answer)
  {
    var answer := Call(responses);
    r := RecordCreation(ledger, name, "postgresql", DEPLOYING, "Could not create PostgreSQL addon", answer);
  }

  method CreateMinIO(ledger: Projects, name: string, responses: nat -> ApiResult) returns (r: StepResult)
    modifies ledger
    ensures var answer := RetriedAnswer(CallOptions, responses);
      ledger.collection == ApplyWrites(old(ledger.collection), name, CreationWrites("minio", DEPLOYING, answer)) &&
      r == CreationResult("Could not create MinIO addon", answer)
  {
    var answer := Call(responses);
    r := RecordCreation(ledger, name, "minio", DEPLOYING, "Could not create MinIO addon", answer);
  }

  /** The addon ids the secret group links to: its request depends on them. */
  datatype SecretRequest = SecretRequest(minio: Json, postgresql: Json)

  /** `createSecretGroup`; `api(request)` are the answers to the request
      naming these two addons. */
  method CreateSecretGroup(ledger: Projects, name: string, minio: Json, postgresql: Json,
                           api: SecretRequest -> nat -> ApiResult) returns (r: StepResult)
    modifies ledger
    ensures var answer := RetriedAnswer(CallOptions, api(SecretRequest(minio, postgresql)));
      ledger.collection == ApplyWrites(old(ledger.collection), name, CreationWrites("secrets", SUCCESS, answer)) &&
      r == CreationResult("Could not create secret group", answer)
  {
    var answer := Call(api(SecretRequest(minio, postgresql)));
    r := RecordCreation(ledger, name, "secrets", SUCCESS, "Could not create secret group", answer);
  }

  // ---------------------------------------------------------------------
  // The MinIO setup job

  /** A failed run of the setup job marks both bucket steps FAILED, without
      a message; a successful run writes nothing. */
  function TriggerJobWrites(answer: ApiResult): seq<Write>
  {
    if answer.Err? then [Response("bucketCreated", FAILED, None), Response("bucketPolicy", FAILED, None)] else []
  }

  lemma TriggerJobEffect(docs: seq<Project>, name: string, answer: ApiResult, key: string)
    ensures var after := ApplyWrites(docs, name, TriggerJobWrites(answer));
      (answer.Err? && (key == "bucketCreated" || key == "bucketPolicy") ==>
        Entry(after, name, key) == Overlay(Entry(docs, name, key), Some(Response(key, FAILED, None)))) &&
      (answer.Ok? || (key != "bucketCreated" && key != "bucketPolicy") ==>
        Entry(after, name, key) == Entry(docs, name, key))
  {
    EntryAfterWrites(docs, name, TriggerJobWrites(answer), key);
  }

  method TriggerJob(ledger: Projects, name: string, responses: nat -> ApiResult) returns (r: StepResult)
    modifies ledger
    ensures var answer := RetriedAnswer(CallOptions, responses);
      ledger.collection == ApplyWrites(old(ledger.collection), name, TriggerJobWrites(answer)) &&
      r == CreationResult("Could not run Minio setup command", answer)
  {
    var answer := Call(responses);
    ghost var before := ledger.collection;
    if answer.Err? {
      var _ := ledger.AddNewResponse(name, "bucketCreated", FAILED, None);
      ghost var middle := ledger.collection;
      var _ := ledger.AddNewResponse(name, "bucketPolicy", FAILED, None);
      assert ApplyWrites(before, name, TriggerJobWrites(answer)) == ledger.collection by {
        var ws := TriggerJobWrites(answer);
        assert ws[..1][..0] == [];
        assert ApplyWrites(before, name, ws[..1]) == middle;
      }
      return Failure(answer, "Could not run Minio setup command");
    }
    return Done(answer.data);
  }

  // ---------------------------------------------------------------------
  // Credential fetches

  /** A successful fetch stores the connection details under `field` and
      then marks `key` SUCCESS; a failed one records the error and stores
      nothing. */
  function FetchWrites(key: string, field: string, answer: ApiResult): seq<Write>
  {
    if answer.Err? then [Response(key, answer.status, Some(answer.message))]
    else [Detail(field, answer.data), Response(key, SUCCESS, None)]
  }

  lemma FetchEffect(docs: seq<Project>, name: string, key: string, field: string, answer: ApiResult)
    requires IndexOfProject(docs, name) < |docs|
    ensures var after := ApplyWrites(docs, name, FetchWrites(key, field, answer));
      (answer.Ok? ==>
        DetailOf(after, name, field) == Some(answer.data) &&
        Entry(after, name, key) == Overlay(Entry(docs, name, key), Some(Response(key, SUCCESS, None)))) &&
      (answer.Err? ==>
        DetailOf(after, name, field) == DetailOf(docs, name, field) &&
        Entry(after, name, key) == Overlay(Entry(docs, name, key), Some(Response(key, answer.status, Some(answer.message)))))
  {
    if answer.Ok? {
      var d, w := Detail(field, answer.data), Response(key, SUCCESS, None);
      ApplyWritesTwo(docs, name, d, w);
      var middle := ApplyWrite(docs, name, d);
      DetailAfterWrite(docs, name, d, field);
      DetailAfterWrite(middle, name, w, field);
      EntryAfterWrite(docs, name, d, name, key);
      EntryAfterWrite(middle, name, w, name, key);
    } else {
      var w := Response(key, answer.status, Some(answer.message));
      ApplyWritesOne(docs, name, w);
      DetailAfterWrite(docs, name, w, field);
      EntryAfterWrite(docs, name, w, name, key);
    }
  }

  /** The body both credential fetches share. */
  method RecordFetch(ledger: Projects, name: string, key: string, field: string, failMessage: string, answer: ApiResult)
    returns (r: StepResult)
    modifies ledger
    ensures ledger.collection == ApplyWrites(old(ledger.collection), name, FetchWrites(key, field, answer))
    ensures r == CreationResult(failMessage, answer)
  {
    ghost var before := ledger.collection;
    if answer.Err? {
      var _ := ledger.AddNewResponse(name, key, answer.status, Some(answer.message));
      return Failure(answer, failMessage);
    }
    ledger.UpdateProjectWithConnectionDetails(name, field, answer.data);
    ghost var middle := ledger.collection;
    var _ := ledger.AddNewResponse(name, key, SUCCESS, None);
    assert ApplyWrites(before, name, FetchWrites(key, field, answer)) == ledger.collection by {
      var ws := FetchWrites(key, field, answer);
      assert ws[..1][..0] == [];
      assert ApplyWrites(before, name, ws[..1]) == middle;
    }
    return Done(answer.data);
  }

  method FetchPostgresqlCredentials(ledger: Projects, name: string, answer: ApiResult) returns (r: StepResult)
    modifies ledger
    ensures ledger.collection ==
      ApplyWrites(old(ledger.collection), name, FetchWrites("fetchPostgresql", "postgresqlConnectionDetails", answer))
    ensures r == CreationResult("Could not fetch PostgreSQL credentials", answer)
  {
    r := RecordFetch(ledger, name, "fetchPostgresql", "postgresqlConnectionDetails", "Could not fetch PostgreSQL credentials", answer);
  }

  method FetchMinioCredentials(ledger: Projects, name: string, answer: ApiResult) returns (r: StepResult)
    modifies ledger
    ensures ledger.collection ==
      ApplyWrites(old(ledger.collection), name, FetchWrites("fetchMinio", "minioConnectionDetails", answer))
    ensures r == CreationResult("Could not fetch MinIO credentials", answer)
  {
    r := RecordFetch(ledger, name, "fetchMinio", "minioConnectionDetails", "Could not fetch MinIO credentials", answer);
  }

  // ---------------------------------------------------------------------
  // Status selectors

  /** `checkServiceBuild`: the status of the first build listed. */
  function CheckServiceBuild(answer: ApiResult): (status: Json)
    ensures status != Null ==>
              answer.Ok? && Get(answer.data, "builds").Arr? && |Get(answer.data, "builds").items| > 0
    ensures answer.Ok? && Get(answer.data, "builds").Arr? && |Get(answer.data, "builds").items| > 0 ==>
              status == Get(Get(answer.data, "builds").items[0], "status")
  {
    Get(At(Get(DataOf(answer), "builds"), 0), "status")
  }

  /** `checkServiceContainers`: the status of the last pod listed. */
  function CheckServiceContainers(answer: ApiResult): (status: Json)
    ensures status != Null ==>
              answer.Ok? && Get(answer.data, "pods").Arr? && |Get(answer.data, "pods").items| > 0
    ensures answer.Ok? && Get(answer.data, "pods").Arr? && |Get(answer.data, "pods").items| > 0 ==>
              status == Get(Get(answer.data, "pods").items[|Get(answer.data, "pods").items| - 1], "status")
  {
    Get(Last(Get(DataOf(answer), "pods")), "status")
  }

  /** `getJobBuild`: the first build of the job, when `builds` is truthy. */
  function GetJobBuild(answer: ApiResult): (build: Json)
    ensures build != Null ==>
              answer.Ok? && Get(answer.data, "builds").Arr? && |Get(answer.data, "builds").items| > 0
    ensures answer.Ok? && Get(answer.data, "builds").Arr? && |Get(answer.data, "builds").items| > 0 ==>
              build == Get(answer.data, "builds").items[0]
  {
    var builds := Get(DataOf(answer), "builds");
    At(if Truthy(builds) then builds else Arr([]), 0)
  }

  // ---------------------------------------------------------------------
  // Detail reads

  /** The data stored as service details: the API's object with the two
      statuses added. */
  function ServiceData(data: Json, buildStatus: Json, containerStatus: Json): Json
  {
    SetField(SetField(data, "buildStatus", buildStatus), "containerStatus", containerStatus)
  }

  /** The SUCCESS mark a detail read writes when it sees the resource running. */
  function RunningWrites(key: string, running: bool): seq<Write>
  {
    if running then [Response(key, SUCCESS, None)] else []
  }

  /** How a detail read stores what it read: `stored` after an answer, `{}`
      after a 404, nothing after any other error. */
  function DetailWrites(field: string, answer: ApiResult, stored: Json): seq<Write>
  {
    if answer.Err? then (if answer.status == NOT_FOUND_STATUS then [Detail(field, EmptyObject)] else [])
    else [Detail(field, stored)]
  }

  /** `getServiceDetails`: a running last pod marks the service SUCCESS; then
      the details are stored with both statuses, or reset on a 404. Data
      that cannot take the two statuses (null, undefined, a primitive)
      throws before anything is stored. */
  function ServiceDetailsWrites(builds: ApiResult, containers: ApiResult, details: ApiResult): seq<Write>
  {
    RunningWrites("service", CheckServiceContainers(containers) == Str("TASK_RUNNING")) +
    (if details.Ok? && !Assignable(details.data) then []
     else DetailWrites("serviceDetails", details, ServiceData(DataOf(details), CheckServiceBuild(builds), CheckServiceContainers(containers))))
  }

  function ServiceDetailsResult(builds: ApiResult, containers: ApiResult, details: ApiResult): StepResult
  {
    if details.Err? then Failure(details, "Could not get service details")
    else if !Assignable(details.data) then Crashed
    else Done(ServiceData(details.data, CheckServiceBuild(builds), CheckServiceContainers(containers)))
  }

  /** The writes of `getMinioDetails` and `getPostgresqlDetails`: a
      `running` addon marks `key` SUCCESS, whatever else is pending, and the
      details are replaced by the API's data, or reset on a 404. */
  function AddonDetailsWrites(key: string, field: string, answer: ApiResult): seq<Write>
  {
    RunningWrites(key, answer.Ok? && Get(answer.data, "status") == Str("running")) +
    DetailWrites(field, answer, DataOf(answer))
  }

  /** A detail read's effect on the ledger: a 404 resets the stored details
      to `{}`, any other error keeps them, an answer is stored as it is; the
      progress entry changes only to SUCCESS, and only when `running`. */
  lemma DetailReadEffect(docs: seq<Project>, name: string, key: string, running: bool, field: string,
                         answer: ApiResult, stored: Json)
    requires IndexOfProject(docs, name) < |docs|
    ensures var after := ApplyWrites(docs, name, RunningWrites(key, running) + DetailWrites(field, answer, stored));
      DetailOf(after, name, field) ==
        (if answer.Ok? then Some(stored)
         else if answer.status == NOT_FOUND_STATUS then Some(EmptyObject)
         else DetailOf(docs, name, field)) &&
      Entry(after, name, key) ==
        (if running then Overlay(Entry(docs, name, key), Some(Response(key, SUCCESS, None))) else Entry(docs, name, key))
  {
    var first := RunningWrites(key, running);
    var second := DetailWrites(field, answer, stored);
    ApplyWritesConcat(docs, name, first, second);
    var middle := ApplyWrites(docs, name, first);
    if running {
      ApplyWritesOne(docs, name, first[0]);
      DetailAfterWrite(docs, name, first[0], field);
      EntryAfterWrite(docs, name, first[0], name, key);
      ApplyWriteKeepsShape(docs, name, first[0]);
      SameShapeIndexes(docs, middle, name, key);
    }
    if second != [] {
      ApplyWritesOne(middle, name, second[0]);
      DetailAfterWrite(middle, name, second[0], field);
      EntryAfterWrite(middle, name, second[0], name, key);
    }
  }

  /** The two statuses added to an object, and its other fields kept. */
  lemma ServiceDataFields(data: Json, buildStatus: Json, containerStatus: Json)
    requires data.Obj?
    ensures var stored := ServiceData(data, buildStatus, containerStatus);
      Get(stored, "buildStatus") == buildStatus && Get(stored, "containerStatus") == containerStatus &&
      forall other :: other != "buildStatus" && other != "containerStatus" ==> Get(stored, other) == Get(data, other)
  {
    var inner := SetField(data, "buildStatus", buildStatus);
    assert inner.Obj? && Get(inner, "buildStatus") == buildStatus;
  }

  /** What `getServiceDetails` stores for an object answer: the answer with
      the first build's and the last pod's status added and every other
      field as answered, which is also what the step returns. */
  lemma ServiceDetailsStored(docs: seq<Project>, name: string, builds: ApiResult, containers: ApiResult, details: ApiResult)
    requires IndexOfProject(docs, name) < |docs|
    requires details.Ok? && details.data.Obj?
    ensures var d := DetailOf(ApplyWrites(docs, name, ServiceDetailsWrites(builds, containers, details)), name, "serviceDetails");
      d.Some? && ServiceDetailsResult(builds, containers, details) == Done(d.value) &&
      Get(d.value, "buildStatus") == CheckServiceBuild(builds) &&
      Get(d.value, "containerStatus") == CheckServiceContainers(containers) &&
      forall other :: other != "buildStatus" && other != "containerStatus" ==> Get(d.value, other) == Get(details.data, other)
  {
    var build := CheckServiceBuild(builds);
    var pod := CheckServiceContainers(containers);
    var running := pod == Str("TASK_RUNNING");
    var stored := ServiceData(details.data, build, pod);
    ServiceDataFields(details.data, build, pod);
    assert ServiceDetailsWrites(builds, containers, details) ==
           RunningWrites("service", running) + DetailWrites("serviceDetails", details, stored);
    DetailReadEffect(docs, name, "service", running, "serviceDetails", details, stored);
  }

  /** Data that cannot take a field makes `getServiceDetails` throw after
      the SUCCESS mark and before the details are stored. */
  lemma ServiceDetailsThrows(docs: seq<Project>, name: string, builds: ApiResult, containers: ApiResult, details: ApiResult)
    requires details.Ok? && !Assignable(details.data)
    ensures DetailOf(ApplyWrites(docs, name, ServiceDetailsWrites(builds, containers, details)), name, "serviceDetails") ==
            DetailOf(docs, name, "serviceDetails")
    ensures ServiceDetailsResult(builds, containers, details) == Crashed
  {
    var running := CheckServiceContainers(containers) == Str("TASK_RUNNING");
    assert ServiceDetailsWrites(builds, containers, details) == RunningWrites("service", running);
    if running {
      ApplyWritesOne(docs, name, Response("service", SUCCESS, None));
      DetailAfterWrite(docs, name, Response("service", SUCCESS, None), "serviceDetails");
    }
  }

  /** The optional SUCCESS mark of a detail read. */
  method MarkRunning(ledger: Projects, name: string, key: string, running: bool)
    modifies ledger
    ensures ledger.collection == ApplyWrites(old(ledger.collection), name, RunningWrites(key, running))
  {
    if running {
      var _ := ledger.AddNewResponse(name, key, SUCCESS, None);
      ApplyWritesOne(old(ledger.collection), name, Response(key, SUCCESS, None));
    }
  }

  /** Stores `value` under `field` through the setter each detail read
      calls for its own field. */
  method StoreDetails(ledger: Projects, name: string, field: string, value: Json)
    modifies ledger
    ensures ledger.collection == ApplyWrites(old(ledger.collection), name, [Detail(field, value)])
  {
    if field == "serviceDetails" {
      ledger.UpdateProjectWithServiceDetails(name, value);
    } else if field == "minioDetails" {
      ledger.UpdateProjectWithMinioDetails(name, value);
    } else if field == "postgresqlDetails" {
      ledger.UpdateProjectWithPostgresqlDetails(name, value);
    } else {
      ledger.UpdateProjectWithConnectionDetails(name, field, value);
    }
    ApplyWritesOne(old(ledger.collection), name, Detail(field, value));
  }

  /** The storing half every detail read shares. */
  method RecordDetails(ledger: Projects, name: string, field: string, answer: ApiResult, stored: Json)
    modifies ledger
    ensures ledger.collection == ApplyWrites(old(ledger.collection), name, DetailWrites(field, answer, stored))
  {
    if answer.Err? {
      if answer.status == NOT_FOUND_STATUS {
        StoreDetails(ledger, name, field, EmptyObject);
      }
    } else {
      StoreDetails(ledger, name, field, stored);
    }
  }

  method GetServiceDetails(ledger: Projects, name: string, builds: ApiResult, containers: ApiResult, details: ApiResult)
    returns (r: StepResult)
    modifies ledger
    ensures ledger.collection == ApplyWrites(old(ledger.collection), name, ServiceDetailsWrites(builds, containers, details))
    ensures r == ServiceDetailsResult(builds, containers, details)
  {
    var buildStatus := CheckServiceBuild(builds);
    var containerStatus := CheckServiceContainers(containers);
    MarkRunning(ledger, name, "service", containerStatus == Str("TASK_RUNNING"));
    if details.Ok? && !Assignable(details.data) {
      assert RunningWrites("service", containerStatus == Str("TASK_RUNNING")) + [] ==
             RunningWrites("service", containerStatus == Str("TASK_RUNNING"));
      return Crashed;
    }
    var stored := ServiceData(DataOf(details), buildStatus, containerStatus);
    RecordDetails(ledger, name, "serviceDetails", details, stored);
    ApplyWritesConcat(old(ledger.collection), name,
      RunningWrites("service", containerStatus == Str("TASK_RUNNING")), DetailWrites("serviceDetails", details, stored));
    r := if details.Err? then Failure(details, "Could not get service details") else Done(stored);
  }

  method GetAddonDetails(ledger: Projects, name: string, key: string, field: string, answer: ApiResult)
    returns (r: StepResult)
    modifies ledger
    ensures ledger.collection == ApplyWrites(old(ledger.collection), name, AddonDetailsWrites(key, field, answer))
    ensures r == CreationResult("Could not get addon details", answer)
  {
    var running := answer.Ok? && Get(answer.data, "status") == Str("running");
    MarkRunning(ledger, name, key, running);
    RecordDetails(ledger, name, field, answer, DataOf(answer));
    ApplyWritesConcat(old(ledger.collection), name, RunningWrites(key, running), DetailWrites(field, answer, DataOf(answer)));
    r := CreationResult("Could not get addon details", answer);
  }

  method GetMinioDetails(ledger: Projects, name: string, answer: ApiResult) returns (r: StepResult)
    modifies ledger
    ensures ledger.collection == ApplyWrites(old(ledger.collection), name, AddonDetailsWrites("minio", "minioDetails", answer))
    ensures r == CreationResult("Could not get addon details", answer)
  {
    r := GetAddonDetails(ledger, name, "minio", "minioDetails", answer);
  }

  method GetPostgresqlDetails(ledger: Projects, name: string, answer: ApiResult) returns (r: StepResult)
    modifies ledger
    ensures ledger.collection == ApplyWrites(old(ledger.collection), name, AddonDetailsWrites("postgresql", "postgresqlDetails", answer))
    ensures r == CreationResult("Could not get addon details", answer)
  {
    r := GetAddonDetails(ledger, name, "postgresql", "postgresqlDetails", answer);
  }

  // ---------------------------------------------------------------------
  // Addon backups

  /** `backupDetails?.data?.restores` for one listed backup. */
  function RestoresOf(backup: Json, details: Json -> ApiResult): Json
  {
    Get(DataOf(details(Get(backup, "id"))), "restores")
  }

  /** The restore write for one backup, or None when its restores are
      missing and `Object.values` throws. */
  function RestoreWrite(backup: Json, details: Json -> ApiResult): (w: Option<Write>)
    ensures w.None? <==> RestoresOf(backup, details) == Null
  {
    var values := ObjectValues(RestoresOf(backup, details));
    if values.None? then None else Some(Restores(Get(backup, "id"), Reverse(values.value)))
  }

  /** The writes of a walk over some backups and whether it threw. */
  datatype Walk = Walk(writes: seq<Write>, threw: bool)

  /** One more backup walked: a walk that threw stays as it is; missing
      restores make it throw; otherwise the restore write is added. */
  function Extend(walk: Walk, w: Option<Write>): Walk
  {
    if walk.threw then walk
    else if w.None? then Walk(walk.writes, true)
    else Walk(walk.writes + [w.value], false)
  }

  /** The restore lists written while walking `backups` in order; the walk
      stops at the first backup whose restores are missing. */
  function RestoreWrites(backups: seq<Json>, details: Json -> ApiResult): Walk
    decreases |backups|
  {
    if backups == [] then Walk([], false)
    else Extend(RestoreWrites(backups[..|backups| - 1], details), RestoreWrite(backups[|backups| - 1], details))
  }

  /** One restore write per backup, in the order walked, each holding that
      backup's restores reversed; a walk that throws has written exactly the
      backups before the first one without restores. */
  lemma RestoreWritesInOrder(backups: seq<Json>, details: Json -> ApiResult)
    ensures var walk := RestoreWrites(backups, details);
      |walk.writes| <= |backups| && (!walk.threw ==> |walk.writes| == |backups|) &&
      (walk.threw ==> |walk.writes| < |backups| && RestoresOf(backups[|walk.writes|], details) == Null) &&
      forall k :: 0 <= k < |walk.writes| ==>
        RestoresOf(backups[k], details) != Null &&
        walk.writes[k] == Restores(Get(backups[k], "id"), Reverse(ObjectValues(RestoresOf(backups[k], details)).value))
  {
    RestoreWritesCount(backups, details);
    RestoreWritesEach(backups, details);
  }

  /** How many restore writes a walk makes, and where it threw. */
  lemma {:induction false} RestoreWritesCount(backups: seq<Json>, details: Json -> ApiResult)
    ensures var walk := RestoreWrites(backups, details);
      |walk.writes| <= |backups| && (!walk.threw ==> |walk.writes| == |backups|) &&
      (walk.threw ==> |walk.writes| < |backups| && RestoresOf(backups[|walk.writes|], details) == Null)
    decreases |backups|
  {
    if backups != [] {
      var init, last := backups[..|backups| - 1], backups[|backups| - 1];
      RestoreWritesCount(init, details);
      var walk := RestoreWrites(init, details);
      assert RestoreWrites(backups, details) == Extend(walk, RestoreWrite(last, details));
      if walk.threw {
        assert backups[|walk.writes|] == init[|walk.writes|];
      }
    }
  }

  /** Each restore write holds its own backup's restores, reversed. */
  lemma {:induction false} RestoreWritesEach(backups: seq<Json>, details: Json -> ApiResult)
    ensures var walk := RestoreWrites(backups, details);
      |walk.writes| <= |backups| &&
      forall k :: 0 <= k < |walk.writes| ==>
        RestoresOf(backups[k], details) != Null &&
        walk.writes[k] == Restores(Get(backups[k], "id"), Reverse(ObjectValues(RestoresOf(backups[k], details)).value))
    decreases |backups|
  {
    RestoreWritesCount(backups, details);
    if backups != [] {
      var init, last := backups[..|backups| - 1], backups[|backups| - 1];
      RestoreWritesEach(init, details);
      RestoreWritesCount(init, details);
      var walk := RestoreWrites(init, details);
      var all := RestoreWrites(backups, details);
      assert all == Extend(walk, RestoreWrite(last, details));
      forall k | 0 <= k < |all.writes|
        ensures RestoresOf(backups[k], details) != Null &&
          all.writes[k] == Restores(Get(backups[k], "id"), Reverse(ObjectValues(RestoresOf(backups[k], details)).value))
      {
        if k < |walk.writes| {
          assert backups[k] == init[k] && all.writes[k] == walk.writes[k];
        } else {
          assert backups[k] == last && all.writes[k] == RestoreWrite(last, details).value;
        }
      }
    }
  }

  /** Once the walk has thrown, later backups add nothing. */
  lemma {:induction false} RestoreWritesStop(walked: seq<Json>, n: nat, details: Json -> ApiResult)
    requires n <= |walked| && RestoreWrites(walked[..n], details).threw
    ensures RestoreWrites(walked, details) == RestoreWrites(walked[..n], details)
    decreases |walked|
  {
    if n == |walked| {
      assert walked[..n] == walked;
    } else {
      var init := walked[..|walked| - 1];
      assert init[..n] == walked[..n];
      RestoreWritesStop(init, n, details);
    }
  }

  /** `getAddonBackups`: the listed backups are stored newest first, then
      each one's restores are stored in that order. */
  function BackupsWrites(answer: ApiResult, details: Json -> ApiResult): seq<Write>
  {
    var backups := Get(DataOf(answer), "backups");
    if answer.Err? || !backups.Arr? then []
    else [Detail("backups", Arr(Reverse(backups.items)))] + RestoreWrites(Reverse(backups.items), details).writes
  }

  function BackupsResult(answer: ApiResult, details: Json -> ApiResult): StepResult
  {
    var backups := Get(DataOf(answer), "backups");
    if answer.Err? then Failure(answer, "Could not get addon backups")
    else if !backups.Arr? || RestoreWrites(Reverse(backups.items), details).threw then Crashed
    else Done(SetField(answer.data, "backups", Arr(Reverse(backups.items))))
  }

  /** A backup without restores ends the walk over all the stored backups. */
  lemma RestoreStepThrows(walked: seq<Json>, i: nat, details: Json -> ApiResult)
    requires i < |walked| && !RestoreWrites(walked[..i], details).threw
    requires RestoreWrite(walked[i], details).None?
    ensures RestoreWrites(walked, details) == Walk(RestoreWrites(walked[..i], details).writes, true)
  {
    var p := walked[..i + 1];
    assert p[..|p| - 1] == walked[..i];
    assert p[|p| - 1] == walked[i];
    RestoreWritesStop(walked, i + 1, details);
  }

  /** A backup with restores adds its write to the walk. */
  lemma RestoreStepWrites(walked: seq<Json>, i: nat, details: Json -> ApiResult)
    requires i < |walked| && !RestoreWrites(walked[..i], details).threw
    requires RestoreWrite(walked[i], details).Some?
    ensures RestoreWrites(walked[..i + 1], details) ==
      Walk(RestoreWrites(walked[..i], details).writes + [RestoreWrite(walked[i], details).value], false)
  {
    var p := walked[..i + 1];
    assert p[..|p| - 1] == walked[..i];
    assert p[|p| - 1] == walked[i];
  }

  /** The loop of `getAddonBackups`: stores each backup's restores, in the
      order of `list`, until one has none. */
  method WalkBackups(ledger: Projects, name: string, list: array<Json>, details: Json -> ApiResult)
    returns (threw: bool)
    modifies ledger
    ensures ledger.collection == ApplyWrites(old(ledger.collection), name, RestoreWrites(list[..], details).writes)
    ensures threw == RestoreWrites(list[..], details).threw
  {
    ghost var walked := list[..];
    var i := 0;
    assert walked[..0] == [];
    while i < list.Length
      invariant 0 <= i <= list.Length
      invariant !RestoreWrites(walked[..i], details).threw
      invariant ledger.collection == ApplyWrites(old(ledger.collection), name, RestoreWrites(walked[..i], details).writes)
    {
      var id := Get(list[i], "id");
      ghost var done := RestoreWrites(walked[..i], details).writes;
      if RestoreWrite(walked[i], details).None? {
        RestoreStepThrows(walked, i, details);
      } else {
        RestoreStepWrites(walked, i, details);
      }
      threw := ledger.UpdateAddonBackup(name, id, Get(DataOf(details(id)), "restores"));
      if threw {
        return;
      }
      ghost var w := RestoreWrite(walked[i], details).value;
      ApplyWritesConcat(old(ledger.collection), name, done, [w]);
      ApplyWritesOne(ApplyWrites(old(ledger.collection), name, done), name, w);
      i := i + 1;
    }
    assert walked[..i] == walked;
    return false;
  }

  method GetAddonBackups(ledger: Projects, name: string, answer: ApiResult, details: Json -> ApiResult)
    returns (r: StepResult)
    modifies ledger
    ensures ledger.collection == ApplyWrites(old(ledger.collection), name, BackupsWrites(answer, details))
    ensures r == BackupsResult(answer, details)
  {
    if answer.Err? {
      return Failure(answer, "Could not get addon backups");
    }
    var backups := Get(answer.data, "backups");
    if !backups.Arr? {
      return Crashed;
    }
    var list := new Json[|backups.items|](i requires 0 <= i < |backups.items| => backups.items[i]);
    assert list[..] == backups.items;
    ledger.UpdateAddonBackups(name, list);
    ghost var head := [Detail("backups", Arr(list[..]))];
    ApplyWritesOne(old(ledger.collection), name, head[0]);
    ghost var middle := ledger.collection;
    var threw := WalkBackups(ledger, name, list, details);
    ApplyWritesConcat(old(ledger.collection), name, head, RestoreWrites(list[..], details).writes);
    if threw {
      return Crashed;
    }
    return Done(SetField(answer.data, "backups", Arr(list[..])));
  }
}

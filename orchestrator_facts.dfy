/** What a run of `main` guarantees, stated over `MainTrace`: how it ends,
    which block's results decide that, and which progress entries each
    block leaves behind. */
module OrchestratorFacts {
  import opened Values
  import opened HealthCodes
  import opened Ledger
  import opened Retry
  import opened Steps
  import opened Subdomain
  import opened Orchestrator

  /** No response in `ws` names `key`. */
  ghost predicate Untouched(ws: seq<Write>, key: string)
  {
    forall m :: 0 <= m < |ws| ==> !(ws[m].Response? && ws[m].key == key)
  }

  /** The writes of the first `k` blocks, in order. */
  function WritesBefore(ans: Answers, k: nat): seq<Write>
    requires k <= 5
  {
    if k == 0 then [] else WritesBefore(ans, k - 1) + StageAt(ans, k - 1).writes
  }

  /** The progress keys block `k` writes to. */
  function StageKeys(k: nat): set<string>
  {
    if k == 0 then {"project"}
    else if k == 1 then {"job", "service", "postgresql", "minio"}
    else if k == 2 then {"domain"}
    else if k == 3 then {"secrets"}
    else {"fetchMinio", "fetchPostgresql"}
  }

  // ---------------------------------------------------------------------
  // The shape of a run

  lemma {:induction false} PassesBefore(ans: Answers, i: nat, j: nat)
    requires i <= j <= 5 && Passes(ans, j)
    ensures Passes(ans, i)
    decreases j
  {
    if i < j {
      PassesBefore(ans, i, j - 1);
    }
  }

  /** Once the first `k` blocks pass, the run so far has made exactly their
      writes, in block order. */
  lemma {:induction false} RunPrefix(ans: Answers, k: nat)
    requires k <= 5 && Passes(ans, k)
    ensures MainTrace(ans) == Trace(WritesBefore(ans, k) + RunFrom(ans, k).writes, RunFrom(ans, k).launch)
  {
    if k == 0 {
      assert [] + RunFrom(ans, 0).writes == RunFrom(ans, 0).writes;
    } else {
      RunPrefix(ans, k - 1);
      var e := FirstError(StageAt(ans, k - 1).checked);
      TraceStep(MainTrace(ans), StageAt(ans, k - 1), RunFrom(ans, k), WritesBefore(ans, k - 1), e);
    }
  }

  /** Each block writes responses to its own keys only. */
  lemma StageWritesOwnKeys(ans: Answers, k: nat)
    requires k < 5
    ensures forall m :: 0 <= m < |StageAt(ans, k).writes| && StageAt(ans, k).writes[m].Response? ==>
      StageAt(ans, k).writes[m].key in StageKeys(k)
  {
  }

  /** The run from block `k` on ends ACCEPTED exactly when every block
      from `k` on passes its checks, and otherwise with a result that
      reports an error. */
  lemma {:induction false} RunFromOutcome(ans: Answers, k: nat)
    requires k <= 5 && Passes(ans, k)
    ensures RunFrom(ans, k).launch.Accepted? <==> Passes(ans, 5)
    ensures RunFrom(ans, k).launch.Stopped? ==> HasError(RunFrom(ans, k).launch.result)
    decreases 5 - k
  {
    if k < 5 {
      var e := FirstError(StageAt(ans, k).checked);
      if e.None? {
        RunFromOutcome(ans, k + 1);
      } else {
        if Passes(ans, 5) {
          PassesBefore(ans, k + 1, 5);
        }
      }
    }
  }

  /** `main` answers ACCEPTED exactly when every block's checks pass; any
      other answer is a step result that reports an error. */
  lemma MainOutcome(ans: Answers)
    ensures MainTrace(ans).launch.Accepted? <==> Passes(ans, 5)
    ensures MainTrace(ans).launch.Stopped? ==> HasError(MainTrace(ans).launch.result)
  {
    RunFromOutcome(ans, 0);
  }

  // ---------------------------------------------------------------------
  // Which block decides an entry

  /** The writes after block `k`: none when its checks fail, otherwise
      the rest of the run. */
  function Later(ans: Answers, k: nat): seq<Write>
    requires k < 5
  {
    if FirstError(StageAt(ans, k).checked).Some? then [] else RunFrom(ans, k + 1).writes
  }

  /** The writes of a run around one block, told without the blocks. */
  lemma Around(done: seq<Write>, w: seq<Write>, e: Option<StepResult>, run: Trace, rest: Trace, main: Trace, later: seq<Write>)
    requires main == Trace(done + run.writes, run.launch)
    requires run == if e.Some? then Trace(w, Ending(e.value)) else Trace(w + rest.writes, rest.launch)
    requires later == if e.Some? then [] else rest.writes
    ensures main.writes == done + w + later
    ensures e.Some? ==> main.writes == done + w
  {
    assert done + w + [] == done + w;
    assert done + (w + rest.writes) == done + w + rest.writes;
  }

  lemma WritesAround(ans: Answers, k: nat)
    requires k < 5 && Passes(ans, k)
    ensures MainTrace(ans).writes == WritesBefore(ans, k) + StageAt(ans, k).writes + Later(ans, k)
    ensures FirstError(StageAt(ans, k).checked).Some? ==>
      MainTrace(ans).writes == WritesBefore(ans, k) + StageAt(ans, k).writes
  {
    RunPrefix(ans, k);
    Around(WritesBefore(ans, k), StageAt(ans, k).writes, FirstError(StageAt(ans, k).checked),
           RunFrom(ans, k), RunFrom(ans, k + 1), MainTrace(ans), Later(ans, k));
  }

  lemma {:induction false} RunFromUntouched(ans: Answers, k: nat, key: string)
    requires k <= 5
    requires forall j :: k <= j < 5 ==> key !in StageKeys(j)
    ensures Untouched(RunFrom(ans, k).writes, key)
    decreases 5 - k
  {
    if k < 5 {
      StageWritesOwnKeys(ans, k);
      RunFromUntouched(ans, k + 1, key);
    }
  }

  lemma LaterUntouched(ans: Answers, k: nat, key: string)
    requires k < 5
    requires forall j :: k < j < 5 ==> key !in StageKeys(j)
    ensures Untouched(Later(ans, k), key)
  {
    if FirstError(StageAt(ans, k).checked).None? {
      RunFromUntouched(ans, k + 1, key);
    }
  }

  /** A key that no later block writes keeps what block `k` last wrote to
      it, whatever happens afterwards. */
  lemma BlockDecides(ans: Answers, k: nat, key: string, docs: seq<Project>, name: string)
    requires k < 5 && Passes(ans, k)
    requires forall j :: k < j < 5 ==> key !in StageKeys(j)
    requires LastResponse(StageAt(ans, k).writes, key).Some?
    ensures Entry(ApplyWrites(docs, name, MainTrace(ans).writes), name, key) ==
      Overlay(Entry(docs, name, key), LastResponse(StageAt(ans, k).writes, key))
  {
    var before, w, after := WritesBefore(ans, k), StageAt(ans, k).writes, Later(ans, k);
    WritesAround(ans, k);
    LaterUntouched(ans, k, key);
    LastResponseConcat(before + w, after, key);
    LastResponseConcat(before, w, key);
    EntryAfterWrites(docs, name, MainTrace(ans).writes, key);
  }

  /** The last response to `key` in `a + [w] + r`, when `r` has none, is `w`. */
  lemma LastIs(a: seq<Write>, w: Write, r: seq<Write>, key: string)
    requires w.Response? && w.key == key && Untouched(r, key)
    ensures LastResponse(a + [w] + r, key) == Some(w)
  {
    LastResponseConcat(a + [w], r, key);
    LastResponseConcat(a, [w], key);
  }

  /** An entry no write names stays as it was. */
  lemma UntouchedEntry(docs: seq<Project>, name: string, ws: seq<Write>, key: string)
    requires Untouched(ws, key)
    ensures Entry(ApplyWrites(docs, name, ws), name, key) == Entry(docs, name, key)
  {
    EntryAfterWrites(docs, name, ws, key);
  }

  /** The response a step records for `answer`: the raw status and message
      of a failed call, or `okHealth` without a message. */
  function Recorded(key: string, okHealth: int, answer: ApiResult): (w: Write)
    ensures w.Response? && w.key == key
  {
    if answer.Err? then Response(key, answer.status, Some(answer.message)) else Response(key, okHealth, None)
  }

  // ---------------------------------------------------------------------
  // The blocks of `main`, one by one

  /** A project that fails ends the run with its own error, and one that
      answers nothing makes `main` throw: the project entry shows the
      failure (or SUCCESS, when the call answered at all) and no other
      entry changes. */
  lemma ProjectFailureStops(ans: Answers, docs: seq<Project>, name: string)
    requires Halts(ProjectResult(ans))
    ensures MainTrace(ans).launch == Ending(ProjectResult(ans))
    ensures Entry(ApplyWrites(docs, name, MainTrace(ans).writes), name, "project") ==
      Overlay(Entry(docs, name, "project"), Some(Recorded("project", SUCCESS, ans.project)))
    ensures forall key :: key != "project" ==>
      Entry(ApplyWrites(docs, name, MainTrace(ans).writes), name, key) == Entry(docs, name, key)
  {
    ProjectStops(ans);
    ProjectWritesEntries(docs, name, ans.project);
  }

  /** A project that halts the run is the whole run. */
  lemma ProjectStops(ans: Answers)
    requires Halts(ProjectResult(ans))
    ensures MainTrace(ans) == Trace(ProjectStage(ans).writes, Ending(ProjectResult(ans)))
  {
    FirstErrorAt(ProjectStage(ans).checked, 0);
  }

  /** A project call that answers without data makes `main` throw at its
      first check: the run is the project block and nothing after it. */
  lemma ProjectWithoutDataAborts(ans: Answers)
    requires ans.project == Ok(Null)
    ensures !Passes(ans, 1)
    ensures MainTrace(ans) == Trace(ProjectStage(ans).writes, Aborted)
  {
    ProjectStops(ans);
    SingleCheck(ProjectResult(ans));
  }

  /** What the project block's writes do to the entries of a ledger. */
  lemma ProjectWritesEntries(docs: seq<Project>, name: string, answer: ApiResult)
    ensures var ws := [Started("project")] + CreationWrites("project", SUCCESS, answer);
      Entry(ApplyWrites(docs, name, ws), name, "project") ==
        Overlay(Entry(docs, name, "project"), Some(Recorded("project", SUCCESS, answer))) &&
      forall key :: key != "project" ==> Entry(ApplyWrites(docs, name, ws), name, key) == Entry(docs, name, key)
  {
    var ws := [Started("project")] + CreationWrites("project", SUCCESS, answer);
    assert ws == [Started("project")] + [Recorded("project", SUCCESS, answer)] + [];
    LastIs([Started("project")], Recorded("project", SUCCESS, answer), [], "project");
    EntryAfterWrites(docs, name, ws, "project");
    forall key | key != "project"
      ensures Entry(ApplyWrites(docs, name, ws), name, key) == Entry(docs, name, key)
    {
      UntouchedEntry(docs, name, ws, key);
    }
  }

  /** After the project, the four creations' results are checked job,
      service, PostgreSQL, MinIO, and the first that reports an error ends
      the run. */
  lemma CreateChecksInOrder(ans: Answers)
    requires Passes(ans, 1)
    ensures Passes(ans, 2) <==>
      !Halts(JobResult(ans)) && !Halts(ServiceResult(ans)) &&
      !Halts(PostgresqlResult(ans)) && !Halts(MinioResult(ans))
    ensures !Passes(ans, 2) ==>
      MainTrace(ans).launch ==
        (if Halts(JobResult(ans)) then Ending(JobResult(ans))
         else if Halts(ServiceResult(ans)) then Ending(ServiceResult(ans))
         else if Halts(PostgresqlResult(ans)) then Ending(PostgresqlResult(ans))
         else Ending(MinioResult(ans)))
  {
    var c := CreateStage(ans).checked;
    if Halts(c[0]) {
      FirstErrorAt(c, 0);
    } else if Halts(c[1]) {
      FirstErrorAt(c, 1);
    } else if Halts(c[2]) {
      FirstErrorAt(c, 2);
    } else if Halts(c[3]) {
      FirstErrorAt(c, 3);
    } else {
      FirstErrorAt(c, 4);
    }
    RunPrefix(ans, 1);
  }

  /** Appending one write changes the last response of its own key only. */
  lemma LastSnoc(ws: seq<Write>, w: Write)
    ensures forall key :: LastResponse(ws + [w], key) ==
                          if w.Response? && w.key == key then Some(w) else LastResponse(ws, key)
  {
    assert (ws + [w])[..|ws|] == ws;
  }

  /** The last response to each of four distinct keys written after some
      marks is the one written to it. */
  lemma FourLast(marks: seq<Write>, j: Write, v: Write, p: Write, m: Write)
    requires j.Response? && v.Response? && p.Response? && m.Response?
    requires j.key != v.key && j.key != p.key && j.key != m.key && v.key != p.key && v.key != m.key && p.key != m.key
    ensures LastResponse(marks + [j] + [v] + [p] + [m], j.key) == Some(j)
    ensures LastResponse(marks + [j] + [v] + [p] + [m], v.key) == Some(v)
    ensures LastResponse(marks + [j] + [v] + [p] + [m], p.key) == Some(p)
    ensures LastResponse(marks + [j] + [v] + [p] + [m], m.key) == Some(m)
  {
    LastSnoc(marks, j);
    LastSnoc(marks + [j], v);
    LastSnoc(marks + [j] + [v], p);
    LastSnoc(marks + [j] + [v] + [p], m);
  }

  /** No block after the creations writes a creation key. */
  lemma CreationKeysLater(key: string)
    requires key in StageKeys(1)
    ensures forall j :: 1 < j < 5 ==> key !in StageKeys(j)
  {
  }

  /** What the creation of `key` records: the creation call's outcome,
      with the success code of that resource. */
  function CreationRecord(ans: Answers, key: string): Write
  {
    if key == "job" then Recorded("job", SUCCESS, RetriedAnswer(CallOptions, ans.job))
    else if key == "service" then Recorded("service", IN_PROGRESS, RetriedAnswer(CallOptions, ans.service))
    else if key == "postgresql" then Recorded("postgresql", DEPLOYING, RetriedAnswer(CallOptions, ans.postgresql))
    else Recorded("minio", DEPLOYING, RetriedAnswer(CallOptions, ans.minio))
  }

  lemma CreationIsRecorded(key: string, okHealth: int, answer: ApiResult)
    ensures CreationWrites(key, okHealth, answer) == [Recorded(key, okHealth, answer)]
  {
  }

  lemma CreateStageLast(ans: Answers)
    ensures LastResponse(CreateStage(ans).writes, "job") == Some(CreationRecord(ans, "job"))
    ensures LastResponse(CreateStage(ans).writes, "service") == Some(CreationRecord(ans, "service"))
    ensures LastResponse(CreateStage(ans).writes, "postgresql") == Some(CreationRecord(ans, "postgresql"))
    ensures LastResponse(CreateStage(ans).writes, "minio") == Some(CreationRecord(ans, "minio"))
  {
    var marks := [Started("job"), Started("service"), Started("postgresql"), Started("minio")];
    CreationIsRecorded("job", SUCCESS, RetriedAnswer(CallOptions, ans.job));
    CreationIsRecorded("service", IN_PROGRESS, RetriedAnswer(CallOptions, ans.service));
    CreationIsRecorded("postgresql", DEPLOYING, RetriedAnswer(CallOptions, ans.postgresql));
    CreationIsRecorded("minio", DEPLOYING, RetriedAnswer(CallOptions, ans.minio));
    FourLast(marks, CreationRecord(ans, "job"), CreationRecord(ans, "service"),
             CreationRecord(ans, "postgresql"), CreationRecord(ans, "minio"));
  }

  /** Once the project exists, all four creations run whatever each of them
      answers: the entry of each shows its own call's outcome, and no later
      block overwrites it. */
  lemma CreationsAllRecorded(ans: Answers, docs: seq<Project>, name: string)
    requires Passes(ans, 1)
    ensures var after := ApplyWrites(docs, name, MainTrace(ans).writes);
      Entry(after, name, "job") == Overlay(Entry(docs, name, "job"), Some(CreationRecord(ans, "job"))) &&
      Entry(after, name, "service") == Overlay(Entry(docs, name, "service"), Some(CreationRecord(ans, "service"))) &&
      Entry(after, name, "postgresql") == Overlay(Entry(docs, name, "postgresql"), Some(CreationRecord(ans, "postgresql"))) &&
      Entry(after, name, "minio") == Overlay(Entry(docs, name, "minio"), Some(CreationRecord(ans, "minio")))
  {
    CreateStageLast(ans);
    assert StageAt(ans, 1) == CreateStage(ans);
    CreationKeysLater("job");
    CreationKeysLater("service");
    CreationKeysLater("postgresql");
    CreationKeysLater("minio");
    BlockDecides(ans, 1, "job", docs, name);
    BlockDecides(ans, 1, "service", docs, name);
    BlockDecides(ans, 1, "postgresql", docs, name);
    BlockDecides(ans, 1, "minio", docs, name);
  }

  /** A run that stops at the project or the creations made only the writes
      of those blocks. */
  lemma EarlyStop(ans: Answers)
    requires !Passes(ans, 2)
    ensures !MainTrace(ans).launch.Accepted?
    ensures MainTrace(ans).writes == StageAt(ans, 0).writes ||
            MainTrace(ans).writes == StageAt(ans, 0).writes + StageAt(ans, 1).writes
  {
    MainOutcome(ans);
    if Passes(ans, 5) {
      PassesBefore(ans, 2, 5);
    }
    if Passes(ans, 1) {
      WritesAround(ans, 1);
      assert WritesBefore(ans, 1) == [] + StageAt(ans, 0).writes;
    } else {
      assert Passes(ans, 0);
      WritesAround(ans, 0);
      assert [] + StageAt(ans, 0).writes == StageAt(ans, 0).writes;
    }
  }

  /** Keys that neither of two blocks writes keep their entries. */
  lemma EarlyUntouched(docs: seq<Project>, name: string, a: seq<Write>, b: seq<Write>, ws: seq<Write>, key: string)
    requires ws == a || ws == a + b
    requires Untouched(a, key) && Untouched(b, key)
    ensures Entry(ApplyWrites(docs, name, ws), name, key) == Entry(docs, name, key)
  {
    if ws != a {
      forall m | 0 <= m < |ws|
        ensures !(ws[m].Response? && ws[m].key == key)
      {
        if m >= |a| {
          assert ws[m] == b[m - |a|];
        }
      }
    }
    UntouchedEntry(docs, name, ws, key);
  }

  /** A key outside a block's own keys is not written by the block. */
  lemma StageLeaves(ans: Answers, k: nat, key: string)
    requires k < 5 && key !in StageKeys(k)
    ensures Untouched(StageAt(ans, k).writes, key)
  {
    StageWritesOwnKeys(ans, k);
  }

  /** A failure of the project or of a creation ends the run before the
      domain, the secret group and the credential fetches: their entries
      are not touched, and no poller is started. */
  lemma EarlyFailureSkipsLaterBlocks(ans: Answers, key: string, docs: seq<Project>, name: string)
    requires !Passes(ans, 2) && key in {"domain", "secrets", "fetchMinio", "fetchPostgresql"}
    ensures !MainTrace(ans).launch.Accepted?
    ensures Entry(ApplyWrites(docs, name, MainTrace(ans).writes), name, key) == Entry(docs, name, key)
  {
    StageLeaves(ans, 0, key);
    StageLeaves(ans, 1, key);
    EarlyStop(ans);
    EarlyUntouched(docs, name, StageAt(ans, 0).writes, StageAt(ans, 1).writes, MainTrace(ans).writes, key);
  }

  // ---------------------------------------------------------------------
  // The domain

  /** A block with one checked result passes exactly when that result
      does not halt the run. */
  lemma SingleCheck(r: StepResult)
    ensures FirstError([r]).None? <==> !Halts(r)
  {
    if !Halts(r) {
      FirstErrorAt([r], 1);
    }
  }

  /** What the domain entry ends with after the domain block: the error of
      a failed registration; IN_PROGRESS still, when the registration
      answered nothing or an `error` field; VERIFYING once the DNS record is
      created; status 500 with the Cloudflare message when it is not. */
  function DomainRecord(add: ApiResult, cloudflareSuccess: bool): (w: Write)
    ensures w.Response? && w.key == "domain"
  {
    if add.Err? then Response("domain", add.status, Some(add.message))
    else if add.data == Null || Truthy(Get(add.data, "error")) then Started("domain")
    else if cloudflareSuccess then Response("domain", VERIFYING, None)
    else Response("domain", CLOUDFLARE_FAILURE_STATUS, Some(CloudflareFailureMessage))
  }

  lemma DomainLast(add: ApiResult, cloudflareSuccess: bool)
    ensures LastResponse([Started("domain")] + AddSubdomainWrites(add, cloudflareSuccess), "domain") ==
      Some(DomainRecord(add, cloudflareSuccess))
  {
    var ws := AddSubdomainWrites(add, cloudflareSuccess);
    var w := DomainRecord(add, cloudflareSuccess);
    if add.Ok? && (add.data == Null || Truthy(Get(add.data, "error"))) {
      assert ws == [] && w == Started("domain");
      assert [Started("domain")] + ws == [] + [w];
      LastSnoc([], w);
    } else {
      assert ws == [w];
      LastSnoc([Started("domain")], w);
    }
  }

  /** Once the resources are created, the run goes past the domain block
      exactly when the registration answers data without an `error` field;
      whether the DNS record was created does not matter. A registration
      that answers nothing makes `main` throw. */
  lemma DomainCheck(ans: Answers)
    requires Passes(ans, 2)
    ensures Passes(ans, 3) <==> Registered(ans.subdomain)
    ensures ans.subdomain == Ok(Null) ==> MainTrace(ans).launch == Aborted
  {
    SingleCheck(AddSubdomainResult(ans.subdomain));
    assert StageAt(ans, 2).checked == [AddSubdomainResult(ans.subdomain)];
    if ans.subdomain == Ok(Null) {
      FirstErrorAt(StageAt(ans, 2).checked, 0);
      RunPrefix(ans, 2);
    }
  }

  /** The domain entry is decided by the domain block alone. */
  lemma DomainRecorded(ans: Answers, docs: seq<Project>, name: string)
    requires Passes(ans, 2)
    ensures Entry(ApplyWrites(docs, name, MainTrace(ans).writes), name, "domain") ==
      Overlay(Entry(docs, name, "domain"), Some(DomainRecord(ans.subdomain, ans.cloudflareSuccess)))
  {
    DomainLast(ans.subdomain, ans.cloudflareSuccess);
    assert StageAt(ans, 2) == DomainStage(ans);
    BlockDecides(ans, 2, "domain", docs, name);
  }

  // ---------------------------------------------------------------------
  // The secret group

  /** A block whose checks pass has no result that halts the run. */
  lemma PassedChecks(rs: seq<StepResult>)
    requires FirstError(rs).None?
    ensures forall j :: 0 <= j < |rs| ==> !Halts(rs[j])
  {
  }

  /** When the creations pass, the secret group is asked to link the `id`
      fields of the data the MinIO and PostgreSQL creation calls answered
      with. */
  lemma SecretLinksAddonIds(ans: Answers)
    requires Passes(ans, 2)
    ensures RetriedAnswer(CallOptions, ans.minio).Ok? && RetriedAnswer(CallOptions, ans.postgresql).Ok?
    ensures SecretAnswer(ans) == RetriedAnswer(CallOptions, ans.secrets(SecretRequest(
      Get(RetriedAnswer(CallOptions, ans.minio).data, "id"),
      Get(RetriedAnswer(CallOptions, ans.postgresql).data, "id"))))
  {
    var c := StageAt(ans, 1).checked;
    PassedChecks(c);
    assert c == [JobResult(ans), ServiceResult(ans), PostgresqlResult(ans), MinioResult(ans)];
    assert !Halts(c[2]) && !Halts(c[3]);
  }

  lemma SecretBlockLast(ans: Answers)
    ensures LastResponse(StageAt(ans, 3).writes, "secrets") == Some(Recorded("secrets", SUCCESS, SecretAnswer(ans)))
  {
    CreationIsRecorded("secrets", SUCCESS, SecretAnswer(ans));
    LastSnoc([Started("secrets")], Recorded("secrets", SUCCESS, SecretAnswer(ans)));
    assert StageAt(ans, 3) == SecretStage(ans);
  }

  /** The secrets entry shows the outcome of the secret group call. */
  lemma SecretRecorded(ans: Answers, docs: seq<Project>, name: string)
    requires Passes(ans, 3)
    ensures Entry(ApplyWrites(docs, name, MainTrace(ans).writes), name, "secrets") ==
      Overlay(Entry(docs, name, "secrets"), Some(Recorded("secrets", SUCCESS, SecretAnswer(ans))))
  {
    SecretBlockLast(ans);
    BlockDecides(ans, 3, "secrets", docs, name);
  }

  // ---------------------------------------------------------------------
  // The credential fetches

  /** A fetch ends its key with the response a creation would record with
      SUCCESS, and names no other key. */
  lemma FetchIsRecorded(ws: seq<Write>, key: string, field: string, answer: ApiResult)
    ensures forall k :: LastResponse(ws + FetchWrites(key, field, answer), k) ==
                        if k == key then Some(Recorded(key, SUCCESS, answer)) else LastResponse(ws, k)
  {
    if answer.Ok? {
      var d := Detail(field, answer.data);
      assert ws + FetchWrites(key, field, answer) == ws + [d] + [Response(key, SUCCESS, None)];
      LastSnoc(ws, d);
      LastSnoc(ws + [d], Response(key, SUCCESS, None));
    } else {
      LastSnoc(ws, Response(key, answer.status, Some(answer.message)));
    }
  }

  lemma FetchBlockLast(ans: Answers)
    ensures LastResponse(StageAt(ans, 4).writes, "fetchPostgresql") ==
      Some(Recorded("fetchPostgresql", SUCCESS, ans.postgresqlCredentials))
    ensures LastResponse(StageAt(ans, 4).writes, "fetchMinio") ==
      Some(Recorded("fetchMinio", SUCCESS, ans.minioCredentials))
  {
    var marks := [Started("fetchMinio"), Started("fetchPostgresql")];
    var first := marks + FetchWrites("fetchPostgresql", "postgresqlConnectionDetails", ans.postgresqlCredentials);
    FetchIsRecorded(marks, "fetchPostgresql", "postgresqlConnectionDetails", ans.postgresqlCredentials);
    FetchIsRecorded(first, "fetchMinio", "minioConnectionDetails", ans.minioCredentials);
    assert StageAt(ans, 4) == FetchStage(ans);
  }

  /** Both fetches run before either result is checked: each entry shows
      its own fetch's outcome. */
  lemma CredentialsRecorded(ans: Answers, docs: seq<Project>, name: string)
    requires Passes(ans, 4)
    ensures Entry(ApplyWrites(docs, name, MainTrace(ans).writes), name, "fetchPostgresql") ==
      Overlay(Entry(docs, name, "fetchPostgresql"), Some(Recorded("fetchPostgresql", SUCCESS, ans.postgresqlCredentials)))
    ensures Entry(ApplyWrites(docs, name, MainTrace(ans).writes), name, "fetchMinio") ==
      Overlay(Entry(docs, name, "fetchMinio"), Some(Recorded("fetchMinio", SUCCESS, ans.minioCredentials)))
  {
    FetchBlockLast(ans);
    BlockDecides(ans, 4, "fetchPostgresql", docs, name);
    BlockDecides(ans, 4, "fetchMinio", docs, name);
  }

  /** The last checks: the PostgreSQL credentials first, then MinIO's;
      when both pass, `main` answers ACCEPTED. */
  lemma CredentialChecksInOrder(ans: Answers)
    requires Passes(ans, 4)
    ensures MainTrace(ans).launch ==
      if Halts(PostgresqlCredentialsResult(ans)) then Ending(PostgresqlCredentialsResult(ans))
      else if Halts(MinioCredentialsResult(ans)) then Ending(MinioCredentialsResult(ans))
      else Accepted
  {
    var c := StageAt(ans, 4).checked;
    assert c == [PostgresqlCredentialsResult(ans), MinioCredentialsResult(ans)];
    if Halts(c[0]) {
      FirstErrorAt(c, 0);
    } else if Halts(c[1]) {
      FirstErrorAt(c, 1);
    } else {
      FirstErrorAt(c, 2);
    }
    RunPrefix(ans, 4);
  }
}

/** `addSubdomain` of api/strapi.js: registering the project's subdomain,
    the Cloudflare record, and the verification poller that assigns the
    subdomain to the service once the domain verifies. */
module Subdomain {
  import opened Values
  import opened HealthCodes
  import opened Ledger
  import opened Database
  import opened Steps

  /** The message written when the DNS record cannot be created. */
  const CloudflareFailureMessage: string := "Could not configure domain on Cloudflare"

  /** The last tick number at which a failed verification keeps polling. */
  const MaxVerifyAttempts: int := 10

  // ---------------------------------------------------------------------
  // Registering the subdomain

  /** The writes of `addSubdomain` itself: the error of a failed
      registration; after a registration, VERIFYING when the DNS record was
      created and the literal status 500 when it was not. An answer
      without data throws a TypeError at the `error` test, before any
      write. */
  function AddSubdomainWrites(add: ApiResult, cloudflareSuccess: bool): seq<Write>
  {
    if add.Err? then [Response("domain", add.status, Some(add.message))]
    else if add.data == Null || Truthy(Get(add.data, "error")) then []
    else if cloudflareSuccess then [Response("domain", VERIFYING, None)]
    else [Response("domain", CLOUDFLARE_FAILURE_STATUS, Some(CloudflareFailureMessage))]
  }

  /** Whether the registration answered data without an error of its own. */
  predicate Registered(add: ApiResult)
  {
    add.Ok? && add.data != Null && !Truthy(Get(add.data, "error"))
  }

  /** Whether the verification poller is started. */
  predicate Arms(add: ApiResult, cloudflareSuccess: bool)
  {
    Registered(add) && cloudflareSuccess
  }

  /** What `addSubdomain` returns: the registration's own result, whatever
      happened with the DNS record; it throws on an answer without data. */
  function AddSubdomainResult(add: ApiResult): StepResult
  {
    if add.Err? then Failure(add, "Could not add subdomain")
    else if add.data == Null then Crashed
    else Done(add.data)
  }

  /** The domain entry after `addSubdomain`, and its result: a failed
      registration is reported as an error and recorded; a failed DNS
      record shows in the ledger only; a created record starts the poller
      and the entry says VERIFYING; an answer without data, or one carrying
      its own error, leaves the entry as it was, and the first throws. */
  lemma AddSubdomainEffect(docs: seq<Project>, name: string, add: ApiResult, cloudflareSuccess: bool)
    requires Entry(docs, name, "domain").Some?
    ensures var e := Entry(ApplyWrites(docs, name, AddSubdomainWrites(add, cloudflareSuccess)), name, "domain");
      e.Some? &&
      (add.Err? ==> e.value.health == add.status && e.value.message == Some(add.message)) &&
      (add.Ok? && (add.data == Null || Truthy(Get(add.data, "error"))) ==> e == Entry(docs, name, "domain")) &&
      (Registered(add) && !cloudflareSuccess ==>
        e.value.health == CLOUDFLARE_FAILURE_STATUS && e.value.message == Some(CloudflareFailureMessage)) &&
      (Arms(add, cloudflareSuccess) ==> e.value.health == VERIFYING)
    ensures HasError(AddSubdomainResult(add)) <==> add.Err? || (add.data != Null && Truthy(Get(add.data, "error")))
    ensures AddSubdomainResult(add) == Crashed <==> add == Ok(Null)
  {
    EntryAfterWrites(docs, name, AddSubdomainWrites(add, cloudflareSuccess), "domain");
  }

  /** `addSubdomain`. `add` answers the registration and `cloudflareSuccess`
      is the `success` flag of the DNS record call; the poller is returned
      when the interval is started. */
  method AddSubdomain(ledger: Projects, name: string, add: ApiResult, cloudflareSuccess: bool)
    returns (r: StepResult, poller: DomainVerification?)
    modifies ledger
    ensures ledger.collection == ApplyWrites(old(ledger.collection), name, AddSubdomainWrites(add, cloudflareSuccess))
    ensures r == AddSubdomainResult(add)
    ensures (poller != null) == Arms(add, cloudflareSuccess)
    ensures poller != null ==> fresh(poller) && poller.attempts == 0 && poller.polling
  {
    poller := null;
    if add.Err? {
      var _ := ledger.AddNewResponse(name, "domain", add.status, Some(add.message));
      ApplyWritesOne(old(ledger.collection), name, Response("domain", add.status, Some(add.message)));
      return Failure(add, "Could not add subdomain"), null;
    }
    if add.data == Null {
      return Crashed, null;
    }
    r := Done(add.data);
    if !Truthy(Get(add.data, "error")) {
      if cloudflareSuccess {
        var _ := ledger.AddNewResponse(name, "domain", VERIFYING, None);
        ApplyWritesOne(old(ledger.collection), name, Response("domain", VERIFYING, None));
        poller := new DomainVerification();
      } else {
        var _ := ledger.AddNewResponse(name, "domain", CLOUDFLARE_FAILURE_STATUS, Some(CloudflareFailureMessage));
        ApplyWritesOne(old(ledger.collection), name, Response("domain", CLOUDFLARE_FAILURE_STATUS, Some(CloudflareFailureMessage)));
      }
    }
  }

  // ---------------------------------------------------------------------
  // Assigning the subdomain to the service

  /** How an assignment ends: the API's data, the error object, or still
      retrying when every answer seen so far was a 404. */
  datatype AssignOutcome =
    | Assigned(data: Json)
    | Refused(code: int, message: string, apiResponse: string)
    | StillRetrying

  /** The writes of the assignment for the answers to its successive calls:
      each error is recorded, a 404 calls again, anything else ends it. */
  function AssignWrites(answers: seq<ApiResult>): seq<Write>
    decreases |answers|
  {
    if answers == [] then []
    else
      var a := answers[0];
      if a.Ok? then [Response("domain", SUCCESS, None)]
      else if a.status == NOT_FOUND_STATUS then [Response("domain", a.status, Some(a.message))] + AssignWrites(answers[1..])
      else [Response("domain", a.status, Some(a.message))]
  }

  function AssignResult(answers: seq<ApiResult>): AssignOutcome
    decreases |answers|
  {
    if answers == [] then StillRetrying
    else
      var a := answers[0];
      if a.Ok? then Assigned(a.data)
      else if a.status == NOT_FOUND_STATUS then AssignResult(answers[1..])
      else Refused(a.status, "Could not assign subdomain to the service", a.message)
  }

  /** The index of the first answer that is not a 404 error. */
  function FirstDecisive(answers: seq<ApiResult>): (k: nat)
    ensures k <= |answers|
    ensures forall i :: 0 <= i < k ==> answers[i].Err? && answers[i].status == NOT_FOUND_STATUS
    ensures k < |answers| ==> !(answers[k].Err? && answers[k].status == NOT_FOUND_STATUS)
    decreases |answers|
  {
    if answers == [] || !(answers[0].Err? && answers[0].status == NOT_FOUND_STATUS) then 0
    else 1 + FirstDecisive(answers[1..])
  }

  /** The assignment writes one domain entry per call it makes: the 404s
      before the first other answer, then that answer, which decides the
      outcome; with nothing but 404s it is still retrying. */
  lemma {:induction false} AssignMeaning(answers: seq<ApiResult>)
    ensures var k := FirstDecisive(answers);
      var ws := AssignWrites(answers);
      |ws| == (if k < |answers| then k + 1 else k) &&
      (forall i :: 0 <= i < |ws| && answers[i].Err? ==>
        ws[i] == Response("domain", answers[i].status, Some(answers[i].message))) &&
      (forall i :: 0 <= i < |ws| && answers[i].Ok? ==> ws[i] == Response("domain", SUCCESS, None)) &&
      AssignResult(answers) ==
        (if k == |answers| then StillRetrying
         else if answers[k].Ok? then Assigned(answers[k].data)
         else Refused(answers[k].status, "Could not assign subdomain to the service", answers[k].message))
    decreases |answers|
  {
    if answers != [] && answers[0].Err? && answers[0].status == NOT_FOUND_STATUS {
      AssignMeaning(answers[1..]);
      var ws := AssignWrites(answers);
      assert forall i :: 1 <= i < |ws| ==> ws[i] == AssignWrites(answers[1..])[i - 1] && answers[i] == answers[1..][i - 1];
    }
  }

  /** `assignSubdomainToService`, its recursion on 404 written as a loop over
      the answers of its successive calls (all made with the same port). */
  method AssignSubdomainToService(ledger: Projects, name: string, answers: seq<ApiResult>)
    returns (r: AssignOutcome)
    modifies ledger
    ensures ledger.collection == ApplyWrites(old(ledger.collection), name, AssignWrites(answers))
    ensures r == AssignResult(answers)
  {
    var i := 0;
    while i < |answers|
      invariant 0 <= i <= |answers|
      invariant AssignWrites(answers) == AssignWrites(answers[..i]) + AssignWrites(answers[i..])
      invariant AssignResult(answers) == AssignResult(answers[i..])
      invariant ledger.collection == ApplyWrites(old(ledger.collection), name, AssignWrites(answers[..i]))
      invariant forall m :: 0 <= m < i ==> answers[m].Err? && answers[m].status == NOT_FOUND_STATUS
      decreases |answers| - i
    {
      var a := answers[i];
      ghost var done := AssignWrites(answers[..i]);
      assert answers[i..][1..] == answers[i + 1..];
      if a.Ok? {
        var _ := ledger.AddNewResponse(name, "domain", SUCCESS, None);
        ApplyWritesConcat(old(ledger.collection), name, done, [Response("domain", SUCCESS, None)]);
        ApplyWritesOne(ApplyWrites(old(ledger.collection), name, done), name, Response("domain", SUCCESS, None));
        return Assigned(a.data);
      }
      var _ := ledger.AddNewResponse(name, "domain", a.status, Some(a.message));
      ghost var w := Response("domain", a.status, Some(a.message));
      ApplyWritesConcat(old(ledger.collection), name, done, [w]);
      ApplyWritesOne(ApplyWrites(old(ledger.collection), name, done), name, w);
      if a.status != NOT_FOUND_STATUS {
        return Refused(a.status, "Could not assign subdomain to the service", a.message);
      }
      AssignPrefix(answers, i);
      i := i + 1;
    }
    assert answers[..i] == answers && answers[i..] == [];
    return StillRetrying;
  }

  /** Extending the 404 prefix by one answer adds that answer's write. */
  lemma {:induction false} AssignPrefix(answers: seq<ApiResult>, i: nat)
    requires i < |answers|
    requires forall m :: 0 <= m <= i ==> answers[m].Err? && answers[m].status == NOT_FOUND_STATUS
    ensures AssignWrites(answers[..i + 1]) ==
      AssignWrites(answers[..i]) + [Response("domain", answers[i].status, Some(answers[i].message))]
    ensures AssignWrites(answers[..i + 1]) + AssignWrites(answers[i + 1..]) == AssignWrites(answers[..i]) + AssignWrites(answers[i..])
    decreases i
  {
    var p := answers[..i + 1];
    if i > 0 {
      AssignPrefix(answers[1..], i - 1);
      assert answers[1..][..i] == p[1..];
      assert answers[1..][..i - 1] == answers[..i][1..];
      assert answers[1..][i..] == answers[i + 1..];
      assert answers[1..][i - 1..] == answers[i..];
    } else {
      assert p[1..] == [];
    }
  }

  // ---------------------------------------------------------------------
  // The verification poller

  /** The port the subdomain is assigned to: `servicePorts?.ports?.[0]?.name`. */
  function FirstPortName(ports: ApiResult): (port: Json)
    ensures port != Null ==> ports.Ok? && Get(ports.data, "ports").Arr? && |Get(ports.data, "ports").items| > 0
    ensures ports.Ok? && Get(ports.data, "ports").Arr? && |Get(ports.data, "ports").items| > 0 ==>
              port == Get(Get(ports.data, "ports").items[0], "name")
  {
    Get(At(Get(DataOf(ports), "ports"), 0), "name")
  }

  /** Whether tick number `attempts` (counted from 1) clears the interval,
      given the assignment's outcome on a verified domain. */
  predicate TickStops(attempts: int, verify: ApiResult, outcome: AssignOutcome)
  {
    (verify.Err? && attempts > MaxVerifyAttempts) ||
    (verify.Ok? && Truthy(verify.data) && !outcome.StillRetrying?)
  }

  /** The writes of tick number `attempts`: the error once the attempts are
      used up; on a verified domain, those of the assignment; else nothing. */
  function TickWrites(attempts: int, verify: ApiResult, assignAnswers: seq<ApiResult>): seq<Write>
  {
    if verify.Err? && attempts > MaxVerifyAttempts then [Response("domain", verify.status, Some(verify.message))]
    else if verify.Ok? && Truthy(verify.data) then AssignWrites(assignAnswers)
    else []
  }

  /** The interval started by `addSubdomain`, with its `attempts` counter. */
  class DomainVerification {
    var attempts: int
    var polling: bool

    constructor ()
      ensures attempts == 0 && polling
    {
      attempts := 0;
      polling := true;
    }

    /** One run of `verifySubdomainOnNorthflank`. `verify` answers the
        verification call, `ports` the port listing, and `assign(port)` the
        successive assignment calls made with `port`. */
    method Tick(ledger: Projects, name: string, verify: ApiResult, ports: ApiResult, assign: Json -> seq<ApiResult>)
      returns (outcome: AssignOutcome)
      requires polling
      modifies this, ledger
      ensures attempts == old(attempts) + 1
      ensures outcome == (if verify.Ok? && Truthy(verify.data) then AssignResult(assign(FirstPortName(ports))) else StillRetrying)
      ensures ledger.collection == ApplyWrites(old(ledger.collection), name, TickWrites(attempts, verify, assign(FirstPortName(ports))))
      ensures polling == !TickStops(attempts, verify, outcome)
    {
      attempts := attempts + 1;
      if verify.Err? && attempts > MaxVerifyAttempts {
        polling := false;
        var _ := ledger.AddNewResponse(name, "domain", verify.status, Some(verify.message));
        ApplyWritesOne(old(ledger.collection), name, Response("domain", verify.status, Some(verify.message)));
        return StillRetrying;
      }
      if verify.Ok? && Truthy(verify.data) {
        outcome := AssignSubdomainToService(ledger, name, assign(FirstPortName(ports)));
        polling := outcome.StillRetrying?;
        return;
      }
      return StillRetrying;
    }
  }

  /** How many ticks a poller that has made `attempts` ticks makes before it
      clears its interval, given the verification answers of the next ticks
      (all of them if it never does). */
  function TicksUntilStop(attempts: int, verifies: seq<ApiResult>, outcome: AssignOutcome): nat
    decreases |verifies|
  {
    if verifies == [] then 0
    else if TickStops(attempts + 1, verifies[0], outcome) then 1
    else 1 + TicksUntilStop(attempts + 1, verifies[1..], outcome)
  }

  /** A fresh poller whose checks keep failing stops on its eleventh tick,
      not its tenth; the only write of the run is that tick's error. */
  lemma FailingChecksStopOnEleventh(verifies: seq<ApiResult>, outcome: AssignOutcome)
    requires |verifies| >= 11
    requires forall i :: 0 <= i < |verifies| ==> verifies[i].Err?
    ensures TicksUntilStop(0, verifies, outcome) == MaxVerifyAttempts + 1
    ensures forall i :: 0 <= i < MaxVerifyAttempts ==> TickWrites(i + 1, verifies[i], []) == []
    ensures TickWrites(MaxVerifyAttempts + 1, verifies[MaxVerifyAttempts], []) ==
      [Response("domain", verifies[MaxVerifyAttempts].status, Some(verifies[MaxVerifyAttempts].message))]
  {
    FailingRun(0, verifies, outcome);
  }

  lemma {:induction false} FailingRun(attempts: nat, verifies: seq<ApiResult>, outcome: AssignOutcome)
    requires attempts <= MaxVerifyAttempts
    requires |verifies| >= MaxVerifyAttempts + 1 - attempts
    requires forall i :: 0 <= i < |verifies| ==> verifies[i].Err?
    ensures TicksUntilStop(attempts, verifies, outcome) == MaxVerifyAttempts + 1 - attempts
    decreases MaxVerifyAttempts - attempts
  {
    if attempts < MaxVerifyAttempts {
      FailingRun(attempts + 1, verifies[1..], outcome);
    }
  }
}

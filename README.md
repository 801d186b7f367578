# Strapi hosting platform backend: the provisioning core in Dafny

This project models the core of a backend that provisions a Strapi
deployment on Northflank for one user. The deployment is a project, a
combined service, a PostgreSQL addon, a MinIO addon, a MinIO setup job, a
subdomain and a secret group. While it provisions, the backend keeps a
progress ledger per project, which is what the front end polls.

The model has six parts:

- **The ledger** (`Ledger`, `Database`). This is the `Projects` class of
  `api/database.js`. The documents of the `projects` collection are a
  `seq<Project>` field of a Dafny class. Each method performs the update
  that the Mongo call makes:
  - first matching document;
  - first matching progress entry;
  - the `$` positional operator.

  Ledger updates are also described as data (`Write`), applied by
  `ApplyWrites`. This lets a whole run be specified as one sequence of
  writes. The project-name allocation of `startNewProject` is modelled with
  its real regex, its 20-character truncation and its decimal collision
  suffix (`DomainName`).
- **The retry policy** (`Retry`). These are `retry` and `callWithRetry`.
  The action's successive answers are a function `nat -> ApiResult`.
- **The resource steps** (`Steps`, `Subdomain`). Each step is a method on
  the ledger. It is proved to perform exactly the writes of a
  specification function and to return a specified result. The `…Effect`
  lemmas then say what those writes do to the entries and details the
  front end reads.
- **The completion pollers** (`Pollers`, `Subdomain.DomainVerification`).
  One tick of each `setInterval` callback is a method. The interval is an
  object whose `active` flag the tick clears when it calls `clearInterval`.
- **The orchestrator** (`Orchestrator`). `main` is a method. It is proved
  to leave the ledger as `ApplyWrites(old, MainTrace(ans).writes)` and to
  return `MainTrace(ans).launch`. `MainTrace` is the specification: five
  blocks, each followed by its ordered error checks.
- **Facts about whole runs** (`OrchestratorFacts`). These are lemmas about
  `MainTrace`:
  - which step's error ends a run;
  - which entries a failed run leaves untouched;
  - what each entry reads after a run;
  - that the secret group links the ids of the addons that were created.

Remote answers are parameters: API answers, the Cloudflare reply and the
clock. `slugify` is a function parameter. Health codes are symbolic
constants (`healthCodes.js` is not part of this model). No property
depends on their values beyond their being distinct.

### Where the code and the design description differ

The model follows the code:

- Domain verification gives up when `attempts > 10`, on the eleventh
  failed check, not the tenth. It records the verification error's own
  status, not FAILED (`api/strapi.js:482-491`).
- `getMinioDetails` writes MinIO SUCCESS whenever the addon reports
  `running` (`api/strapi.js:724-730`). The MinIO tick therefore leaves
  SUCCESS behind on `running` even while the setup job has not concluded.
  In that case the tick keeps polling and does not trigger the job.
- `AbortErrorWrapper` never stores the error it wraps. An aborted action
  makes `retry` throw `undefined`, not the original error
  (`api/strapi.js:45-62`).
- A failing step writes the API's raw `error.status` as the entry's health,
  not FAILED.
- Name allocation: the first collision tries the suffix `2`. A name listed
  in `reservedSubdomains` (`"api"`) is accepted even when a project
  already uses it.
- `addNewResponse` on a project or key that does not exist changes nothing
  and still answers `{success: true}`.

## Model

| member | source | states |
|---|---|---|
| Values.ObjectValues | api/database.js:145 | `Object.values`: nothing for null/undefined, the items of an array |
| Values.SetField | api/strapi.js:683-684 | setting a property of an object makes it read back the new value and leaves every other property unchanged; on an array the stored elements stay as they were (values that throw are ruled out by the callers through `Assignable`) |
| Values.At | api/strapi.js:623 | `?.[i]` gives the i-th item of an array and undefined otherwise |
| Values.ReverseAt | api/database.js:135 | `reverse()` puts item k at position n-1-k and keeps the length |
| Values.ReverseReverse | api/database.js:135 | reversing twice gives back the original order |
| DomainName.DomainNameShape | api/database.js:9 | `domainNameRegex` accepts exactly the strings that start with a letter, end with a letter or digit, hold only alphanumerics, hyphens and white space, never have two separators in a row, and have no white space right after the first letter |
| DomainName.RunsIsRunShaped | api/database.js:9 | the `[a-zA-Z0-9]+((-\|\s)[a-zA-Z0-9]+)*` part matches exactly the alphanumeric runs joined by single separators |
| DomainName.RunsAreShaped | api/database.js:9 | every string the runs pattern matches has the run shape |
| DomainName.ShapedAreRuns | api/database.js:9 | every string of the run shape is matched by the runs pattern |
| DomainName.Truncate | api/database.js:16-20 | `substring(0, 20)` is a prefix of at most 20 characters, and the whole string when it is no longer |
| DomainName.NatToString | api/database.js:25 | `attempt.toString()` is a non-empty string of decimal digits |
| DomainName.ParseNatToString | api/database.js:25 | reading the decimal suffix back gives the attempt number |
| DomainName.NatToStringInjective | api/database.js:25 | different attempt numbers give different suffixes |
| DomainName.Suffixed | api/database.js:24-28 | attempt 0 keeps the base name; a positive attempt extends it |
| DomainName.SuffixedInjective | api/database.js:24-28 | two attempts give the same candidate name only when both are unsuffixed or they are equal |
| DomainName.SuffixedKeepsDomainName | api/database.js:21-25 | appending the attempt number keeps a name that matches `domainNameRegex` matching |
| Ledger.NewProject | api/database.js:39-101 | the inserted document has the slug as name and domain, the display name, no details, and the eleven progress keys in order, all NOT_STARTED, without a message, pairwise distinct |
| Ledger.IndexOfEntry | api/database.js:116-117 | the filter `{projectName, "progress.key"}` selects the first document with that name that holds an entry with that key |
| Ledger.IndexOfBackupDoc | api/database.js:141-142 | the filter `{projectName, "backups.id"}` selects the first document with that name whose backups hold that id |
| Ledger.ApplyWritesConcat | api/database.js:114-129 | applying two runs of writes one after the other is applying their concatenation |
| Ledger.ApplyWritesKeepsShape | api/database.js:114-189 | no ledger write adds or removes a document or a progress entry, renames one, or reorders them |
| Ledger.EntryAfterWrites | api/database.js:114-129 | after a run of writes, an entry shows the last response written to its key, and is unchanged when none was |
| Ledger.WritesLeaveOtherProjects | api/database.js:116-117 | writes for one project never change another project's entries |
| Ledger.UnknownKeyChangesNothing | api/database.js:114-129 | a response for a missing project or key changes nothing |
| Ledger.SetResponseChangesOneEntry | api/database.js:116-124 | a response changes the health and message of exactly one entry of exactly one document, and nothing else |
| Ledger.DetailAfterWrite | api/database.js:150-189 | a detail write sets that field of the named project, when it exists, and changes no other field |
| Ledger.ResponsesKeepDetails | api/database.js:114-129 | progress responses never change a stored detail |
| Database.BaseSlug | api/database.js:16-20 | the base slug has at most 20 characters |
| Database.RefusedStep | api/database.js:29-37 | a taken, non-reserved candidate is refused, and every candidate up to the next attempt has been refused |
| Database.NextCandidate | api/database.js:24-28 | the next candidate differs from every name tried before |
| Database.TriedStep | api/database.js:107-112 | each refused attempt adds a new taken domain to the names tried, and those are bounded by the domains in the collection, so the recursion ends |
| Database.Projects.constructor | api/database.js:12-14 | the ledger starts as the given collection |
| Database.Projects.StartNewProject | api/database.js:15-113 | a base slug the regex rejects throws and changes nothing; otherwise the allocated slug is the base with the first attempt suffix that is free or reserved, every earlier candidate was taken, and exactly one new project document is appended |
| Database.Projects.AddNewResponse | api/database.js:114-129 | sets health and message of the first matching entry, or changes nothing, and always answers success |
| Database.Projects.UpdateAddonBackups | api/database.js:130-139 | stores the backups reversed, and reverses the caller's array in place |
| Database.Projects.UpdateAddonBackup | api/database.js:140-149 | throws on undefined restores and changes nothing; otherwise stores the reversed values of `restores` on the first matching backup |
| Database.Projects.UpdateProjectWithServiceDetails | api/database.js:150-159 | sets `serviceDetails` of the project |
| Database.Projects.UpdateProjectWithMinioDetails | api/database.js:160-169 | sets `minioDetails` of the project |
| Database.Projects.UpdateProjectWithConnectionDetails | api/database.js:170-179 | sets the field called `name` of the project |
| Database.Projects.UpdateProjectWithPostgresqlDetails | api/database.js:180-189 | sets `postgresqlDetails` of the project |
| Database.Projects.FetchProject | api/database.js:190-192 | returns the first project with that name, or nothing exactly when there is none |
| Database.Projects.FetchProjects | api/database.js:193-196 | returns every project, newest first |
| Retry.MaxCalls | api/strapi.js:65-67 | the action runs `retries + 1` times at most, and once when `retries` is negative |
| Retry.Retry | api/strapi.js:51-81 | every call but the last threw; a returned value is returned, an abort throws undefined, a throw on the last allowed call is rethrown; the waits are the delays after increase-then-multiply |
| Retry.CallAction | api/strapi.js:88-96 | an attempt throws exactly when the API answers an error and it is not the last attempt |
| Retry.CallWithRetry | api/strapi.js:83-97 | the call stops at the first success, or after `retries + 1` attempts with the last attempt's error returned, not thrown |
| Retry.RetriedAnswer | api/strapi.js:83-97 | a retried call answers an error only when every attempt failed, and otherwise one of the successful answers |
| Retry.Call | api/strapi.js:83-87 | a call with the default options answers the retried answer |
| Retry.ConstantDelay | api/strapi.js:72-73 | with no increase and no multiplier every wait is the initial delay |
| Retry.LinearDelay | api/strapi.js:72 | with only an increase the n-th delay is the initial one plus n increases |
| Retry.GeometricDelay | api/strapi.js:73 | with only a multiplier the n-th delay is the initial one times the n-th power |
| Steps.CreationEffect | api/strapi.js:98-127 | a creation step records the error's status and message on its own key, or its success health, and changes no other entry and no detail; it fails exactly when the API answered an error |
| Steps.RecordCreation | api/strapi.js:98-127 | performs exactly the creation writes and returns the API data or the error object |
| Steps.CreateProject | api/strapi.js:98-127 | records the project creation, SUCCESS on success |
| Steps.CreateManualJob | api/strapi.js:247-299 | records the job creation from the retried answer, SUCCESS on success |
| Steps.CreateCombinedService | api/strapi.js:301-361 | records the service creation from the retried answer, IN_PROGRESS on success |
| Steps.CreatePostgreSQL | api/strapi.js:363-402 | records the PostgreSQL creation from the retried answer, DEPLOYING on success |
| Steps.CreateMinIO | api/strapi.js:404-444 | records the MinIO creation from the retried answer, DEPLOYING on success |
| Steps.CreateSecretGroup | api/strapi.js:778-875 | records the secret group creation, the request naming the two addon ids it is given |
| Steps.TriggerJobEffect | api/strapi.js:216-245 | a failed trigger marks `bucketCreated` and `bucketPolicy` FAILED and nothing else; a successful one changes no entry |
| Steps.TriggerJob | api/strapi.js:216-245 | performs exactly the trigger writes on the retried answer |
| Steps.FetchEffect | api/strapi.js:877-955 | a credential fetch stores the credentials and records SUCCESS, or records the error and keeps the stored details |
| Steps.RecordFetch | api/strapi.js:877-955 | performs exactly the fetch writes and returns the data or the error object |
| Steps.FetchPostgresqlCredentials | api/strapi.js:877-915 | records the PostgreSQL credentials under `postgresqlConnectionDetails` |
| Steps.FetchMinioCredentials | api/strapi.js:917-955 | records the MinIO credentials under `minioConnectionDetails` |
| Steps.CheckServiceBuild | api/strapi.js:612-624 | the status is defined only for an answer listing at least one build, and then it is the first build's status |
| Steps.CheckServiceContainers | api/strapi.js:626-638 | the status is defined only for an answer listing at least one pod, and then it is the last pod's status |
| Steps.GetJobBuild | api/strapi.js:692-701 | the build is defined only for an answer listing at least one build, and then it is the first build |
| Steps.DetailReadEffect | api/strapi.js:640-775 | a detail read stores the data, `{}` on a 404, or nothing on another error, and marks the entry SUCCESS exactly when the resource is running |
| Steps.MarkRunning | api/strapi.js:724-730 | writes SUCCESS only when the resource is running |
| Steps.StoreDetails | api/database.js:150-189 | stores a detail through the setter of its own field (`serviceDetails`, `minioDetails`, `postgresqlDetails`), other fields through `updateProjectWithConnectionDetails` |
| Steps.RecordDetails | api/strapi.js:710-734 | stores the data, or `{}` on a 404 |
| Steps.GetServiceDetails | api/strapi.js:640-690 | performs exactly the service-detail writes, with build and container status added to the stored data; data that cannot take a property makes it throw before the details are stored |
| Steps.ServiceDetailsStored | api/strapi.js:683-689 | an object answer is stored and returned with `buildStatus` the first build's status, `containerStatus` the last pod's, and every other field as answered |
| Steps.ServiceDetailsThrows | api/strapi.js:655-684 | null, undefined or primitive data makes the step throw after the SUCCESS mark, leaving the stored service details as they were |
| Steps.GetAddonDetails | api/strapi.js:703-775 | performs exactly the addon-detail writes and returns the data or the error object |
| Steps.GetMinioDetails | api/strapi.js:703-736 | the addon-detail read for MinIO |
| Steps.GetPostgresqlDetails | api/strapi.js:738-775 | the addon-detail read for PostgreSQL |
| Steps.RestoreWrite | api/strapi.js:1052-1065 | a backup whose restores are undefined makes the update throw |
| Steps.RestoreWritesInOrder | api/strapi.js:1051-1066 | the loop writes the reversed restores of each backup in order, and stops at the first backup without restores |
| Steps.RestoreWritesStop | api/strapi.js:1051-1066 | once the loop has thrown, later backups change nothing |
| Steps.RestoreWritesCount | api/strapi.js:1051-1066 | the loop makes one write per backup until it throws, and it throws at a backup without restores |
| Steps.RestoreWritesEach | api/strapi.js:1051-1066 | each write holds its own backup's id and reversed restores |
| Steps.RestoreStepThrows | api/strapi.js:1051-1066 | a backup without restores ends the whole walk with the writes made before it |
| Steps.WalkBackups | api/strapi.js:1051-1066 | the loop over the stored array performs exactly the restore writes and reports whether it threw |
| Steps.GetAddonBackups | api/strapi.js:1032-1069 | an error answer writes nothing; otherwise the backups are stored reversed and the loop walks them in their reversed order |
| Subdomain.AddSubdomainEffect | api/strapi.js:583-609 | the domain entry ends with the registration error, VERIFYING once the DNS record exists, or 500 with the Cloudflare message, and is untouched after an answer without data or with its own `error`; the step reports an error exactly when registration failed or answered an `error` field, and throws exactly when it answered nothing |
| Subdomain.AddSubdomain | api/strapi.js:446-610 | performs exactly those writes, throws on a registration that answered nothing, and starts the verification poller exactly when registration answered data without an error and the DNS record was created |
| Subdomain.AssignMeaning | api/strapi.js:503-539 | assignment records every 404 and tries again, and stops at the first other answer: SUCCESS with the data, or the error object |
| Subdomain.AssignSubdomainToService | api/strapi.js:503-539 | performs exactly the assignment writes and returns the assignment result |
| Subdomain.FirstPortName | api/strapi.js:494-497 | the port name is defined only for a successful ports answer with at least one port, and then it is the first port's name |
| Subdomain.DomainVerification.constructor | api/strapi.js:598 | the poller starts with no attempts and armed |
| Subdomain.DomainVerification.Tick | api/strapi.js:474-502 | a tick counts one attempt; it gives up with the verification error after more than 10 attempts, assigns the subdomain when verified, and otherwise writes nothing and keeps polling |
| Subdomain.FailingChecksStopOnEleventh | api/strapi.js:482-491 | with every check failing, the poller stops on exactly the eleventh tick; the first ten write nothing and the eleventh records the error |
| Subdomain.FailingRun | api/strapi.js:474-491 | from any attempt count up to 10, failing checks stop the poller after the remaining ticks |
| Pollers.Interval.constructor | routes/api/strapi.js:359-361 | a poller starts armed |
| Pollers.MinioMarkLast | routes/api/strapi.js:241-263 | the MinIO tick's last response: FAILED on `failed`, STAGING on `triggerAllocation`, SUCCESS on `running` with the job concluded, none otherwise |
| Pollers.MinioTickEffect | routes/api/strapi.js:229-264 | after a MinIO tick the entry shows FAILED, STAGING or SUCCESS for those statuses, and is unchanged for any other status |
| Pollers.MinioMark | routes/api/strapi.js:241-263 | the tick stops exactly on `failed`, or on `running` with the job concluded, and then triggers the job |
| Pollers.MinioTick | routes/api/strapi.js:229-264 | a MinIO tick performs exactly its writes and disarms exactly when it stops |
| Pollers.PostgresTickEffect | routes/api/strapi.js:266-287 | after a PostgreSQL tick the entry shows STAGING or SUCCESS for those statuses, and otherwise is unchanged and the poller keeps going |
| Pollers.PostgresTick | routes/api/strapi.js:266-287 | a PostgreSQL tick performs exactly its writes and disarms exactly on `running` |
| Pollers.ServiceTickEffect | routes/api/strapi.js:289-357 | the pod status, when it has a case, decides the service entry over the build status; a running pod leaves SUCCESS |
| Pollers.BuildMark | routes/api/strapi.js:301-339 | the build switch stops exactly on FAILURE |
| Pollers.PodMark | routes/api/strapi.js:340-356 | the pod switch stops exactly on TASK_RUNNING |
| Pollers.ServiceTick | routes/api/strapi.js:289-357 | a service tick performs exactly its writes and disarms exactly when the build failed or a pod runs |
| Orchestrator.Ending | routes/api/strapi.js:93-96 | a check ends the run with a rejected promise exactly when the step threw or answered nothing, and otherwise with the step's own result |
| Orchestrator.FirstErrorIndex | routes/api/strapi.js:138-156 | the results before the index neither threw, answered nothing nor report an error, and the one at that index does one of these |
| Orchestrator.Start | routes/api/strapi.js:87-91 | marks one key IN_PROGRESS |
| Orchestrator.MarkCreations | routes/api/strapi.js:98-117 | marks job, service, PostgreSQL and MinIO IN_PROGRESS in that order |
| Orchestrator.ProjectBlock | routes/api/strapi.js:87-96 | performs exactly the project block's writes and checks its result |
| Orchestrator.CreateBlock | routes/api/strapi.js:98-156 | performs exactly the creation block's writes; checks job, service, PostgreSQL, MinIO in that order |
| Orchestrator.DomainBlock | routes/api/strapi.js:162-177 | performs exactly the domain block's writes and arms domain verification exactly when it succeeds |
| Orchestrator.SecretBlock | routes/api/strapi.js:179-193 | performs exactly the secret block's writes, with the ids of the addons just created |
| Orchestrator.FetchBlock | routes/api/strapi.js:195-227 | performs exactly the credential block's writes; checks PostgreSQL before MinIO |
| Orchestrator.Check | routes/api/strapi.js:138-156 | returns the first result whose check throws (the step threw or answered nothing) or that reports an error, or none when no result does |
| Orchestrator.ProjectPhase | routes/api/strapi.js:87-96 | the ledger follows the run so far; an error ends the run with it |
| Orchestrator.CreatePhase | routes/api/strapi.js:98-160 | the ledger follows the run so far; an error ends the run with it |
| Orchestrator.DomainPhase | routes/api/strapi.js:162-177 | the ledger follows the run so far; an error ends the run with it |
| Orchestrator.SecretPhase | routes/api/strapi.js:179-193 | the ledger follows the run so far; an error ends the run with it |
| Orchestrator.FetchPhase | routes/api/strapi.js:195-227 | the ledger follows the run so far; an error ends the run with it |
| Orchestrator.ProvisionFromDomain | routes/api/strapi.js:158-367 | from the domain block on, the ledger ends as the whole run leaves it, and the three pollers are armed exactly when the run is accepted |
| Orchestrator.ProvisionFromSecrets | routes/api/strapi.js:179-367 | from the secret block on, the ledger ends as the whole run leaves it, and the three pollers are armed exactly when the run is accepted |
| Orchestrator.Provision | routes/api/strapi.js:86-368 | `main` leaves the ledger as the run's writes make it, answers the run's outcome (ACCEPTED, the first error, or a rejection when a step threw or answered nothing), arms domain verification exactly when the creations pass and the domain is set up, and arms the three pollers exactly when it answers ACCEPTED |
| OrchestratorFacts.RunPrefix | routes/api/strapi.js:86-227 | once the first k blocks pass, the run has made exactly their writes, in block order |
| OrchestratorFacts.StageWritesOwnKeys | routes/api/strapi.js:86-227 | each block writes responses only to its own keys |
| OrchestratorFacts.RunFromOutcome | routes/api/strapi.js:86-368 | from any block whose predecessors pass, the run is accepted exactly when every later block passes; a run that ends with a result ends with one that reports an error |
| OrchestratorFacts.MainOutcome | routes/api/strapi.js:86-368 | `main` answers ACCEPTED exactly when every block's checks pass; when it answers a step result, that result reports an error |
| OrchestratorFacts.BlockDecides | routes/api/strapi.js:86-227 | an entry written by a block that ran and by no later block ends as that block left it |
| OrchestratorFacts.ProjectFailureStops | routes/api/strapi.js:92-96 | a failing project ends the run with its own result, and one that answered nothing with a rejection; the project entry shows it and no other entry changes |
| OrchestratorFacts.ProjectStops | routes/api/strapi.js:92-96 | a project that fails or answers nothing is the whole run |
| OrchestratorFacts.ProjectWithoutDataAborts | routes/api/strapi.js:92-96 | a project call answering no data makes `main` reject after the project block, with no later block run |
| OrchestratorFacts.ProjectWritesEntries | routes/api/strapi.js:87-92 | the project block decides the project entry and touches no other |
| OrchestratorFacts.CreateChecksInOrder | routes/api/strapi.js:138-156 | the creations pass exactly when none of the four reports an error or answered nothing, and otherwise the run ends at the first of job, service, PostgreSQL, MinIO that does |
| OrchestratorFacts.CreationsAllRecorded | routes/api/strapi.js:119-136 | all four creations run, whatever their outcomes, and each entry ends with its own creation's outcome |
| OrchestratorFacts.EarlyStop | routes/api/strapi.js:92-156 | a failure before the domain ends the run after the project block or the creation block |
| OrchestratorFacts.EarlyFailureSkipsLaterBlocks | routes/api/strapi.js:138-156 | such a failure leaves the domain, secret and credential entries untouched |
| OrchestratorFacts.DomainRecord | api/strapi.js:583-609 | the domain entry's last response is always a domain response |
| OrchestratorFacts.DomainCheck | routes/api/strapi.js:169-177 | the domain block passes exactly when registration answered data without an `error` field, and a registration that answered nothing makes `main` reject |
| OrchestratorFacts.DomainRecorded | routes/api/strapi.js:162-177 | after a run that reaches the domain block, the domain entry shows that block's outcome |
| OrchestratorFacts.SecretLinksAddonIds | routes/api/strapi.js:184-189 | the secret group is only requested once both addons were created, and it is asked to link exactly their ids |
| OrchestratorFacts.SecretRecorded | routes/api/strapi.js:179-193 | after a run that reaches the secret block, the secrets entry shows its outcome |
| OrchestratorFacts.CredentialsRecorded | routes/api/strapi.js:195-217 | both credential fetches run, whatever their outcomes, and each entry ends with its own fetch's outcome |
| OrchestratorFacts.CredentialChecksInOrder | routes/api/strapi.js:219-227 | the run ends at the PostgreSQL credentials when they fail or came back empty, else at MinIO's, else ACCEPTED |

## Left out

- Network, timers and the database driver are not modelled. API answers,
  the Cloudflare reply and the Mongo documents are parameters or fields.
- The 3-second `setTimeout` before `main` starts and the settling delay
  before the domain block are not modelled. `retry`'s waits are returned
  as a list of delays, not slept.
- `Promise.all` runs its calls sequenced in array order. Independent calls
  touch different keys, so the final ledger is the same.
- Overlapping ticks are not modelled. A tick is one atomic method, and the
  pollers do not interleave with each other or with `main`.
- Subdomain.AssignSubdomainToService: the unbounded recursion on 404
  answers is modelled over a finite list of answers. When every answer is
  404 the result is "still retrying".
- Retry.Retry: `retries` is a number. An undefined `retries`, with which
  `retryCount >= retries` is never true and the retry never gives up, is
  not modelled. Delays are integers, not fractional numbers.
- A `TypeError` thrown inside a step makes the step's result `Crashed`,
  with the writes made before it: `getAddonBackups` answering without a
  `backups` array, `addSubdomain` answering nothing, `getServiceDetails`
  answering data that cannot take a property. In `main`, a step that threw,
  or one that answered nothing so that reading its `error` throws, ends the
  run `Aborted`: the promise rejects, nothing more is written and no
  poller starts. The value the promise rejects with is not modelled.
- Values.SetField: on an array JavaScript also adds the named property,
  which a stored array does not keep; the model keeps the elements only,
  so `getServiceDetails` on array data returns the array without the two
  statuses.
- Values.At: indexing a string or an array-like object, which JavaScript
  allows, reads as undefined; the status selectors therefore see only
  arrays.
- `configureMinio` (bucket and policy creation) is not part of this model.
  Neither are `backupAddon`, `restoreAddonBackup`, `deleteAddonBackup`,
  the HTTP routes, `configureCloudflare`'s request and `mongoUtil.js`.
  These are pass-throughs or I/O.
- Request payloads are not modelled, except the two addon ids the secret
  group links. Neither is the project fetched before the domain block,
  whose domain is used only in the payload.
- `slugify`'s own normalisation is a function parameter, and Mongo insert
  errors are not modelled.
- Database.Projects.FetchProject: Mongo's `findOne` promises no order; the
  model returns the first match.

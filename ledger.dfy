/** The progress ledger as values: one document per project, the writes the
    provisioning code makes to it, and what a sequence of writes leaves
    behind. The class that owns the collection is in module Database. */
module Ledger {
  import opened Values
  import opened HealthCodes

  /** One milestone of a project: `{key, step, health, message}`. A missing
      message and a null one are both `None`. */
  datatype ProgressEntry = ProgressEntry(key: string, step: string, health: int, message: Option<string>)

  /** One stored project document. `details` holds the fields set wholesale
      after creation (service, addon and connection details, backups). */
  datatype Project = Project(
    projectName: string,
    publicProjectName: string,
    projectDomain: string,
    progress: seq<ProgressEntry>,
    createdAt: string,
    details: map<string, Json>)

  /** The keys of the progress list, in the order a new project stores them. */
  const ProgressKeys: seq<string> :=
    ["project", "service", "domain", "job", "secrets", "fetchMinio",
     "fetchPostgresql", "postgresql", "minio", "bucketCreated", "bucketPolicy"]

  /** The document `startNewProject` inserts for a free slug. */
  function NewProject(slug: string, publicProjectName: string, createdAt: string): (p: Project)
    ensures p.projectName == slug && p.projectDomain == slug
    ensures p.publicProjectName == publicProjectName && p.details == map[]
    ensures |p.progress| == |ProgressKeys| == 11
    ensures forall i :: 0 <= i < |p.progress| ==>
      p.progress[i].key == ProgressKeys[i] && p.progress[i].health == NOT_STARTED && p.progress[i].message == None
    ensures forall i, j :: 0 <= i < j < |p.progress| ==> p.progress[i].key != p.progress[j].key
  {
    Project(slug, publicProjectName, slug,
      [ ProgressEntry("project", "Project creation", NOT_STARTED, None),
        ProgressEntry("service", "Combined service", NOT_STARTED, None),
        ProgressEntry("domain", "Custom domain", NOT_STARTED, None),
        ProgressEntry("job", "MinIO setup job", NOT_STARTED, None),
        ProgressEntry("secrets", "Secrets configuration", NOT_STARTED, None),
        ProgressEntry("fetchMinio", "Fetch MinIO connection details", NOT_STARTED, None),
        ProgressEntry("fetchPostgresql", "Fetch PostgreSQL connection details", NOT_STARTED, None),
        ProgressEntry("postgresql", "PostgreSQL addon", NOT_STARTED, None),
        ProgressEntry("minio", "MinIO addon", NOT_STARTED, None),
        ProgressEntry("bucketCreated", "MinIO bucket creation", NOT_STARTED, None),
        ProgressEntry("bucketPolicy", "MinIO bucket policy configuration", NOT_STARTED, None) ],
      createdAt, map[])
  }

  // ---------------------------------------------------------------------
  // Which document and which entry an update reaches: the store updates the
  // first document matching the filter and the first array element
  // matching the positional operator.

  /** Position of the first entry with `key`, or |progress| when none. */
  function IndexOfKey(progress: seq<ProgressEntry>, key: string): (j: nat)
    ensures j <= |progress|
    ensures j < |progress| ==> progress[j].key == key
    ensures forall m :: 0 <= m < j ==> progress[m].key != key
  {
    if progress == [] then 0
    else if progress[0].key == key then 0
    else 1 + IndexOfKey(progress[1..], key)
  }

  predicate HasKey(progress: seq<ProgressEntry>, key: string)
  {
    IndexOfKey(progress, key) < |progress|
  }

  /** Position of the first document called `name`, or |docs| when none. */
  function IndexOfProject(docs: seq<Project>, name: string): (i: nat)
    ensures i <= |docs|
    ensures i < |docs| ==> docs[i].projectName == name
    ensures forall m :: 0 <= m < i ==> docs[m].projectName != name
  {
    if docs == [] then 0
    else if docs[0].projectName == name then 0
    else 1 + IndexOfProject(docs[1..], name)
  }

  /** Position of the first document called `name` with an entry `key`:
      the filter `{projectName, "progress.key": key}`. */
  function IndexOfEntry(docs: seq<Project>, name: string, key: string): (i: nat)
    ensures i <= |docs|
    ensures i < |docs| ==> docs[i].projectName == name && HasKey(docs[i].progress, key)
    ensures forall m :: 0 <= m < i ==> !(docs[m].projectName == name && HasKey(docs[m].progress, key))
  {
    if docs == [] then 0
    else if docs[0].projectName == name && HasKey(docs[0].progress, key) then 0
    else 1 + IndexOfEntry(docs[1..], name, key)
  }

  /** The backup list of a document, empty when it has none. */
  function BackupsOf(d: Project): seq<Json>
  {
    if "backups" in d.details && d.details["backups"].Arr? then d.details["backups"].items else []
  }

  predicate IsBackup(e: Json, backupId: Json)
  {
    e.Obj? && Get(e, "id") == backupId
  }

  /** Position of the first backup with `backupId`, or |items| when none. */
  function IndexOfBackup(items: seq<Json>, backupId: Json): (k: nat)
    ensures k <= |items|
    ensures k < |items| ==> IsBackup(items[k], backupId)
    ensures forall m :: 0 <= m < k ==> !IsBackup(items[m], backupId)
  {
    if items == [] then 0
    else if IsBackup(items[0], backupId) then 0
    else 1 + IndexOfBackup(items[1..], backupId)
  }

  /** Position of the first document called `name` holding that backup:
      the filter `{projectName, "backups.id": backupId}`. */
  function IndexOfBackupDoc(docs: seq<Project>, name: string, backupId: Json): (i: nat)
    ensures i <= |docs|
    ensures i < |docs| ==> docs[i].projectName == name && IndexOfBackup(BackupsOf(docs[i]), backupId) < |BackupsOf(docs[i])|
    ensures forall m :: 0 <= m < i ==>
      !(docs[m].projectName == name && IndexOfBackup(BackupsOf(docs[m]), backupId) < |BackupsOf(docs[m])|)
  {
    if docs == [] then 0
    else if docs[0].projectName == name && IndexOfBackup(BackupsOf(docs[0]), backupId) < |BackupsOf(docs[0])| then 0
    else 1 + IndexOfBackupDoc(docs[1..], name, backupId)
  }

  // ---------------------------------------------------------------------
  // The updates

  /** `addNewResponse`: set health and message of the matching entry. */
  function SetResponse(docs: seq<Project>, name: string, key: string, health: int, message: Option<string>): seq<Project>
  {
    var i := IndexOfEntry(docs, name, key);
    if i == |docs| then docs
    else
      var p := docs[i].progress;
      var j := IndexOfKey(p, key);
      docs[i := docs[i].(progress := p[j := p[j].(health := health, message := message)])]
  }

  /** `$set: {[field]: value}` on the first document called `name`. */
  function SetDetail(docs: seq<Project>, name: string, field: string, value: Json): seq<Project>
  {
    var i := IndexOfProject(docs, name);
    if i == |docs| then docs
    else docs[i := docs[i].(details := docs[i].details[field := value])]
  }

  /** `$set: {"backups.$.restores": restores}`. */
  function SetRestores(docs: seq<Project>, name: string, backupId: Json, restores: seq<Json>): seq<Project>
  {
    var i := IndexOfBackupDoc(docs, name, backupId);
    if i == |docs| then docs
    else
      var items := BackupsOf(docs[i]);
      var k := IndexOfBackup(items, backupId);
      var items' := items[k := SetField(items[k], "restores", Arr(restores))];
      docs[i := docs[i].(details := docs[i].details["backups" := Arr(items')])]
  }

  /** One write the provisioning code makes to a project's document, with
      the value actually stored. */
  datatype Write =
    | Response(key: string, health: int, message: Option<string>)
    | Detail(field: string, value: Json)
    | Restores(backupId: Json, restores: seq<Json>)

  function ApplyWrite(docs: seq<Project>, name: string, w: Write): seq<Project>
  {
    match w
    case Response(key, health, message) => SetResponse(docs, name, key, health, message)
    case Detail(field, value) => SetDetail(docs, name, field, value)
    case Restores(backupId, restores) => SetRestores(docs, name, backupId, restores)
  }

  /** The collection after the writes `ws` to project `name`, in order. */
  function ApplyWrites(docs: seq<Project>, name: string, ws: seq<Write>): seq<Project>
    decreases |ws|
  {
    if ws == [] then docs
    else ApplyWrite(ApplyWrites(docs, name, ws[..|ws| - 1]), name, ws[|ws| - 1])
  }

  lemma ApplyWritesOne(docs: seq<Project>, name: string, w: Write)
    ensures ApplyWrites(docs, name, [w]) == ApplyWrite(docs, name, w)
  {
    assert [w][..0] == [];
  }

  lemma ApplyWritesTwo(docs: seq<Project>, name: string, v: Write, w: Write)
    ensures ApplyWrites(docs, name, [v, w]) == ApplyWrite(ApplyWrite(docs, name, v), name, w)
  {
    assert [v, w][..1] == [v];
    ApplyWritesOne(docs, name, v);
  }

  lemma {:induction false} ApplyWritesConcat(docs: seq<Project>, name: string, a: seq<Write>, b: seq<Write>)
    ensures ApplyWrites(docs, name, a + b) == ApplyWrites(ApplyWrites(docs, name, a), name, b)
    decreases |b|
  {
    if b == [] {
      assert a + b == a;
    } else {
      assert (a + b)[..|a + b| - 1] == a + b[..|b| - 1];
      ApplyWritesConcat(docs, name, a, b[..|b| - 1]);
    }
  }

  // ---------------------------------------------------------------------
  // Views: what a reader of the ledger sees

  /** The entry `key` of project `name` as the store's positional update
      reaches it, or None when the filter matches no document. */
  function Entry(docs: seq<Project>, name: string, key: string): Option<ProgressEntry>
  {
    var i := IndexOfEntry(docs, name, key);
    if i == |docs| then None else Some(docs[i].progress[IndexOfKey(docs[i].progress, key)])
  }

  /** The detail `field` of project `name`, or None when absent. */
  function DetailOf(docs: seq<Project>, name: string, field: string): Option<Json>
  {
    var i := IndexOfProject(docs, name);
    if i < |docs| && field in docs[i].details then Some(docs[i].details[field]) else None
  }

  /** The last response written to `key` in `ws`. */
  function LastResponse(ws: seq<Write>, key: string): (r: Option<Write>)
    ensures r.Some? ==> r.value.Response? && r.value.key == key && r.value in ws
    ensures (forall m :: 0 <= m < |ws| ==> !(ws[m].Response? && ws[m].key == key)) ==> r == None
    decreases |ws|
  {
    if ws == [] then None
    else if ws[|ws| - 1].Response? && ws[|ws| - 1].key == key then Some(ws[|ws| - 1])
    else LastResponse(ws[..|ws| - 1], key)
  }

  /** An entry after a response write to it (absent entries stay absent). */
  function Overlay(e: Option<ProgressEntry>, w: Option<Write>): Option<ProgressEntry>
    requires w.Some? ==> w.value.Response?
  {
    if e.Some? && w.Some? then Some(e.value.(health := w.value.health, message := w.value.message)) else e
  }

  /** Two collections with the same documents, names and progress keys. */
  ghost predicate SameShape(a: seq<Project>, b: seq<Project>)
  {
    |a| == |b| &&
    forall i :: 0 <= i < |a| ==>
      a[i].projectName == b[i].projectName && a[i].projectDomain == b[i].projectDomain &&
      |a[i].progress| == |b[i].progress| &&
      forall j :: 0 <= j < |a[i].progress| ==> a[i].progress[j].key == b[i].progress[j].key
  }

  lemma SameKeysIndex(p: seq<ProgressEntry>, q: seq<ProgressEntry>, key: string)
    requires |p| == |q| && forall j :: 0 <= j < |p| ==> p[j].key == q[j].key
    ensures IndexOfKey(p, key) == IndexOfKey(q, key)
  {
    var jp, jq := IndexOfKey(p, key), IndexOfKey(q, key);
    assert forall m :: 0 <= m < |p| ==> (p[m].key == key <==> q[m].key == key);
  }

  lemma SameShapeIndexes(a: seq<Project>, b: seq<Project>, name: string, key: string)
    requires SameShape(a, b)
    ensures IndexOfProject(a, name) == IndexOfProject(b, name)
    ensures IndexOfEntry(a, name, key) == IndexOfEntry(b, name, key)
    ensures forall i :: 0 <= i < |a| ==> IndexOfKey(a[i].progress, key) == IndexOfKey(b[i].progress, key)
  {
    forall i | 0 <= i < |a|
      ensures IndexOfKey(a[i].progress, key) == IndexOfKey(b[i].progress, key)
    {
      SameKeysIndex(a[i].progress, b[i].progress, key);
    }
    var pa, pb := IndexOfProject(a, name), IndexOfProject(b, name);
    assert forall m :: 0 <= m < |a| ==> (a[m].projectName == name <==> b[m].projectName == name);
    var ia, ib := IndexOfEntry(a, name, key), IndexOfEntry(b, name, key);
    assert forall m :: 0 <= m < |a| ==>
      (a[m].projectName == name && HasKey(a[m].progress, key) <==> b[m].projectName == name && HasKey(b[m].progress, key));
  }

  lemma ApplyWriteKeepsShape(docs: seq<Project>, name: string, w: Write)
    ensures SameShape(docs, ApplyWrite(docs, name, w))
  {
  }

  /** Writes never add, remove, rename or reorder documents or progress
      entries. */
  lemma {:induction false} ApplyWritesKeepsShape(docs: seq<Project>, name: string, ws: seq<Write>)
    ensures SameShape(docs, ApplyWrites(docs, name, ws))
    decreases |ws|
  {
    if ws != [] {
      var before := ApplyWrites(docs, name, ws[..|ws| - 1]);
      ApplyWritesKeepsShape(docs, name, ws[..|ws| - 1]);
      ApplyWriteKeepsShape(before, name, ws[|ws| - 1]);
    }
  }

  /** A single write changes at most the entry it names: a response sets the
      health and message of its own key and no other; other writes touch no
      entry at all. */
  lemma EntryAfterWrite(docs: seq<Project>, name: string, w: Write, name': string, key': string)
    ensures Entry(ApplyWrite(docs, name, w), name', key') ==
      if w.Response? && w.key == key' && name == name' then Overlay(Entry(docs, name', key'), Some(w))
      else Entry(docs, name', key')
  {
    var after := ApplyWrite(docs, name, w);
    ApplyWriteKeepsShape(docs, name, w);
    SameShapeIndexes(docs, after, name', key');
    if w.Response? {
      var i := IndexOfEntry(docs, name, w.key);
      var i' := IndexOfEntry(docs, name', key');
      if i < |docs| && i' < |docs| && i == i' {
        var j := IndexOfKey(docs[i].progress, w.key);
        var j' := IndexOfKey(docs[i].progress, key');
        assert j == j' <==> w.key == key';
      }
    }
  }

  /** What the ledger shows after a sequence of writes to one project: each
      entry carries the health and message of the last response written to
      its key, or is unchanged when no write names that key. Writes to
      different keys therefore never lose one another. */
  lemma {:induction false} EntryAfterWrites(docs: seq<Project>, name: string, ws: seq<Write>, key: string)
    ensures Entry(ApplyWrites(docs, name, ws), name, key) == Overlay(Entry(docs, name, key), LastResponse(ws, key))
    decreases |ws|
  {
    if ws != [] {
      var init := ws[..|ws| - 1];
      EntryAfterWrites(docs, name, init, key);
      EntryAfterWrite(ApplyWrites(docs, name, init), name, ws[|ws| - 1], name, key);
    }
  }

  /** Writes to one project leave every other project's entries alone. */
  lemma {:induction false} WritesLeaveOtherProjects(docs: seq<Project>, name: string, ws: seq<Write>, other: string, key: string)
    requires other != name
    ensures Entry(ApplyWrites(docs, name, ws), other, key) == Entry(docs, other, key)
    decreases |ws|
  {
    if ws != [] {
      var init := ws[..|ws| - 1];
      WritesLeaveOtherProjects(docs, name, init, other, key);
      EntryAfterWrite(ApplyWrites(docs, name, init), name, ws[|ws| - 1], other, key);
    }
  }

  /** `addNewResponse` on a key the project does not have, or on a project
      that does not exist, changes nothing. */
  lemma UnknownKeyChangesNothing(docs: seq<Project>, name: string, key: string, health: int, message: Option<string>)
    requires Entry(docs, name, key) == None
    ensures SetResponse(docs, name, key, health, message) == docs
  {
  }

  /** `addNewResponse` keeps the order and length of the progress list and
      changes health and message of one entry only. */
  lemma SetResponseChangesOneEntry(docs: seq<Project>, name: string, key: string, health: int, message: Option<string>)
    requires Entry(docs, name, key).Some?
    ensures var after := SetResponse(docs, name, key, health, message);
      var i := IndexOfEntry(docs, name, key);
      var j := IndexOfKey(docs[i].progress, key);
      |after| == |docs| &&
      (forall m :: 0 <= m < |docs| && m != i ==> after[m] == docs[m]) &&
      after[i].projectName == docs[i].projectName && after[i].details == docs[i].details &&
      |after[i].progress| == |docs[i].progress| &&
      (forall n :: 0 <= n < |docs[i].progress| && n != j ==> after[i].progress[n] == docs[i].progress[n]) &&
      after[i].progress[j] == docs[i].progress[j].(health := health, message := message)
  {
  }

  /** Which details a single write leaves behind: a detail write replaces
      its own field wholesale and no other; responses touch no detail. */
  lemma DetailAfterWrite(docs: seq<Project>, name: string, w: Write, field: string)
    requires !w.Restores?
    ensures DetailOf(ApplyWrite(docs, name, w), name, field) ==
      if w.Detail? && w.field == field && IndexOfProject(docs, name) < |docs| then Some(w.value)
      else DetailOf(docs, name, field)
  {
    ApplyWriteKeepsShape(docs, name, w);
    SameShapeIndexes(docs, ApplyWrite(docs, name, w), name, "");
  }

  /** A sequence of response writes leaves every detail field as it was. */
  lemma {:induction false} ResponsesKeepDetails(docs: seq<Project>, name: string, ws: seq<Write>, field: string)
    requires forall m :: 0 <= m < |ws| ==> ws[m].Response?
    ensures DetailOf(ApplyWrites(docs, name, ws), name, field) == DetailOf(docs, name, field)
    decreases |ws|
  {
    if ws != [] {
      var init := ws[..|ws| - 1];
      ResponsesKeepDetails(docs, name, init, field);
      DetailAfterWrite(ApplyWrites(docs, name, init), name, ws[|ws| - 1], field);
    }
  }

  /** The last response to `key` in `a + b` comes from `b` if `b` has one. */
  lemma {:induction false} LastResponseConcat(a: seq<Write>, b: seq<Write>, key: string)
    ensures LastResponse(a + b, key) == if LastResponse(b, key).Some? then LastResponse(b, key) else LastResponse(a, key)
    decreases |b|
  {
    if b == [] {
      assert a + b == a;
    } else {
      assert (a + b)[..|a + b| - 1] == a + b[..|b| - 1];
      LastResponseConcat(a, b[..|b| - 1], key);
    }
  }
}

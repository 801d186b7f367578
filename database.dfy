/** The `Projects` store of api/database.js: a mutable collection of project
    documents and the operations the provisioning code performs on it. */
module Database {
  import opened Values
  import opened DomainName
  import opened Ledger

  /** What `startNewProject` produces: `{success: true, slug}`, or the
      exception `{error: true}` thrown for a base slug the regex refuses. */
  datatype Allocation = Allocated(slug: string) | Rejected

  /** The base slug: the normalised display name cut to 20 characters. The
      normalisation itself (`slugify`) is a parameter of the model. */
  function BaseSlug(slugify: string -> string, publicProjectName: string): (base: string)
    ensures |base| <= MaxBaseLength
  {
    Truncate(slugify(publicProjectName))
  }

  /** Some stored project already uses `domain`. */
  predicate DomainTaken(docs: seq<Project>, domain: string)
  {
    exists i :: 0 <= i < |docs| && docs[i].projectDomain == domain
  }

  ghost function Domains(docs: seq<Project>): set<string>
  {
    set i | 0 <= i < |docs| :: docs[i].projectDomain
  }

  /** Attempt `k` was tried and refused before attempt `attempt`: the
      attempts run undefined (bare base), 2, 3, ... */
  ghost predicate TriedBefore(k: int, attempt: int)
  {
    attempt >= 2 && (k == 0 || 2 <= k < attempt)
  }

  /** Every candidate tried before attempt `a` was taken and not reserved. */
  ghost predicate AllRefused(docs: seq<Project>, base: string, a: int)
  {
    forall k :: TriedBefore(k, a) ==>
      DomainTaken(docs, Suffixed(base, k)) && Suffixed(base, k) !in ReservedSubdomains
  }

  lemma RefusedStep(docs: seq<Project>, base: string, a: int)
    requires a == 0 || a >= 2
    requires AllRefused(docs, base, a)
    requires DomainTaken(docs, Suffixed(base, a)) && Suffixed(base, a) !in ReservedSubdomains
    ensures AllRefused(docs, base, if a > 0 then a + 1 else 2)
  {
    forall k | TriedBefore(k, if a > 0 then a + 1 else 2)
      ensures DomainTaken(docs, Suffixed(base, k)) && Suffixed(base, k) !in ReservedSubdomains
    {
      if k != a {
        assert TriedBefore(k, a);
      }
    }
  }

  /** The names in `tried` are the bare base and suffixed names whose
      attempt number lies in [2, a). */
  ghost predicate NamesBelow(tried: set<string>, base: string, a: int)
  {
    forall x :: x in tried ==>
      x == base || (|x| > |base| && x[..|base|] == base && AllDigits(x[|base|..]) && 2 <= ParseNat(x[|base|..]) < a)
  }

  /** The candidate of attempt `a` was not among the names tried before it. */
  lemma NextCandidate(tried: set<string>, base: string, a: int)
    requires a == 0 || a >= 2
    requires a == 0 ==> tried == {}
    requires NamesBelow(tried, base, a)
    ensures Suffixed(base, a) !in tried
    ensures NamesBelow(tried + {Suffixed(base, a)}, base, if a > 0 then a + 1 else 2)
  {
    if a > 0 {
      var c := Suffixed(base, a);
      assert c[|base|..] == NatToString(a);
      ParseNatToString(a);
    }
  }

  /** The ghost bookkeeping of the slug loop: `tried` holds the `a - 1`
      distinct refused candidates, all of them domains in use. */
  ghost predicate TriedNames(tried: set<string>, docs: seq<Project>, base: string, a: int)
  {
    (a == 0 || a >= 2) && (a == 0 ==> tried == {}) &&
    tried <= Domains(docs) && |tried| == (if a == 0 then 0 else a - 1) &&
    NamesBelow(tried, base, a)
  }

  /** A refused candidate is new, so the loop's measure goes down. */
  lemma TriedStep(tried: set<string>, docs: seq<Project>, base: string, a: int)
    requires TriedNames(tried, docs, base, a)
    requires DomainTaken(docs, Suffixed(base, a))
    ensures TriedNames(tried + {Suffixed(base, a)}, docs, base, if a > 0 then a + 1 else 2)
    ensures |tried| < |tried + {Suffixed(base, a)}| <= |Domains(docs)|
  {
    NextCandidate(tried, base, a);
    TakenIsDomain(docs, Suffixed(base, a));
    SubsetCardinality(tried + {Suffixed(base, a)}, Domains(docs));
  }

  lemma TakenIsDomain(docs: seq<Project>, domain: string)
    requires DomainTaken(docs, domain)
    ensures domain in Domains(docs)
  {
    var i :| 0 <= i < |docs| && docs[i].projectDomain == domain;
  }

  lemma {:induction false} SubsetCardinality<T>(a: set<T>, b: set<T>)
    requires a <= b
    ensures |a| <= |b|
    decreases |a|
  {
    if a != {} {
      var x :| x in a;
      SubsetCardinality(a - {x}, b - {x});
    }
  }

  class Projects {
    var collection: seq<Project>

    constructor (docs: seq<Project>)
      ensures collection == docs
    {
      collection := docs;
    }

    /** Allocates a slug for a new project and inserts its document: tries the
        bare base, then the base followed by 2, 3, ..., and takes the first
        candidate no project uses as its domain, or that is reserved. */
    method StartNewProject(publicProjectName: string, slugify: string -> string, createdAt: string)
      returns (r: Allocation, ghost attempt: int)
      modifies this
      ensures !DomainNameRegex(BaseSlug(slugify, publicProjectName)) ==>
        r == Rejected && collection == old(collection)
      ensures DomainNameRegex(BaseSlug(slugify, publicProjectName)) ==>
        r.Allocated? && (attempt == 0 || attempt >= 2) &&
        r.slug == Suffixed(BaseSlug(slugify, publicProjectName), attempt) &&
        (!DomainTaken(old(collection), r.slug) || r.slug in ReservedSubdomains) &&
        AllRefused(old(collection), BaseSlug(slugify, publicProjectName), attempt) &&
        collection == old(collection) + [NewProject(r.slug, publicProjectName, createdAt)]
    {
      var base := BaseSlug(slugify, publicProjectName);
      if !DomainNameRegex(base) {
        r, attempt := Rejected, 0;
        return;
      }
      var a := 0;  // the caller passes no attempt
      ghost var tried: set<string> := {};
      while true
        invariant a == 0 || a >= 2
        invariant collection == old(collection)
        invariant TriedNames(tried, collection, base, a)
        invariant AllRefused(collection, base, a)
        decreases |Domains(collection)| - |tried|
      {
        var projectDomain := Suffixed(base, a);
        if !DomainTaken(collection, projectDomain) || projectDomain in ReservedSubdomains {
          collection := collection + [NewProject(projectDomain, publicProjectName, createdAt)];
          r, attempt := Allocated(projectDomain), a;
          return;
        }
        TriedStep(tried, collection, base, a);
        tried := tried + {projectDomain};
        RefusedStep(collection, base, a);
        a := if a > 0 then a + 1 else 2;
      }
    }

    /** `addNewResponse`: sets health and message of the first entry with
        `key` in the first document called `projectName` that has one; when
        no document matches, nothing changes. Always reports success. */
    method AddNewResponse(projectName: string, key: string, health: int, message: Option<string>)
      returns (success: bool)
      modifies this
      ensures collection == SetResponse(old(collection), projectName, key, health, message)
      ensures success
    {
      var i := IndexOfEntry(collection, projectName, key);
      if i < |collection| {
        var doc := collection[i];
        var j := IndexOfKey(doc.progress, key);
        collection := collection[i := doc.(progress := doc.progress[j := doc.progress[j].(health := health, message := message)])];
      }
      success := true;
    }

    /** `updateAddonBackups`: reverses the caller's list in place, then stores
        it as the project's backups (newest first). */
    method UpdateAddonBackups(projectName: string, data: array<Json>)
      modifies this, data
      ensures data[..] == Reverse(old(data[..]))
      ensures collection == SetDetail(old(collection), projectName, "backups", Arr(Reverse(old(data[..]))))
    {
      var n := data.Length;
      var i := 0;
      while i < n / 2
        invariant 0 <= i <= n / 2
        invariant collection == old(collection)
        invariant forall k :: 0 <= k < i ==> data[k] == old(data[n - 1 - k]) && data[n - 1 - k] == old(data[k])
        invariant forall k :: i <= k < n - i ==> data[k] == old(data[k])
      {
        data[i], data[n - 1 - i] := data[n - 1 - i], data[i];
        i := i + 1;
      }
      ghost var before := old(data[..]);
      ReverseLength(before);
      forall k | 0 <= k < n
        ensures data[..][k] == Reverse(before)[k]
      {
        ReverseAt(before, k);
      }
      assert data[..] == Reverse(before);
      collection := SetDetail(collection, projectName, "backups", Arr(data[..]));
    }

    /** `updateAddonBackup`: stores `Object.values(restores).reverse()` as the
        restores of the first backup with `backupId`. `Object.values` throws
        on a null or undefined argument, before anything is stored. */
    method UpdateAddonBackup(projectName: string, backupId: Json, restores: Json)
      returns (threw: bool)
      modifies this
      ensures threw <==> restores == Null
      ensures threw ==> collection == old(collection)
      ensures !threw ==> collection == SetRestores(old(collection), projectName, backupId, Reverse(ObjectValues(restores).value))
    {
      var values := ObjectValues(restores);
      if values.None? {
        return true;
      }
      collection := SetRestores(collection, projectName, backupId, Reverse(values.value));
      return false;
    }

    method UpdateProjectWithServiceDetails(projectName: string, serviceDetails: Json)
      modifies this
      ensures collection == SetDetail(old(collection), projectName, "serviceDetails", serviceDetails)
    {
      collection := SetDetail(collection, projectName, "serviceDetails", serviceDetails);
    }

    method UpdateProjectWithMinioDetails(projectName: string, minioDetails: Json)
      modifies this
      ensures collection == SetDetail(old(collection), projectName, "minioDetails", minioDetails)
    {
      collection := SetDetail(collection, projectName, "minioDetails", minioDetails);
    }

    /** Stores `details` under the field called `name`. */
    method UpdateProjectWithConnectionDetails(projectName: string, name: string, details: Json)
      modifies this
      ensures collection == SetDetail(old(collection), projectName, name, details)
    {
      collection := SetDetail(collection, projectName, name, details);
    }

    method UpdateProjectWithPostgresqlDetails(projectName: string, postgresqlDetails: Json)
      modifies this
      ensures collection == SetDetail(old(collection), projectName, "postgresqlDetails", postgresqlDetails)
    {
      collection := SetDetail(collection, projectName, "postgresqlDetails", postgresqlDetails);
    }

    /** `fetchProject`: the first document called `projectName`, if any. */
    method FetchProject(projectName: string) returns (r: Option<Project>)
      ensures r.Some? ==> r.value.projectName == projectName && r.value in collection
      ensures r.Some? ==> exists i :: 0 <= i < |collection| && collection[i] == r.value &&
                                     forall m :: 0 <= m < i ==> collection[m].projectName != projectName
      ensures r.None? <==> forall m :: 0 <= m < |collection| ==> collection[m].projectName != projectName
    {
      var i := 0;
      while i < |collection|
        invariant 0 <= i <= |collection|
        invariant forall m :: 0 <= m < i ==> collection[m].projectName != projectName
      {
        if collection[i].projectName == projectName {
          return Some(collection[i]);
        }
        i := i + 1;
      }
      return None;
    }

    /** `fetchProjects`: every project, the most recently inserted first. */
    method FetchProjects() returns (r: seq<Project>)
      ensures |r| == |collection|
      ensures forall i :: 0 <= i < |r| ==> r[i] == collection[|collection| - 1 - i]
    {
      r := [];
      var i := 0;
      while i < |collection|
        invariant 0 <= i <= |collection|
        invariant |r| == i
        invariant forall k :: 0 <= k < i ==> r[k] == collection[i - 1 - k]
      {
        r := [collection[i]] + r;
        i := i + 1;
      }
    }
  }
}

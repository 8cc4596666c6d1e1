/**
 The validator's list checks as it runs them: one pass over the list with sets of the
 keys seen so far. Each pass decides the pairwise rule of the specification.
 */
module AdmissionChecks {
  import opened Common
  import opened AdmissionTypes
  import opened AdmissionValidator

  method CheckServiceIdentities(services: seq<ServiceIdentity>) returns (ok: bool)
    ensures ok <==> ServiceIdentitiesOk(services)
  {
    var names: set<string>, dockerIds: set<string> := {}, {};
    for i := 0 to |services|
      invariant names == set j | 0 <= j < i :: services[j].name
      invariant dockerIds == set j | 0 <= j < i
          && services[j].dockerServiceId.Some? :: services[j].dockerServiceId.value
      invariant ServiceIdentitiesOk(services[..i])
    {
      var s := services[i];
      assert s == services[..i + 1][i];
      if !ServiceIdentityOk(s) { return false; }
      if s.name in names {
        ghost var j :| 0 <= j < i && services[j].name == s.name;
        return false;
      }
      if s.dockerServiceId.Some? && s.dockerServiceId.value in dockerIds {
        ghost var j :| 0 <= j < i && services[j].dockerServiceId == s.dockerServiceId;
        return false;
      }
      names := names + {s.name};
      if s.dockerServiceId.Some? {
        dockerIds := dockerIds + {s.dockerServiceId.value};
      }
    }
    assert services[..|services|] == services;
    return true;
  }

  method CheckSecretRefs(refs: seq<SecretRef>) returns (ok: bool)
    ensures ok <==> SecretRefsOk(refs)
  {
    var names: set<string>, dockerIds: set<string>, identities: set<(string, string, string)> := {}, {}, {};
    for i := 0 to |refs|
      invariant names == set j | 0 <= j < i :: refs[j].name
      invariant dockerIds == set j | 0 <= j < i :: refs[j].dockerSecretId
      invariant identities == set j | 0 <= j < i :: (refs[j].service, refs[j].generation, refs[j].purpose)
      invariant SecretRefsOk(refs[..i])
    {
      var ref := refs[i];
      var identity := (ref.service, ref.generation, ref.purpose);
      if ref.name in names || ref.dockerSecretId in dockerIds || identity in identities {
        return false;
      }
      names, dockerIds, identities := names + {ref.name}, dockerIds + {ref.dockerSecretId}, identities + {identity};
    }
    assert refs[..|refs|] == refs;
    return true;
  }

  function Names(workers: seq<Worker>, i: nat): set<string>
    requires i <= |workers|
  {
    (set j | 0 <= j < i :: workers[j].databaseSecret.name) + (set j | 0 <= j < i :: workers[j].admissionSecret.name)
  }

  function Ids(workers: seq<Worker>, i: nat): set<string>
    requires i <= |workers|
  {
    (set j | 0 <= j < i :: workers[j].databaseSecret.dockerSecretId)
    + (set j | 0 <= j < i :: workers[j].admissionSecret.dockerSecretId)
  }

  /** The ids and names of the next worker are new, and its own two secrets differ. */
  predicate Unseen(keys: set<(string, nat)>, serviceIds: set<string>, names: set<string>, ids: set<string>, w: Worker) {
    && (w.service, w.generation) !in keys
    && (w.dockerServiceId.Some? ==> w.dockerServiceId.value !in serviceIds)
    && w.databaseSecret.name !in names && w.databaseSecret.dockerSecretId !in ids
    && w.admissionSecret.name !in names && w.admissionSecret.dockerSecretId !in ids
    && DisjointSecrets(w.databaseSecret, w.admissionSecret)
  }

  lemma UnseenIsDistinct(workers: seq<Worker>, i: nat)
    requires i < |workers|
    ensures var keys := set j | 0 <= j < i :: (workers[j].service, workers[j].generation);
            var serviceIds := set j | 0 <= j < i
                && workers[j].dockerServiceId.Some? :: workers[j].dockerServiceId.value;
            Unseen(keys, serviceIds, Names(workers, i), Ids(workers, i), workers[i]) <==>
            && DisjointSecrets(workers[i].databaseSecret, workers[i].admissionSecret)
            && forall j :: 0 <= j < i ==> DistinctWorkers(workers[j], workers[i])
  {
  }

  method CheckWorkers(workers: seq<Worker>) returns (ok: bool)
    ensures ok <==> WorkersOk(workers)
  {
    hide WorkerOk;
    hide DistinctWorkers;
    hide Names;
    hide Ids;
    var keys: set<(string, nat)>, serviceIds: set<string>, names: set<string>, ids: set<string> := {}, {}, {}, {};
    SecretsGrow(workers);
    for i := 0 to |workers|
      invariant keys == set j | 0 <= j < i :: (workers[j].service, workers[j].generation)
      invariant serviceIds == set j | 0 <= j < i && workers[j].dockerServiceId.Some? :: workers[j].dockerServiceId.value
      invariant names == Names(workers, i) && ids == Ids(workers, i)
      invariant WorkersOk(workers[..i])
    {
      var w := workers[i];
      UnseenIsDistinct(workers, i);
      assert Unseen(keys, serviceIds, names, ids, w) <==>
             DisjointSecrets(w.databaseSecret, w.admissionSecret) && forall j :: 0 <= j < i ==>
                 DistinctWorkers(workers[j], w);
      if !WorkerOk(w) || (w.service, w.generation) in keys
         || (w.dockerServiceId.Some? && w.dockerServiceId.value in serviceIds)
      {
        return false;
      }
      keys := keys + {(w.service, w.generation)};
      if w.dockerServiceId.Some? {
        serviceIds := serviceIds + {w.dockerServiceId.value};
      }
      if w.databaseSecret.name in names || w.databaseSecret.dockerSecretId in ids {
        return false;
      }
      names, ids := names + {w.databaseSecret.name}, ids + {w.databaseSecret.dockerSecretId};
      if w.admissionSecret.name in names || w.admissionSecret.dockerSecretId in ids {
        return false;
      }
      names, ids := names + {w.admissionSecret.name}, ids + {w.admissionSecret.dockerSecretId};
    }
    assert workers[..|workers|] == workers;
    return true;
  }

  lemma SecretsGrow(workers: seq<Worker>)
    ensures Names(workers, 0) == {} && Ids(workers, 0) == {}
    ensures forall i :: 0 <= i < |workers| ==>
              Names(workers, i + 1) == Names(workers, i) + {workers[i].databaseSecret.name}
                  + {workers[i].admissionSecret.name}
    ensures forall i :: 0 <= i < |workers| ==>
              Ids(workers, i + 1)
              == Ids(workers, i) + {workers[i].databaseSecret.dockerSecretId}
                  + {workers[i].admissionSecret.dockerSecretId}
  {
  }

  method CheckVisionJobs(jobs: seq<VisionJob>) returns (ok: bool)
    ensures ok <==> VisionJobsOk(jobs)
  {
    var modes: set<VisionMode>, serviceIds: set<string> := {}, {};
    for i := 0 to |jobs|
      invariant modes == set j | 0 <= j < i :: jobs[j].mode
      invariant serviceIds == set j | 0 <= j < i && jobs[j].dockerServiceId.Some? :: jobs[j].dockerServiceId.value
      invariant VisionJobsOk(jobs[..i])
    {
      var job := jobs[i];
      if !VisionJobOk(job) || job.mode in modes
          || (job.dockerServiceId.Some? && job.dockerServiceId.value in serviceIds) {
        return false;
      }
      modes := modes + {job.mode};
      if job.dockerServiceId.Some? {
        serviceIds := serviceIds + {job.dockerServiceId.value};
      }
    }
    assert jobs[..|jobs|] == jobs;
    return true;
  }

  method CheckRetirements(retirements: seq<Retirement>) returns (ok: bool)
    ensures ok <==> RetirementsOk(retirements)
  {
    var ids: set<string>, dockerIds: set<string> := {}, {};
    var keys: set<(string, string, IdentityKind, string, string)> := {};
    for i := 0 to |retirements|
      invariant ids == set j | 0 <= j < i :: retirements[j].id
      invariant dockerIds == set j | 0 <= j < i
          && retirements[j].identity.dockerId.Some? :: retirements[j].identity.dockerId.value
      invariant keys == set j | 0 <= j < i :: LogicalKey(retirements[j].identity)
      invariant RetirementsOk(retirements[..i])
    {
      var r := retirements[i];
      var key := LogicalKey(r.identity);
      if !IdentityOk(r.identity) || r.id in ids || key in keys
         || (r.identity.dockerId.Some? && r.identity.dockerId.value in dockerIds)
      {
        return false;
      }
      ids, keys := ids + {r.id}, keys + {key};
      if r.identity.dockerId.Some? {
        dockerIds := dockerIds + {r.identity.dockerId.value};
      }
    }
    assert retirements[..|retirements|] == retirements;
    return true;
  }

  /** All authorities at once: distinct keys, one rollback authority a service, one image for the rest. */
  method CheckAuthorities(d: Document) returns (ok: bool)
    ensures ok <==> AuthoritiesOk(d)
  {
    hide IsRollbackAuthority;
    hide AuthorityOk;
    var keys: set<(AuthorityKind, string, string)>, images: set<string>, services: set<string> := {}, {}, {};
    for i := 0 to |d.authorities|
      invariant keys == set j | 0 <= j < i :: (d.authorities[j].kind, d.authorities[j].service,
                                               d.authorities[j].generation)
      invariant services == set j | 0 <= j < i && IsRollbackAuthority(d, d.authorities[j]) :: d.authorities[j].service
      invariant images == set j | 0 <= j < i
          && !IsRollbackAuthority(d, d.authorities[j]) :: d.authorities[j].controlImage
      invariant forall j :: 0 <= j < i ==> AuthorityEntryOk(d, d.authorities[j])
      invariant forall j, k :: 0 <= j < k < i ==> !SameAuthorityKey(d.authorities[j], d.authorities[k])
      invariant forall j, k ::
                  (&& 0 <= j < k < i
                   && IsRollbackAuthority(d, d.authorities[j]) && IsRollbackAuthority(d, d.authorities[k])) ==>
                    d.authorities[j].service != d.authorities[k].service
    {
      var a := d.authorities[i];
      var rollback := IsRollbackAuthority(d, a);
      var key := (a.kind, a.service, a.generation);
      if !AuthorityOk(a, d.targetCommit, if rollback then d.rollback.control else None) {
        assert !AuthorityEntryOk(d, d.authorities[i]);
        return false;
      }
      if key in keys {
        ghost var j :| 0 <= j < i && SameAuthorityKey(d.authorities[j], a);
        assert !AuthorityPairOk(d, d.authorities[j], d.authorities[i]);
        return false;
      }
      keys := keys + {key};
      if rollback {
        if a.service in services {
          ghost var j :| 0 <= j < i && IsRollbackAuthority(d, d.authorities[j])
              && d.authorities[j].service == a.service;
          assert !AuthorityPairOk(d, d.authorities[j], d.authorities[i]);
          return false;
        }
        services := services + {a.service};
      } else {
        images := images + {a.controlImage};
      }
    }
    OneImage(d, images);
    return |images| <= 1;
  }

  /** At most one image collected means that any two ordinary authorities agree on it. */
  lemma OneImage(d: Document, images: set<string>)
    requires images == set j | 0 <= j < |d.authorities|
            && !IsRollbackAuthority(d, d.authorities[j]) :: d.authorities[j].controlImage
    ensures |images| <= 1 <==>
            forall j, k :: 0 <= j < k < |d.authorities|
                           && !IsRollbackAuthority(d, d.authorities[j]) && !IsRollbackAuthority(d, d.authorities[k]) ==>
              d.authorities[j].controlImage == d.authorities[k].controlImage
  {
    hide IsRollbackAuthority;
    if |images| <= 1 {
      forall j, k | 0 <= j < k < |d.authorities|
                    && !IsRollbackAuthority(d, d.authorities[j]) && !IsRollbackAuthority(d, d.authorities[k])
        ensures d.authorities[j].controlImage == d.authorities[k].controlImage
      {
        AtMostOne(images, d.authorities[j].controlImage, d.authorities[k].controlImage);
      }
    } else {
      var x, y := TwoOf(images);
      var j :| 0 <= j < |d.authorities| && !IsRollbackAuthority(d, d.authorities[j])
          && d.authorities[j].controlImage == x;
      var k :| 0 <= k < |d.authorities| && !IsRollbackAuthority(d, d.authorities[k])
          && d.authorities[k].controlImage == y;
      assert j < k || k < j;
    }
  }

  lemma AtMostOne<T>(s: set<T>, x: T, y: T)
    requires |s| <= 1
    ensures x in s && y in s ==> x == y
  {
    if x in s {
      assert |s - {x}| == 0;
      assert y !in s - {x};
    }
  }

  lemma TwoOf<T>(s: set<T>) returns (x: T, y: T)
    requires |s| > 1
    ensures x in s && y in s && x != y
  {
    x :| x in s;
    assert |s - {x}| > 0;
    y :| y in s - {x};
  }
}

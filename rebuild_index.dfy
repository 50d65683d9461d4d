/** `es_rebuild_index`: for every model of an index, reconcile the ids stored under the
    model's document type with the pks of its indexable queryset: delete the stored ids the
    queryset no longer lists, then hand every pk of the queryset to the indexing task. */
module RebuildIndex {
  import opened Py
  import opened Models
  import opened Tasks
  import opened Mixins
  import opened Apps
  import opened Base

  /** The ints a set of stored ids reads as, when every one of them is an integer. */
  function Parsed(ids: set<string>): set<int>
    requires forall s :: s in ids ==> ParseInt(s).Ok?
  {
    set s | s in ids :: ParseInt(s).value
  }

  /** `set(int(item.meta.id) for item in scan)`: an id that is not an integer raises
      ValueError. */
  function ParseIds(ids: set<string>): (r: Result<set<int>>)
    ensures r.Ok? <==> forall s :: s in ids ==> ParseInt(s).Ok?
    ensures r.Err? ==> r.error == ValueError
  {
    if forall s :: s in ids ==> ParseInt(s).Ok? then Ok(Parsed(ids)) else Err(ValueError)
  }

  /** An int is read from the stored ids exactly when some stored id is its text, up to
      what `int()` accepts around it. */
  lemma ParseIdsMember(ids: set<string>, n: int)
    requires ParseIds(ids).Ok?
    ensures n in ParseIds(ids).value <==> exists s :: s in ids && ParseInt(s) == Ok(n)
  {
  }

  lemma ParsedStep(done: set<string>, s: string)
    requires forall t :: t in done ==> ParseInt(t).Ok?
    requires ParseInt(s).Ok?
    ensures Parsed(done + {s}) == Parsed(done) + {ParseInt(s).value}
  {
  }

  /** The scan loop of `run`: read every stored id of the document type as an int. */
  method ReadEsIds(ids: set<string>) returns (r: Result<set<int>>)
    ensures r == ParseIds(ids)
  {
    var rest := ids;
    var acc: set<int> := {};
    while rest != {}
      invariant rest <= ids
      invariant forall s :: s in ids - rest ==> ParseInt(s).Ok?
      invariant acc == Parsed(ids - rest)
      decreases |rest|
    {
      var s :| s in rest;
      var n := ParseInt(s);
      if n.Err? {
        return Err(ValueError);
      }
      ParsedStep(ids - rest, s);
      assert ids - (rest - {s}) == (ids - rest) + {s};
      acc := acc + {n.value};
      rest := rest - {s};
    }
    assert ids - rest == ids;
    return Ok(acc);
  }

  /** The stored ids of a model's document type that its queryset no longer lists:
      `bad_ids = es_ids - db_pks`. */
  function BadIds(docs: map<DocKey, Value>, src: Source, model: ModelClass): Result<set<int>> {
    var es :- ParseIds(ScanIds(docs, model.docType.index, model.docType.name));
    Ok(es - PkSet(QuerysetPks(src, model)))
  }

  /** An int is a bad id exactly when some stored id of the document type reads as it and
      the queryset does not list it; a stored id that is not an integer raises ValueError. */
  lemma BadIdsMember(docs: map<DocKey, Value>, src: Source, model: ModelClass, b: int)
    ensures var scanned := ScanIds(docs, model.docType.index, model.docType.name);
            var r := BadIds(docs, src, model);
            && (r.Ok? <==> forall s :: s in scanned ==> ParseInt(s).Ok?)
            && (r.Err? ==> r.error == ValueError)
            && (r.Ok? ==> (b in r.value <==>
                  (exists s :: s in scanned && ParseInt(s) == Ok(b)) && b !in QuerysetPks(src, model)))
  {
    var scanned := ScanIds(docs, model.docType.index, model.docType.name);
    if ParseIds(scanned).Ok? {
      ParseIdsMember(scanned, b);
    }
  }

  /** The addresses of a set of ids under a document type in its own index. */
  function BadKeys(docType: DocType, bad: set<int>): set<DocKey> {
    set b | b in bad :: DocKey(docType.index, docType.name, IntToString(b))
  }

  lemma BadKeysMember(docType: DocType, bad: set<int>, b: int)
    ensures DocKey(docType.index, docType.name, IntToString(b)) in BadKeys(docType, bad) <==> b in bad
  {
    if DocKey(docType.index, docType.name, IntToString(b)) in BadKeys(docType, bad) {
      var c :| c in bad && DocKey(docType.index, docType.name, IntToString(c)) == DocKey(docType.index, docType.name, IntToString(b));
      IntToStringInjective(b, c);
    }
  }

  /** Some element of a non-empty set: the next one a loop over the set visits. */
  method Choose(s: set<int>) returns (x: int)
    requires s != {}
    ensures x in s
  {
    if forall y :: y !in s {
      assert false;
    }
    x :| x in s;
  }

  /** `for es_id in bad_ids: model.es_doc_type.get(es_id).delete()`: every bad id is
      deleted; fetching one that is not stored raises NotFoundError, and nothing outside
      the bad ids is ever touched. */
  method DeleteBadIds(cluster: Cluster, docType: DocType, bad: set<int>) returns (r: Result<()>)
    modifies cluster`docs
    ensures r.Ok? <==> BadKeys(docType, bad) <= old(cluster.docs).Keys
    ensures r.Err? ==> r.error == NotFoundError
    ensures r.Ok? ==> cluster.docs == old(cluster.docs) - BadKeys(docType, bad)
    ensures forall k :: k in old(cluster.docs) && k !in BadKeys(docType, bad) ==>
              k in cluster.docs && cluster.docs[k] == old(cluster.docs)[k]
    ensures forall k :: k in cluster.docs ==> k in old(cluster.docs) && cluster.docs[k] == old(cluster.docs)[k]
  {
    var rest := bad;
    while rest != {}
      invariant rest <= bad
      invariant cluster.docs == old(cluster.docs) - BadKeys(docType, bad - rest)
      invariant BadKeys(docType, bad - rest) <= old(cluster.docs).Keys
      decreases |rest|
    {
      var b := Choose(rest);
      var key := DocKey(docType.index, docType.name, IntToString(b));
      BadKeysMember(docType, bad - rest, b);
      BadKeysMember(docType, bad, b);
      MinusStep(cluster.docs, old(cluster.docs), BadKeys(docType, bad - rest), key);
      assert BadKeys(docType, bad - (rest - {b})) == BadKeys(docType, bad - rest) + {key} by {
        assert bad - (rest - {b}) == (bad - rest) + {b};
      }
      var deleted := cluster.Delete(key);
      if deleted.Err? {
        return deleted;
      }
      rest := rest - {b};
    }
    assert bad - rest == bad;
    return Ok(());
  }

  // ---------------------------------------------------------------------------
  // Dispatch

  /** Every pk of `pks` has exactly one job among `jobs`, and there is no other job: an
      index job for the target and content type, with no countdown, on queue `q`. */
  predicate OncePerPk(jobs: seq<Job>, target: string, contentType: int, pks: set<int>, q: Value) {
    && |jobs| == |pks|
    && (forall i :: 0 <= i < |jobs| ==>
          jobs[i].IndexJob? && jobs[i].objectId.Some? && jobs[i].objectId.value in pks
          && jobs[i] == IndexJob(target, contentType, jobs[i].objectId, 0, q))
    && (forall i, j :: 0 <= i < j < |jobs| ==> jobs[i] != jobs[j])
    && (forall pk :: pk in pks ==> IndexJob(target, contentType, Some(pk), 0, q) in jobs)
  }

  lemma OnceStep(jobs: seq<Job>, target: string, contentType: int, done: set<int>, pk: int, q: Value)
    requires OncePerPk(jobs, target, contentType, done, q) && pk !in done
    ensures OncePerPk(jobs + [IndexJob(target, contentType, Some(pk), 0, q)], target, contentType, done + {pk}, q)
  {
    var job := IndexJob(target, contentType, Some(pk), 0, q);
    var js := jobs + [job];
    forall i | 0 <= i < |jobs| ensures jobs[i] != job {
      assert jobs[i].objectId.value in done;
    }
    assert |done + {pk}| == |done| + 1;
    forall p | p in done + {pk} ensures IndexJob(target, contentType, Some(p), 0, q) in js {
      if p != pk {
        assert IndexJob(target, contentType, Some(p), 0, q) in jobs;
      } else {
        assert js[|jobs|] == job;
      }
    }
  }

  /** The dispatch loop of `run` with `async` set: one queued job per pk. */
  method EnqueueAll(queue: TaskQueue, target: string, contentType: int, pks: set<int>, q: Value)
    modifies queue`jobs
    ensures |queue.jobs| >= |old(queue.jobs)| && queue.jobs[..|old(queue.jobs)|] == old(queue.jobs)
    ensures OncePerPk(queue.jobs[|old(queue.jobs)|..], target, contentType, pks, q)
  {
    var n := |queue.jobs|;
    var rest := pks;
    while rest != {}
      invariant rest <= pks && n == |old(queue.jobs)| <= |queue.jobs|
      invariant queue.jobs[..n] == old(queue.jobs)
      invariant OncePerPk(queue.jobs[n..], target, contentType, pks - rest, q)
      decreases |rest|
    {
      var pk := Choose(rest);
      var job := IndexJob(target, contentType, Some(pk), 0, q);
      OnceStep(queue.jobs[n..], target, contentType, pks - rest, pk, q);
      assert pks - (rest - {pk}) == (pks - rest) + {pk};
      ghost var before := queue.jobs;
      queue.Enqueue(job);
      assert queue.jobs[n..] == before[n..] + [job];
      assert queue.jobs[..n] == before[..n];
      rest := rest - {pk};
    }
    assert pks - rest == pks;
  }

  /** The dispatch loop of `run` without `async`: `es_index_object.apply` for every pk.
      Under Celery's default eager mode an exception the Celery task raises is kept in the
      result `apply` returns, so it does not stop the loop. */
  method ApplyAll(cluster: Cluster, src: Source, target: string, contentType: int, pks: set<int>)
    modifies cluster`docs
    ensures cluster.docs == Reindexed(old(cluster.docs), src, target, contentType, pks)
  {
    var rest := pks;
    assert old(cluster.docs) == Reindexed(old(cluster.docs), src, target, contentType, {});
    while rest != {}
      invariant rest <= pks
      invariant cluster.docs == Reindexed(old(cluster.docs), src, target, contentType, pks - rest)
      decreases |rest|
    {
      var pk := Choose(rest);
      assert pks - (rest - {pk}) == (pks - rest) + {pk};
      WrittenStep(old(cluster.docs), src, target, contentType, pks - rest, pk);
      var _ := IndexObject(cluster, src, target, contentType, Some(pk));
      rest := rest - {pk};
    }
    assert pks - rest == pks;
  }

  // ---------------------------------------------------------------------------
  // One model

  /** The non-dry part of one model: delete the bad ids, then dispatch every pk. */
  method Reconcile(cmd: Command, cluster: Cluster, queue: TaskQueue, src: Source, model: ModelClass,
                   target: string, bad: set<int>, pks: set<int>, async: bool, q: Value)
    returns (o: Outcome)
    modifies cmd`out, cluster`docs, queue`jobs
    ensures var gone := BadKeys(model.docType, bad);
            && (!(gone <= old(cluster.docs).Keys) ==> o == Raised(NotFoundError) && queue.jobs == old(queue.jobs))
            && (gone <= old(cluster.docs).Keys ==>
                  && o == Completed
                  && (async ==> cluster.docs == old(cluster.docs) - gone
                                && |queue.jobs| >= |old(queue.jobs)| && queue.jobs[..|old(queue.jobs)|] == old(queue.jobs)
                                && OncePerPk(queue.jobs[|old(queue.jobs)|..], target, model.contentType, pks, q))
                  && (!async ==> queue.jobs == old(queue.jobs)
                                 && cluster.docs == Reindexed(old(cluster.docs) - gone, src, target,
                                                              model.contentType, pks)))
    ensures async ==> forall k :: k in cluster.docs ==> k in old(cluster.docs) && cluster.docs[k] == old(cluster.docs)[k]
  {
    if bad != {} {
      cmd.PrintAt(Info, "Deleting " + IntToString(|bad|) + " items", 1);
      var deleted := DeleteBadIds(cluster, model.docType, bad);
      if deleted.Err? {
        return Raised(deleted.error);
      }
    } else {
      assert BadKeys(model.docType, bad) == {};
      assert cluster.docs == old(cluster.docs) - {};
    }
    cmd.PrintAt(Info, "Reindexing " + IntToString(|pks|) + " items", 1);
    // `init_progressbar` is taken as output only; see RebuildModelAsWritten.
    if async {
      EnqueueAll(queue, target, model.contentType, pks, q);
    } else {
      ApplyAll(cluster, src, target, model.contentType, pks);
    }
    return Completed;
  }

  /** One model of `run`, corrected: the `init_progressbar` call (which raises
      AttributeError as written, see `RebuildModelAsWritten`) is taken as output only.
      Outside a dry run its effect on the store is `ModelStep`. */
  method RebuildModel(cmd: Command, cluster: Cluster, queue: TaskQueue, src: Source, model: ModelClass,
                      target: string, dryRun: bool, async: bool, q: Value)
    returns (o: Outcome)
    modifies cmd`out, cluster`docs, queue`jobs
    ensures var bad := BadIds(old(cluster.docs), src, model);
            && (bad.Err? ==> o == Raised(ValueError))
            && (bad.Err? || dryRun ==> cluster.docs == old(cluster.docs) && queue.jobs == old(queue.jobs))
            && (bad.Ok? && dryRun ==> o == Completed)
    ensures !dryRun ==> var step := ModelStep(old(cluster.docs), src, model, target, async);
              && (o == Completed <==> step.Ok?)
              && (step.Ok? ==> cluster.docs == step.value)
              && (step.Err? ==> o == Raised(step.error))
    ensures !async || o.Raised? ==> queue.jobs == old(queue.jobs)
    ensures async ==> forall k :: k in cluster.docs ==> k in old(cluster.docs) && cluster.docs[k] == old(cluster.docs)[k]
    ensures !dryRun && async && o == Completed ==>
              |queue.jobs| >= |old(queue.jobs)| && queue.jobs[..|old(queue.jobs)|] == old(queue.jobs)
              && multiset(queue.jobs[|old(queue.jobs)|..])
                 == multiset(JobSet(target, model.contentType, PkSet(QuerysetPks(src, model)), q))
  {
    cmd.PrintAt(Info, "Processing model: '" + model.name + "'.", 1);
    var dt := model.docType;
    var dbPks := PkSet(QuerysetPks(src, model));
    var es := ReadEsIds(ScanIds(cluster.docs, dt.index, dt.name));
    if es.Err? {
      return Raised(es.error);
    }
    var bad := es.value - dbPks;
    if dryRun {
      cmd.PrintAt(Info, "ES Items to delete: " + IntToString(|bad|), 1);
      cmd.PrintAt(Info, "Records to reindex: " + IntToString(|dbPks|), 1);
      return Completed;
    }
    o := Reconcile(cmd, cluster, queue, src, model, target, bad, dbPks, async, q);
    if async && o == Completed {
      OncePerPkJobs(queue.jobs[|old(queue.jobs)|..], target, model.contentType, dbPks, q);
    }
  }

  /** One model of `run` as the code stands: the non-dry branch deletes the bad ids and
      then calls `self.init_progressbar(len(db_pks))`, which neither the command,
      `ESBaseCommand` nor Django's `BaseCommand` defines. The lookup raises AttributeError
      before the first pk is dispatched, so no job is queued and no document is written. */
  method RebuildModelAsWritten(cmd: Command, cluster: Cluster, queue: TaskQueue, src: Source, model: ModelClass,
                               dryRun: bool)
    returns (o: Outcome)
    modifies cmd`out, cluster`docs
    ensures var bad := BadIds(old(cluster.docs), src, model);
            && (bad.Err? ==> o == Raised(ValueError) && cluster.docs == old(cluster.docs))
            && (bad.Ok? && dryRun ==> o == Completed && cluster.docs == old(cluster.docs))
            && (bad.Ok? && !dryRun ==>
                  var gone := BadKeys(model.docType, bad.value);
                  && (!(gone <= old(cluster.docs).Keys) ==> o == Raised(NotFoundError))
                  && (gone <= old(cluster.docs).Keys ==>
                        o == Raised(AttributeError) && cluster.docs == old(cluster.docs) - gone))
    ensures forall k :: k in cluster.docs ==> k in old(cluster.docs) && cluster.docs[k] == old(cluster.docs)[k]
  {
    cmd.PrintAt(Info, "Processing model: '" + model.name + "'.", 1);
    var dt := model.docType;
    var dbPks := PkSet(QuerysetPks(src, model));
    var es := ReadEsIds(ScanIds(cluster.docs, dt.index, dt.name));
    if es.Err? {
      return Raised(es.error);
    }
    var bad := es.value - dbPks;
    assert BadIds(old(cluster.docs), src, model) == Ok(bad);
    if dryRun {
      cmd.PrintAt(Info, "ES Items to delete: " + IntToString(|bad|), 1);
      cmd.PrintAt(Info, "Records to reindex: " + IntToString(|dbPks|), 1);
      return Completed;
    }
    if bad != {} {
      cmd.PrintAt(Info, "Deleting " + IntToString(|bad|) + " items", 1);
      var deleted := DeleteBadIds(cluster, dt, bad);
      if deleted.Err? {
        return Raised(deleted.error);
      }
    } else {
      assert BadKeys(dt, bad) == {};
      assert cluster.docs == old(cluster.docs) - {};
    }
    cmd.PrintAt(Info, "Reindexing " + IntToString(|dbPks|) + " items", 1);
    return Raised(AttributeError);
  }

  /** The headline property: when the target is the document type's own index, the stored
      ids are the canonical text of ints, and the Celery task indexes every pk under the model's
      document type, the ids stored under the document type after an inline rebuild are
      exactly the queryset's pks. The deletions find every bad id. */
  lemma RebuildSyncsIds(docs: map<DocKey, Value>, src: Source, model: ModelClass, target: string)
    requires target == model.docType.index
    requires forall s :: s in ScanIds(docs, model.docType.index, model.docType.name) ==>
               ParseInt(s).Ok? && IntToString(ParseInt(s).value) == s
    requires forall pk :: pk in QuerysetPks(src, model) ==>
               IndexedDoc(src, target, model.contentType, Some(pk)).Ok?
               && IndexedDoc(src, target, model.contentType, Some(pk)).value.0.docType == model.docType.name
    ensures BadIds(docs, src, model).Ok?
    ensures BadKeys(model.docType, BadIds(docs, src, model).value) <= docs.Keys
    ensures var pks := PkSet(QuerysetPks(src, model));
            var after := Reindexed(docs - BadKeys(model.docType, BadIds(docs, src, model).value), src, target,
                                   model.contentType, pks);
            ScanIds(after, model.docType.index, model.docType.name) == IdStrings(pks)
  {
    var dt := model.docType;
    var scanned := ScanIds(docs, dt.index, dt.name);
    var es := ParseIds(scanned).value;
    var pks := PkSet(QuerysetPks(src, model));
    var bad := es - pks;
    var gone := BadKeys(dt, bad);
    forall k | k in gone ensures k in docs {
      var b :| b in bad && k == DocKey(dt.index, dt.name, IntToString(b));
      var s :| s in scanned && ParseInt(s) == Ok(b);
    }
    var after := Reindexed(docs - gone, src, target, model.contentType, pks);
    IntToStringOneToOne();
    forall id ensures id in ScanIds(after, dt.index, dt.name) <==> id in IdStrings(pks) {
      var k := DocKey(dt.index, dt.name, id);
      if id in IdStrings(pks) {
        var pk :| pk in pks && id == IntToString(pk);
        assert IndexedDoc(src, target, model.contentType, Some(pk)).value.0 == k;
        assert k in Written(src, target, model.contentType, pks);
      }
      if k in after {
        if k in docs && k !in gone {
          assert id in scanned;
          var n := ParseInt(id).value;
          assert n in es;
          BadKeysMember(dt, bad, n);
          assert n in pks;
        } else {
          WrittenAt(src, target, model.contentType, pks, k);
          var pk := ParseInt(k.id).value;
          assert id == IntToString(pk);
        }
      }
    }
  }

  // ---------------------------------------------------------------------------
  // The run

  /** The jobs queued for one model: an index job per pk. */
  function JobSet(target: string, contentType: int, pks: set<int>, q: Value): set<Job> {
    set pk | pk in pks :: IndexJob(target, contentType, Some(pk), 0, q)
  }

  /** A sequence without repeats holds each of its elements once. */
  lemma {:induction false} DistinctMultiset(s: seq<Job>)
    requires forall i, j :: 0 <= i < j < |s| ==> s[i] != s[j]
    ensures multiset(s) == multiset(set x | x in s)
  {
    if s != [] {
      var init := s[..|s| - 1];
      var last := s[|s| - 1];
      assert s == init + [last];
      DistinctMultiset(init);
      assert last !in init;
      assert (set x | x in s) == (set x | x in init) + {last};
    }
  }

  /** The jobs queued for one model, counted with their multiplicity. */
  lemma OncePerPkJobs(jobs: seq<Job>, target: string, contentType: int, pks: set<int>, q: Value)
    requires OncePerPk(jobs, target, contentType, pks, q)
    ensures multiset(jobs) == multiset(JobSet(target, contentType, pks, q))
  {
    DistinctMultiset(jobs);
    forall x | x in jobs ensures x in JobSet(target, contentType, pks, q) {
      var i :| 0 <= i < |jobs| && jobs[i] == x;
      var pk := jobs[i].objectId.value;
      assert pk in pks && x == IndexJob(target, contentType, Some(pk), 0, q);
    }
    assert (set x | x in jobs) == JobSet(target, contentType, pks, q);
  }

  /** The store after the non-dry part of one model: its bad ids deleted (NotFoundError
      when one is not stored; ValueError when a stored id is not an integer), then, inline,
      every pk's document written into the target. */
  function ModelStep(docs: map<DocKey, Value>, src: Source, model: ModelClass, target: string, async: bool)
    : Result<map<DocKey, Value>>
  {
    var bad :- BadIds(docs, src, model);
    var gone := BadKeys(model.docType, bad);
    if !(gone <= docs.Keys) then Err(NotFoundError)
    else if async then Ok(docs - gone)
    else Ok(Reindexed(docs - gone, src, target, model.contentType, PkSet(QuerysetPks(src, model))))
  }

  /** The store after the non-dry run of `models`, one after the other; the first failing
      model's exception ends it. */
  function Rebuilt(docs: map<DocKey, Value>, src: Source, models: seq<ModelClass>, target: string, async: bool)
    : Result<map<DocKey, Value>>
    decreases |models|
  {
    if models == [] then Ok(docs)
    else
      var next :- ModelStep(docs, src, models[0], target, async);
      Rebuilt(next, src, models[1..], target, async)
  }

  /** The jobs an async non-dry run of `models` queues, one index job per pk of each model. */
  function QueuedJobs(src: Source, models: seq<ModelClass>, target: string, q: Value): multiset<Job>
    decreases |models|
  {
    if models == [] then multiset{}
    else
      var m := models[|models| - 1];
      QueuedJobs(src, models[..|models| - 1], target, q)
      + multiset(JobSet(target, m.contentType, PkSet(QuerysetPks(src, m)), q))
  }

  lemma RebuiltFrom(docs: map<DocKey, Value>, src: Source, models: seq<ModelClass>, i: nat, target: string, async: bool)
    requires i < |models|
    ensures var step := ModelStep(docs, src, models[i], target, async);
            && (step.Ok? ==> Rebuilt(docs, src, models[i..], target, async) == Rebuilt(step.value, src, models[i + 1..], target, async))
            && (step.Err? ==> Rebuilt(docs, src, models[i..], target, async) == Err(step.error))
  {
    assert models[i..][0] == models[i];
    assert models[i..][1..] == models[i + 1..];
  }

  lemma QueuedStep(src: Source, models: seq<ModelClass>, i: nat, target: string, q: Value)
    requires i < |models|
    ensures QueuedJobs(src, models[..i + 1], target, q)
            == QueuedJobs(src, models[..i], target, q)
               + multiset(JobSet(target, models[i].contentType, PkSet(QuerysetPks(src, models[i])), q))
  {
    assert models[..i + 1][..i] == models[..i];
  }

  /** An async run only deletes: every document left is one that was stored before. */
  lemma {:induction false} RebuiltAsyncOnlyDeletes(docs: map<DocKey, Value>, src: Source, models: seq<ModelClass>,
                                                   target: string)
    requires Rebuilt(docs, src, models, target, true).Ok?
    ensures var after := Rebuilt(docs, src, models, target, true).value;
            forall k :: k in after ==> k in docs && after[k] == docs[k]
    decreases |models|
  {
    if models != [] {
      RebuiltAsyncOnlyDeletes(ModelStep(docs, src, models[0], target, true).value, src, models[1..], target);
    }
  }

  /** For an index with one model, the inline run is the reconciliation of that model:
      afterwards the ids stored under its document type are exactly the queryset's pks. */
  lemma RebuiltSingleModelSyncsIds(docs: map<DocKey, Value>, src: Source, model: ModelClass)
    requires forall s :: s in ScanIds(docs, model.docType.index, model.docType.name) ==>
               ParseInt(s).Ok? && IntToString(ParseInt(s).value) == s
    requires forall pk :: pk in QuerysetPks(src, model) ==>
               IndexedDoc(src, model.docType.index, model.contentType, Some(pk)).Ok?
               && IndexedDoc(src, model.docType.index, model.contentType, Some(pk)).value.0.docType == model.docType.name
    ensures Rebuilt(docs, src, [model], model.docType.index, false).Ok?
    ensures ScanIds(Rebuilt(docs, src, [model], model.docType.index, false).value, model.docType.index, model.docType.name)
            == IdStrings(PkSet(QuerysetPks(src, model)))
  {
    RebuildSyncsIds(docs, src, model, model.docType.index);
    assert [model][1..] == [];
  }

  /** The jobs one more model queued extend the multiset of jobs queued so far. */
  lemma QueuedAppended(before: seq<Job>, after: seq<Job>, n: nat, src: Source, models: seq<ModelClass>, i: nat,
                       target: string, q: Value)
    requires i < |models|
    requires n <= |before| <= |after| && after[..|before|] == before
    requires multiset(before[n..]) == QueuedJobs(src, models[..i], target, q)
    requires multiset(after[|before|..])
             == multiset(JobSet(target, models[i].contentType, PkSet(QuerysetPks(src, models[i])), q))
    ensures after[..n] == before[..n]
    ensures multiset(after[n..]) == QueuedJobs(src, models[..i + 1], target, q)
  {
    JobsAppended(before, after, n);
    QueuedStep(src, models, i, target, q);
  }

  /** Jobs appended after `before` add their multiset to what was queued since `n`. */
  lemma JobsAppended(before: seq<Job>, after: seq<Job>, n: nat)
    requires n <= |before| <= |after| && after[..|before|] == before
    ensures after[..n] == before[..n]
    ensures multiset(after[n..]) == multiset(before[n..]) + multiset(after[|before|..])
  {
    assert after[n..] == before[n..] + after[|before|..];
  }

  /** The models loop of `run`, with each model run as the corrected `RebuildModel`; the
      first exception stops it. */
  method RebuildModels(cmd: Command, cluster: Cluster, queue: TaskQueue, src: Source, models: seq<ModelClass>,
                       target: string, dryRun: bool, async: bool, q: Value)
    returns (o: Outcome)
    modifies cmd`out, cluster`docs, queue`jobs
    ensures o == Completed || o.Raised?
    ensures dryRun ==> cluster.docs == old(cluster.docs) && queue.jobs == old(queue.jobs)
    ensures !async ==> queue.jobs == old(queue.jobs)
    ensures async ==> forall k :: k in cluster.docs ==> k in old(cluster.docs) && cluster.docs[k] == old(cluster.docs)[k]
    ensures !dryRun ==> var r := Rebuilt(old(cluster.docs), src, models, target, async);
              && (o == Completed <==> r.Ok?)
              && (r.Ok? ==> cluster.docs == r.value)
              && (r.Err? ==> o == Raised(r.error))
    ensures !dryRun && async && o == Completed ==>
              |queue.jobs| >= |old(queue.jobs)| && queue.jobs[..|old(queue.jobs)|] == old(queue.jobs)
              && multiset(queue.jobs[|old(queue.jobs)|..]) == QueuedJobs(src, models, target, q)
  {
    var n := |queue.jobs|;
    var i := 0;
    assert models[0..] == models;
    assert queue.jobs[n..] == [];
    while i < |models|
      invariant 0 <= i <= |models|
      invariant dryRun ==> cluster.docs == old(cluster.docs) && queue.jobs == old(queue.jobs)
      invariant !async ==> queue.jobs == old(queue.jobs)
      invariant async ==> forall k :: k in cluster.docs ==> k in old(cluster.docs) && cluster.docs[k] == old(cluster.docs)[k]
      invariant !dryRun ==> Rebuilt(old(cluster.docs), src, models, target, async)
                            == Rebuilt(cluster.docs, src, models[i..], target, async)
      invariant n == |old(queue.jobs)| <= |queue.jobs| && queue.jobs[..n] == old(queue.jobs)
      invariant !dryRun && async ==> multiset(queue.jobs[n..]) == QueuedJobs(src, models[..i], target, q)
    {
      RebuiltFrom(cluster.docs, src, models, i, target, async);
      ghost var before := queue.jobs;
      o := RebuildModel(cmd, cluster, queue, src, models[i], target, dryRun, async, q);
      if o.Raised? {
        return o;
      }
      if !dryRun && async {
        QueuedAppended(before, queue.jobs, n, src, models, i, target, q);
      }
      assert queue.jobs[..n] == before[..n];
      i := i + 1;
    }
    assert models[i..] == [];
    assert models[..i] == models;
    cmd.PrintAt(Success, "Indexation completed.", 1);
    return Completed;
  }

  /** `Command.run`: stop with status 1 when the target index does not exist; otherwise
      rebuild the index's models in registry order, each as the corrected `RebuildModel`
      (the `init_progressbar` call taken as output only). `q` is the configured
      `celery_queue`. */
  method Run(cmd: Command, cluster: Cluster, queue: TaskQueue, user: Option<Value>, modules: Modules, src: Source,
             options: Entries, q: Value)
    returns (o: Outcome)
    requires "index_name" in cmd.attrs && "target_name" in cmd.attrs && "dry_run" in cmd.attrs
    requires HasKey(options, "async")
    modifies cmd`attrs, cmd`out, cmd`err, cluster`docs, queue`jobs
    ensures cmd.attrs == old(cmd.attrs)["target_name" := TargetOf(old(cmd.attrs))]
    ensures var target := ToStr(TargetOf(old(cmd.attrs)));
            var models := IndexModels(user, modules, old(cmd.attrs["index_name"]));
            && (!cluster.Exists(target) ==>
                  o == Exited(1) && cmd.err == old(cmd.err) + [Line(Failure, "Index '" + target + "' does not exist.")])
            && (cluster.Exists(target) && models.Err? ==> o == Raised(models.error))
            && (!cluster.Exists(target) || models.Err? ==> cluster.docs == old(cluster.docs) && queue.jobs == old(queue.jobs))
    ensures o == Completed || o.Raised? || o == Exited(1)
    ensures Truthy(old(cmd.attrs["dry_run"])) ==> cluster.docs == old(cluster.docs) && queue.jobs == old(queue.jobs)
    ensures !Truthy(Get(options, "async").value) ==> queue.jobs == old(queue.jobs)
    ensures Truthy(Get(options, "async").value) ==>
              forall k :: k in cluster.docs ==> k in old(cluster.docs) && cluster.docs[k] == old(cluster.docs)[k]
    ensures var target := ToStr(TargetOf(old(cmd.attrs)));
            var models := IndexModels(user, modules, old(cmd.attrs["index_name"]));
            var async := Truthy(Get(options, "async").value);
            cluster.Exists(target) && models.Ok? && !Truthy(old(cmd.attrs["dry_run"])) ==>
              var r := Rebuilt(old(cluster.docs), src, models.value, target, async);
              && (o == Completed <==> r.Ok?)
              && (r.Ok? ==> cluster.docs == r.value)
              && (r.Err? ==> o == Raised(r.error))
              && (async && r.Ok? ==>
                    |queue.jobs| >= |old(queue.jobs)| && queue.jobs[..|old(queue.jobs)|] == old(queue.jobs)
                    && multiset(queue.jobs[|old(queue.jobs)|..]) == QueuedJobs(src, models.value, target, q))
  {
    var indexName, dryRun := cmd.attrs["index_name"], Truthy(cmd.attrs["dry_run"]);
    var targetName := TargetOf(cmd.attrs);
    cmd.attrs := cmd.attrs["target_name" := targetName];
    var target := ToStr(targetName);
    if !cluster.Exists(target) {
      cmd.PrintError("Index '" + target + "' does not exist.");
      return Exited(1);
    }
    cmd.PrintAt(Info, "Indexing objects on '" + target + "'.", 1);
    var models := GetIndexModels(user, modules, indexName);
    if models.Err? {
      return Raised(models.error);
    }
    var async := Truthy(Get(options, "async").value);
    assert models == IndexModels(user, modules, old(cmd.attrs["index_name"]));
    o := RebuildModels(cmd, cluster, queue, src, models.value, target, dryRun, async, q);
  }

  /** `handle` for this command. */
  method Handle(cmd: Command, options: Entries, cluster: Cluster, queue: TaskQueue, user: Option<Value>,
                modules: Modules, src: Source, q: Value)
    returns (o: Outcome)
    requires cmd.requiredOptions == ["index_name"]
    requires DistinctKeys(options)
    requires HasKey(options, "index_name") && HasKey(options, "target_name")
    requires HasKey(options, "dry_run") && HasKey(options, "async")
    modifies cmd, cluster`docs, queue`jobs
    ensures !o.Raised?
    ensures !IsSet(options, "index_name") ==>
              o == Exited(1) && cluster.docs == old(cluster.docs) && queue.jobs == old(queue.jobs)
              && cmd.err == old(cmd.err) + [Line(Failure, RequiredMessage("index_name"))]
  {
    o := cmd.ParseOptions(options);
    if o == Completed {
      WithOptionsGet(old(cmd.attrs), options, "index_name");
      WithOptionsGet(old(cmd.attrs), options, "target_name");
      WithOptionsGet(old(cmd.attrs), options, "dry_run");
      assert IsSet(options, "index_name");
      o := Run(cmd, cluster, queue, user, modules, src, options, q);
    }
    o := cmd.Conclude(o);
  }
}

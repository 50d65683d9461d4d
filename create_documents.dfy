/** `es_create_documents`: for every model of an index, optionally delete the stored
    documents whose ids are no longer in the model's indexable queryset, then index every
    object of the queryset and tally the outcomes per model. */
module CreateDocuments {
  import opened Py
  import opened Models
  import opened Tasks
  import opened Apps
  import opened Base

  const MaxThreadsDefault: int := 4

  /** `get_max_threads()`: the `max_threads` option as an int when it is one in [1, 10];
      the default 4 otherwise, whatever went wrong reading it. */
  function MaxThreads(attrs: map<string, Value>): (n: int)
    ensures 1 <= n <= 10
    ensures ("max_threads" in attrs && ToInt(attrs["max_threads"]).Ok?
             && 1 <= ToInt(attrs["max_threads"]).value <= 10) ==> n == ToInt(attrs["max_threads"]).value
    ensures ("max_threads" !in attrs || ToInt(attrs["max_threads"]).Err?
             || !(1 <= ToInt(attrs["max_threads"]).value <= 10)) ==> n == MaxThreadsDefault
  {
    if "max_threads" !in attrs then MaxThreadsDefault
    else
      match ToInt(attrs["max_threads"])
      case Err(_) => MaxThreadsDefault
      case Ok(m) => if m < 1 || m > 10 then MaxThreadsDefault else m
  }

  /** What the indexing task reports for one object. `NoStatus` stands for any value that
      is none of the three status constants (the Celery task in `trampoline/tasks.py` returns None). */
  datatype Status = StatusIndexed | StatusFailed | StatusIgnored | NoStatus

  /** The `result` dict `index_object` returns. */
  datatype IndexResult = IndexResult(status: Status, objectId: int, contentTypeId: int, exc: Option<Error>)

  /** `index_object(content_type_id, object_id)`: INDEXED without running the Celery task in
      a dry run. Otherwise `es_index_object.run(target_name, ...)` saves the object's
      document and reports `reported`, the status the installed task returns; an exception
      it raises (a missing record, a mapping that fails) gives FAILED with the exception kept. */
  function IndexObjectResult(dryRun: bool, src: Source, reported: Status, target: string, contentType: int,
                             objectId: int)
    : (r: IndexResult)
    ensures r.objectId == objectId && r.contentTypeId == contentType
    ensures dryRun ==> r.status == StatusIndexed && r.exc.None?
    ensures var d := IndexedDoc(src, target, contentType, Some(objectId));
            && (!dryRun && d.Ok? ==> r.status == reported && r.exc.None?)
            && (!dryRun && d.Err? ==> r.status == StatusFailed && r.exc == Some(d.error))
  {
    var r := IndexResult(StatusIndexed, objectId, contentType, None);
    if dryRun then r
    else
      match IndexedDoc(src, target, contentType, Some(objectId))
      case Ok(_) => r.(status := reported)
      case Err(e) => r.(status := StatusFailed, exc := Some(e))
  }

  /** `index_object` as the worker threads run it: outside a dry run the object's document
      is written into the target index. */
  method IndexOne(cluster: Cluster, src: Source, reported: Status, target: string, contentType: int,
                  objectId: int, dryRun: bool)
    returns (result: IndexResult)
    modifies cluster`docs
    ensures result == IndexObjectResult(dryRun, src, reported, target, contentType, objectId)
    ensures var d := IndexedDoc(src, target, contentType, Some(objectId));
            cluster.docs == if !dryRun && d.Ok? then old(cluster.docs)[d.value.0 := d.value.1] else old(cluster.docs)
  {
    result := IndexResult(StatusIndexed, objectId, contentType, None);
    if !dryRun {
      var written := IndexObject(cluster, src, target, contentType, Some(objectId));
      if written.Ok? {
        result := result.(status := reported);
      } else {
        result := result.(status := StatusFailed, exc := Some(written.error));
      }
    }
  }

  /** The `progress_status` dict of one model. */
  datatype Counters = Counters(indexed: nat, failed: nat, ignored: nat)

  /** `if status in progress_status: progress_status[status] += 1`. */
  function Tally(c: Counters, s: Status): Counters {
    match s
    case StatusIndexed => c.(indexed := c.indexed + 1)
    case StatusFailed => c.(failed := c.failed + 1)
    case StatusIgnored => c.(ignored := c.ignored + 1)
    case NoStatus => c
  }

  /** The counters after folding a model's results into fresh ones: each counter is the
      number of results with its status. */
  function Counts(statuses: seq<Status>): (c: Counters)
    ensures c.indexed == multiset(statuses)[StatusIndexed]
    ensures c.failed == multiset(statuses)[StatusFailed]
    ensures c.ignored == multiset(statuses)[StatusIgnored]
  {
    if statuses == [] then Counters(0, 0, 0)
    else
      var init := statuses[..|statuses| - 1];
      assert statuses == init + [statuses[|statuses| - 1]];
      Tally(Counts(init), statuses[|statuses| - 1])
  }

  /** Each result raises at most one counter, so together they never exceed the number of
      objects; what is missing is exactly the results with no known status. */
  lemma {:induction false} CountsBound(statuses: seq<Status>)
    ensures Counts(statuses).indexed + Counts(statuses).failed + Counts(statuses).ignored
            + multiset(statuses)[NoStatus] == |statuses|
    ensures Counts(statuses).indexed + Counts(statuses).failed + Counts(statuses).ignored <= |statuses|
  {
    if statuses != [] {
      var init := statuses[..|statuses| - 1];
      var last := statuses[|statuses| - 1];
      CountsBound(init);
      assert statuses == init + [last];
      assert multiset(statuses) == multiset(init) + multiset{last};
      assert Counts(statuses) == Tally(Counts(init), last);
    }
  }

  /** The results of one model's objects, in queryset order. */
  function Results(dryRun: bool, src: Source, reported: Status, target: string, contentType: int, ids: seq<int>)
    : (rs: seq<IndexResult>)
    ensures |rs| == |ids|
    ensures forall i :: 0 <= i < |ids| ==> rs[i] == IndexObjectResult(dryRun, src, reported, target, contentType, ids[i])
  {
    seq(|ids|, i requires 0 <= i < |ids| => IndexObjectResult(dryRun, src, reported, target, contentType, ids[i]))
  }

  function StatusesOf(rs: seq<IndexResult>): (s: seq<Status>)
    ensures |s| == |rs| && forall i :: 0 <= i < |rs| ==> s[i] == rs[i].status
  {
    seq(|rs|, i requires 0 <= i < |rs| => rs[i].status)
  }

  /** The statuses of one model's objects, in queryset order. */
  function Statuses(dryRun: bool, src: Source, reported: Status, target: string, contentType: int, ids: seq<int>)
    : seq<Status>
  {
    StatusesOf(Results(dryRun, src, reported, target, contentType, ids))
  }

  /** The worker threads hand results back in completion order; the counters do not
      depend on that order. */
  lemma CountsIgnoreCompletionOrder(a: seq<Status>, b: seq<Status>)
    requires multiset(a) == multiset(b)
    ensures Counts(a) == Counts(b)
  {
  }

  lemma CountStep(rs: seq<IndexResult>, i: nat)
    requires i < |rs|
    ensures Counts(StatusesOf(rs[..i + 1])) == Tally(Counts(StatusesOf(rs[..i])), rs[i].status)
  {
    assert rs[..i + 1][..i] == rs[..i];
    assert StatusesOf(rs[..i + 1]) == StatusesOf(rs[..i]) + [rs[i].status];
  }

  // ---------------------------------------------------------------------------
  // Cleanup

  /** The ids `delete_stale_documents` removes: stored under the model's document type in
      its own index, and not the text of any queryset pk. */
  function StaleIds(docs: map<DocKey, Value>, docType: DocType, ids: seq<int>): (s: set<string>)
    ensures forall id :: id in s <==> DocKey(docType.index, docType.name, id) in docs && id !in IdStrings(PkSet(ids))
  {
    ScanIds(docs, docType.index, docType.name) - IdStrings(PkSet(ids))
  }

  function Keys(docType: DocType, ids: set<string>): set<DocKey> {
    set id | id in ids :: DocKey(docType.index, docType.name, id)
  }

  lemma KeysStep(docType: DocType, all: set<string>, stale: set<string>, id: string)
    requires id in stale && stale <= all
    ensures Keys(docType, all - (stale - {id})) == Keys(docType, all - stale) + {DocKey(docType.index, docType.name, id)}
  {
    assert all - (stale - {id}) == (all - stale) + {id};
  }

  /** `for stale_id in stale_ids: model.es_doc_type.get(stale_id).delete(ignore=404)`:
      every id's document is deleted. The `get` has no `ignore`, so fetching an id that
      is not stored raises NotFoundError (the `ignore=404` of `delete` only covers a
      document gone between the two calls, which a single store cannot show); nothing
      outside the given ids is ever touched. */
  method DeleteIds(cluster: Cluster, docType: DocType, ids: set<string>) returns (r: Result<()>)
    modifies cluster`docs
    ensures r.Ok? <==> Keys(docType, ids) <= old(cluster.docs).Keys
    ensures r.Err? ==> r.error == NotFoundError
    ensures r.Ok? ==> cluster.docs == old(cluster.docs) - Keys(docType, ids)
    ensures forall k :: k in old(cluster.docs) && k !in Keys(docType, ids) ==>
              k in cluster.docs && cluster.docs[k] == old(cluster.docs)[k]
    ensures forall k :: k in cluster.docs ==> k in old(cluster.docs) && cluster.docs[k] == old(cluster.docs)[k]
  {
    var rest := ids;
    while rest != {}
      invariant rest <= ids
      invariant cluster.docs == old(cluster.docs) - Keys(docType, ids - rest)
      invariant Keys(docType, ids - rest) <= old(cluster.docs).Keys
      decreases |rest|
    {
      var id :| id in rest;
      var key := DocKey(docType.index, docType.name, id);
      KeysStep(docType, ids, rest, id);
      MinusStep(cluster.docs, old(cluster.docs), Keys(docType, ids - rest), key);
      var deleted := cluster.Delete(key);
      if deleted.Err? {
        return deleted;
      }
      rest := rest - {id};
    }
    assert ids - rest == ids;
    return Ok(());
  }

  /** `delete_stale_documents(model, object_ids)`: every stale id was found by the scan,
      so each `get` finds its document and the deletion completes. */
  method DeleteStaleDocuments(cmd: Command, cluster: Cluster, docType: DocType, ids: seq<int>)
    modifies cmd`out, cluster`docs
    ensures cluster.docs == old(cluster.docs) - Keys(docType, StaleIds(old(cluster.docs), docType, ids))
  {
    cmd.PrintAt(Info, "Deleting stale documents.", 1);
    var stale := StaleIds(cluster.docs, docType, ids);
    var deleted := DeleteIds(cluster, docType, stale);
    assert deleted.Ok?;
    cmd.PrintAt(Success, "Cleanup completed.", 1);
  }

  /** After the cleanup every id left under the model's document type is the text of a
      queryset pk, and nothing outside that document type was touched. */
  lemma CleanupLeavesQuerysetIds(docs: map<DocKey, Value>, docType: DocType, ids: seq<int>)
    ensures var after := docs - Keys(docType, StaleIds(docs, docType, ids));
            && ScanIds(after, docType.index, docType.name)
               == ScanIds(docs, docType.index, docType.name) * IdStrings(PkSet(ids))
            && forall k :: k in docs && (k.index != docType.index || k.docType != docType.name) ==>
                             k in after && after[k] == docs[k]
  {
    var after := docs - Keys(docType, StaleIds(docs, docType, ids));
    forall id
      ensures id in ScanIds(after, docType.index, docType.name)
              <==> id in ScanIds(docs, docType.index, docType.name) * IdStrings(PkSet(ids))
    {
      var k := DocKey(docType.index, docType.name, id);
      if k in Keys(docType, StaleIds(docs, docType, ids)) {
        assert id in StaleIds(docs, docType, ids);
      }
    }
  }

  // ---------------------------------------------------------------------------
  // The run

  /** The stored documents after `delete_stale_documents`, when the cleanup is asked for. */
  function Cleaned(docs: map<DocKey, Value>, src: Source, model: ModelClass, cleanup: bool): map<DocKey, Value> {
    if cleanup then docs - Keys(model.docType, StaleIds(docs, model.docType, QuerysetPks(src, model))) else docs
  }

  /** The stored documents after one model: the cleanup when asked for (even in a dry
      run), then, outside a dry run, the document of every queryset pk written into the
      target index. */
  function ModelStore(docs: map<DocKey, Value>, src: Source, target: string, model: ModelClass,
                      dryRun: bool, cleanup: bool): map<DocKey, Value>
  {
    var cleaned := Cleaned(docs, src, model, cleanup);
    if dryRun then cleaned else Reindexed(cleaned, src, target, model.contentType, PkSet(QuerysetPks(src, model)))
  }

  /** The writes of the indexing pass for one more queryset pk. */
  lemma IndexStep(docs: map<DocKey, Value>, src: Source, target: string, contentType: int, ids: seq<int>, i: nat)
    requires i < |ids|
    ensures var d := IndexedDoc(src, target, contentType, Some(ids[i]));
            var before := Reindexed(docs, src, target, contentType, PkSet(ids[..i]));
            Reindexed(docs, src, target, contentType, PkSet(ids[..i + 1]))
            == if d.Ok? then before[d.value.0 := d.value.1] else before
  {
    var done := PkSet(ids[..i]);
    assert ids[..i + 1] == ids[..i] + [ids[i]];
    assert PkSet(ids[..i + 1]) == done + {ids[i]};
    if ids[i] in done {
      assert done + {ids[i]} == done;
      if IndexedDoc(src, target, contentType, Some(ids[i])).Ok? {
        WrittenAgain(docs, src, target, contentType, done, ids[i]);
      }
    } else {
      WrittenStep(docs, src, target, contentType, done, ids[i]);
    }
  }

  /** One model of `run`: the cleanup when asked for (even in a dry run), then one result
      per queryset pk folded into fresh counters, each object's document written into the
      target index outside a dry run. */
  method ProcessModel(cmd: Command, cluster: Cluster, src: Source, reported: Status, target: string,
                      model: ModelClass, dryRun: bool, cleanup: bool)
    returns (counters: Counters)
    modifies cmd`out, cluster`docs
    ensures counters == Counts(Statuses(dryRun, src, reported, target, model.contentType, QuerysetPks(src, model)))
    ensures cluster.docs == ModelStore(old(cluster.docs), src, target, model, dryRun, cleanup)
  {
    var ids := QuerysetPks(src, model);
    var ct := model.contentType;
    cmd.PrintAt(Info, "Processing model: '" + model.name + "'.", 1);
    if cleanup {
      DeleteStaleDocuments(cmd, cluster, model.docType, ids);
    }
    ghost var rs := Results(dryRun, src, reported, target, ct, ids);
    ghost var cleaned := cluster.docs;
    assert cleaned == Reindexed(cleaned, src, target, ct, PkSet(ids[..0]));
    counters := Counters(0, 0, 0);
    var i := 0;
    while i < |ids|
      invariant 0 <= i <= |ids|
      invariant counters == Counts(StatusesOf(rs[..i]))
      invariant cluster.docs == if dryRun then cleaned else Reindexed(cleaned, src, target, ct, PkSet(ids[..i]))
    {
      IndexStep(cleaned, src, target, ct, ids, i);
      var result := IndexOne(cluster, src, reported, target, ct, ids[i], dryRun);
      CountStep(rs, i);
      counters := Tally(counters, result.status);
      i := i + 1;
    }
    assert rs[..i] == rs;
    assert ids[..i] == ids;
  }

  /** The stored documents after `models`, one model after the other. */
  function Processed(docs: map<DocKey, Value>, src: Source, target: string, models: seq<ModelClass>,
                     dryRun: bool, cleanup: bool): map<DocKey, Value>
    decreases |models|
  {
    if models == [] then docs
    else Processed(ModelStore(docs, src, target, models[0], dryRun, cleanup), src, target, models[1..], dryRun, cleanup)
  }

  /** The counters of every model, in model order. */
  function Tallies(dryRun: bool, src: Source, reported: Status, target: string, models: seq<ModelClass>)
    : seq<Counters>
  {
    seq(|models|, i requires 0 <= i < |models| =>
      Counts(Statuses(dryRun, src, reported, target, models[i].contentType, QuerysetPks(src, models[i]))))
  }

  lemma ProcessedFrom(src: Source, target: string, models: seq<ModelClass>, i: nat, docs: map<DocKey, Value>,
                      dryRun: bool, cleanup: bool)
    requires i < |models|
    ensures Processed(docs, src, target, models[i..], dryRun, cleanup)
            == Processed(ModelStore(docs, src, target, models[i], dryRun, cleanup), src, target, models[i + 1..], dryRun, cleanup)
  {
    assert models[i..][1..] == models[i + 1..];
  }

  lemma TalliesStep(dryRun: bool, src: Source, reported: Status, target: string, models: seq<ModelClass>, i: nat)
    requires i < |models|
    ensures var all := Tallies(dryRun, src, reported, target, models);
            all[..i + 1] == all[..i] + [Counts(Statuses(dryRun, src, reported, target, models[i].contentType,
                                                        QuerysetPks(src, models[i])))]
  {
  }

  /** The models loop of `run`. */
  method ProcessModels(cmd: Command, cluster: Cluster, src: Source, reported: Status, target: string,
                       models: seq<ModelClass>, dryRun: bool, cleanup: bool)
    returns (tallies: seq<Counters>)
    modifies cmd`out, cluster`docs
    ensures tallies == Tallies(dryRun, src, reported, target, models)
    ensures cluster.docs == Processed(old(cluster.docs), src, target, models, dryRun, cleanup)
  {
    ghost var all := Tallies(dryRun, src, reported, target, models);
    tallies := [];
    var i := 0;
    assert models[0..] == models;
    while i < |models|
      invariant 0 <= i <= |models|
      invariant tallies == all[..i]
      invariant Processed(old(cluster.docs), src, target, models, dryRun, cleanup)
                == Processed(cluster.docs, src, target, models[i..], dryRun, cleanup)
    {
      ProcessedFrom(src, target, models, i, cluster.docs, dryRun, cleanup);
      var c := ProcessModel(cmd, cluster, src, reported, target, models[i], dryRun, cleanup);
      TalliesStep(dryRun, src, reported, target, models, i);
      tallies := tallies + [c];
      i := i + 1;
    }
    assert models[i..] == [];
    assert all[..i] == all;
  }

  /** A dry run writes nothing: at most the cleanup removes documents. */
  lemma {:induction false} DryRunOnlyCleans(docs: map<DocKey, Value>, src: Source, target: string, models: seq<ModelClass>,
                                            cleanup: bool)
    ensures var after := Processed(docs, src, target, models, true, cleanup);
            forall k :: k in after ==> k in docs && after[k] == docs[k]
    ensures !cleanup ==> Processed(docs, src, target, models, true, cleanup) == docs
    decreases |models|
  {
    if models != [] {
      DryRunOnlyCleans(ModelStore(docs, src, target, models[0], true, cleanup), src, target, models[1..], cleanup);
    }
  }

  /** The reconciliation `es_create_documents --cleanup` performs when it writes into the
      document type's own index and every queryset record maps to a document of that type:
      afterwards the ids stored under the document type are exactly the queryset's pks. */
  lemma CleanupAndIndexSyncIds(docs: map<DocKey, Value>, src: Source, model: ModelClass)
    requires forall pk :: pk in QuerysetPks(src, model) ==>
               IndexedDoc(src, model.docType.index, model.contentType, Some(pk)).Ok?
               && IndexedDoc(src, model.docType.index, model.contentType, Some(pk)).value.0.docType == model.docType.name
    ensures ScanIds(ModelStore(docs, src, model.docType.index, model, false, true), model.docType.index, model.docType.name)
            == IdStrings(PkSet(QuerysetPks(src, model)))
  {
    var dt := model.docType;
    var ct := model.contentType;
    var pks := PkSet(QuerysetPks(src, model));
    var cleaned := Cleaned(docs, src, model, true);
    CleanupLeavesQuerysetIds(docs, dt, QuerysetPks(src, model));
    var after := Reindexed(cleaned, src, dt.index, ct, pks);
    IntToStringOneToOne();
    forall id ensures id in ScanIds(after, dt.index, dt.name) <==> id in IdStrings(pks) {
      var k := DocKey(dt.index, dt.name, id);
      if id in IdStrings(pks) {
        var pk :| pk in pks && id == IntToString(pk);
        assert IndexedDoc(src, dt.index, ct, Some(pk)).value.0 == k;
        assert k in Written(src, dt.index, ct, pks);
      }
      if k in after && k !in cleaned {
        WrittenAt(src, dt.index, ct, pks, k);
        var pk := ParseInt(k.id).value;
        assert id == IntToString(pk);
      }
    }
  }

  /** Stored documents for pks 1, 2 and 3, a queryset listing 2, 3 and 4: after a run
      with cleanup into the document type's own index, the stored ids are 2, 3 and 4. */
  lemma ReconcileExample(docs: map<DocKey, Value>, src: Source, model: ModelClass)
    requires QuerysetPks(src, model) == [2, 3, 4]
    requires forall pk :: pk in QuerysetPks(src, model) ==>
               IndexedDoc(src, model.docType.index, model.contentType, Some(pk)).Ok?
               && IndexedDoc(src, model.docType.index, model.contentType, Some(pk)).value.0.docType == model.docType.name
    requires ScanIds(docs, model.docType.index, model.docType.name) == {"1", "2", "3"}
    ensures ScanIds(ModelStore(docs, src, model.docType.index, model, false, true), model.docType.index, model.docType.name)
            == {"2", "3", "4"}
  {
    CleanupAndIndexSyncIds(docs, src, model);
    assert PkSet([2, 3, 4]) == {2, 3, 4};
    SmallIdStrings();
  }

  lemma SmallIdStrings()
    ensures IdStrings({2, 3, 4}) == {"2", "3", "4"}
  {
    assert IntToString(2) == "2" && IntToString(3) == "3" && IntToString(4) == "4";
    forall id | id in IdStrings({2, 3, 4}) ensures id in {"2", "3", "4"} {
      var pk :| pk in {2, 3, 4} && IntToString(pk) == id;
    }
  }

  /** `Command.run`: stop with status 1 when the target index does not exist; otherwise
      process the index's models in registry order. */
  method Run(cmd: Command, cluster: Cluster, user: Option<Value>, modules: Modules, src: Source, reported: Status)
    returns (o: Outcome, tallies: seq<Counters>)
    requires "index_name" in cmd.attrs && "target_name" in cmd.attrs
    requires "dry_run" in cmd.attrs && "cleanup" in cmd.attrs
    modifies cmd`attrs, cmd`out, cmd`err, cluster`docs
    ensures cmd.attrs == old(cmd.attrs)["target_name" := TargetOf(old(cmd.attrs))]
    ensures var target := ToStr(TargetOf(old(cmd.attrs)));
            var models := IndexModels(user, modules, old(cmd.attrs["index_name"]));
            && (!cluster.Exists(target) ==>
                  o == Exited(1) && cluster.docs == old(cluster.docs)
                  && cmd.err == old(cmd.err) + [Line(Failure, "Index '" + target + "' does not exist.")])
            && (cluster.Exists(target) && models.Err? ==>
                  o == Raised(models.error) && cluster.docs == old(cluster.docs))
            && (cluster.Exists(target) && models.Ok? ==>
                  && o == Completed
                  && tallies == Tallies(Truthy(old(cmd.attrs["dry_run"])), src, reported, target, models.value)
                  && cluster.docs == Processed(old(cluster.docs), src, target, models.value,
                                               Truthy(old(cmd.attrs["dry_run"])), Truthy(old(cmd.attrs["cleanup"]))))
  {
    tallies := [];
    var indexName, dryRun, cleanup := cmd.attrs["index_name"], Truthy(cmd.attrs["dry_run"]), Truthy(cmd.attrs["cleanup"]);
    var targetName := TargetOf(cmd.attrs);
    cmd.attrs := cmd.attrs["target_name" := targetName];
    var target := ToStr(targetName);
    if !cluster.Exists(target) {
      cmd.PrintError("Index '" + target + "' does not exist.");
      return Exited(1), tallies;
    }
    cmd.PrintAt(Info, "Indexing objects on '" + target + "'.", 1);
    var models := GetIndexModels(user, modules, indexName);
    if models.Err? {
      return Raised(models.error), tallies;
    }
    tallies := ProcessModels(cmd, cluster, src, reported, target, models.value, dryRun, cleanup);
    cmd.PrintAt(Success, "Indexation completed.", 1);
    o := Completed;
  }

  /** `handle` for this command. */
  method Handle(cmd: Command, options: Entries, cluster: Cluster, user: Option<Value>, modules: Modules,
                src: Source, reported: Status)
    returns (o: Outcome, tallies: seq<Counters>)
    requires cmd.requiredOptions == ["index_name"]
    requires DistinctKeys(options)
    requires HasKey(options, "index_name") && HasKey(options, "target_name")
    requires HasKey(options, "dry_run") && HasKey(options, "cleanup")
    modifies cmd, cluster`docs
    ensures !o.Raised?
    ensures !IsSet(options, "index_name") ==>
              o == Exited(1) && cluster.docs == old(cluster.docs)
              && cmd.err == old(cmd.err) + [Line(Failure, RequiredMessage("index_name"))]
  {
    tallies := [];
    o := cmd.ParseOptions(options);
    if o == Completed {
      WithOptionsGet(old(cmd.attrs), options, "index_name");
      WithOptionsGet(old(cmd.attrs), options, "target_name");
      WithOptionsGet(old(cmd.attrs), options, "dry_run");
      WithOptionsGet(old(cmd.attrs), options, "cleanup");
      assert IsSet(options, "index_name");
      o, tallies := Run(cmd, cluster, user, modules, src, reported);
    }
    o := cmd.Conclude(o);
  }
}

/** The indexable mixin: the per-instance defaults (`is_indexable`, `get_es_doc`) and the
    two dispatchers `es_index` and `es_delete`, which hand a task to the Celery queue or
    run it inline. */
module Mixins {
  import opened Py
  import opened Models
  import opened Tasks

  /** A task handed to the asynchronous task queue. */
  datatype Job =
    | IndexJob(index: string, contentType: int, objectId: Option<int>, countdown: int, queue: Value)
    | DeleteJob(index: string, docType: string, docId: Option<int>)

  /** The asynchronous task queue, seen from the side that sends work to it. */
  class TaskQueue {
    var jobs: seq<Job>

    constructor ()
      ensures jobs == []
    {
      jobs := [];
    }

    /** `apply_async` / `delay`: the job joins the queue; nothing runs now. */
    method Enqueue(job: Job)
      modifies this`jobs
      ensures jobs == old(jobs) + [job]
    {
      jobs := jobs + [job];
    }
  }

  /** What a call to `es_index` returned. */
  datatype Dispatch =
    | NotDispatched                  // the configuration is disabled; the call returned None
    | Queued(job: Job)               // handed to the queue
    | RanInline(outcome: Result<()>) // applied in-process; the outcome is what the Celery task raised, if anything

  /** `is_indexable()`: the class's own answer, and True for a class that keeps the default. */
  function IsIndexable(r: Record): (b: bool)
    ensures r.indexable.None? ==> b
    ensures r.indexable.Some? ==> b == r.indexable.value
  {
    r.indexable.GetOr(true)
  }

  /** `index_name or doc_type._doc_type.index`: an absent or empty name falls back to the
      document type's index. */
  function IndexNameOr(given: Option<string>, docType: DocType): (name: string)
    ensures given.Some? && given.value != "" ==> name == given.value
    ensures given.None? || given.value == "" ==> name == docType.index
  {
    if given.Some? && given.value != "" then given.value else docType.index
  }

  /** A pk Python treats as true: present and non-zero. */
  predicate HasPk(r: Record) {
    r.pk.Some? && r.pk.value != 0
  }

  /** `get_es_doc()`: nothing for an instance without a (truthy) pk; otherwise the stored
      document at the pk in the document type's own index, or nothing on a 404. */
  function GetEsDoc(docs: map<DocKey, Value>, r: Record): (doc: Option<Value>)
    ensures !HasPk(r) ==> doc.None?
    ensures HasPk(r) ==>
              var key := DocKey(r.model.docType.index, r.model.docType.name, IntToString(r.pk.value));
              (doc.Some? <==> key in docs) && (doc.Some? ==> doc.value == docs[key])
  {
    if !HasPk(r) then None
    else
      var key := DocKey(r.model.docType.index, r.model.docType.name, IntToString(r.pk.value));
      if key in docs then Some(docs[key]) else None
  }

  /** `es_index(async, countdown, index_name)`: unless disabled, exactly one index task for
      (index name, content type, pk), queued with the countdown or applied inline. */
  method EsIndex(r: Record, disabled: bool, async: bool, countdown: int, indexName: Option<string>,
                 queue: TaskQueue, cluster: Cluster, src: Source)
    returns (d: Dispatch)
    modifies queue, cluster`docs
    ensures disabled ==> d == NotDispatched
    ensures disabled || !async ==> queue.jobs == old(queue.jobs)
    ensures !disabled && async ==>
              var job := IndexJob(IndexNameOr(indexName, r.model.docType), r.model.contentType, r.pk, countdown, Null);
              d == Queued(job) && queue.jobs == old(queue.jobs) + [job]
    ensures disabled || async ==> cluster.docs == old(cluster.docs)
    ensures !disabled && !async ==>
              var idx := IndexNameOr(indexName, r.model.docType);
              var w := IndexedDoc(src, idx, r.model.contentType, r.pk);
              d.RanInline? && (d.outcome.Ok? <==> w.Ok?)
              && cluster.docs == (if w.Ok? then old(cluster.docs)[w.value.0 := w.value.1] else old(cluster.docs))
  {
    if disabled {
      return NotDispatched;
    }
    var idx := IndexNameOr(indexName, r.model.docType);
    if async {
      var job := IndexJob(idx, r.model.contentType, r.pk, countdown, Null);
      queue.Enqueue(job);
      d := Queued(job);
    } else {
      var outcome := IndexObject(cluster, src, idx, r.model.contentType, r.pk);
      d := RanInline(outcome);
    }
  }

  /** `es_delete(async, index_name)`: unless disabled, exactly one delete task for
      (index name, document type name, pk), queued or applied inline. */
  method EsDelete(r: Record, disabled: bool, async: bool, indexName: Option<string>,
                  queue: TaskQueue, cluster: Cluster)
    modifies queue, cluster`docs
    ensures disabled || !async ==> queue.jobs == old(queue.jobs)
    ensures !disabled && async ==>
              queue.jobs == old(queue.jobs)
                            + [DeleteJob(IndexNameOr(indexName, r.model.docType), r.model.docType.name, r.pk)]
    ensures disabled || async ==> cluster.docs == old(cluster.docs)
    ensures !disabled && !async ==>
              var k := DeleteKey(IndexNameOr(indexName, r.model.docType), r.model.docType.name, r.pk);
              cluster.docs == if k.Ok? then old(cluster.docs) - {k.value} else old(cluster.docs)
  {
    if disabled {
      return;
    }
    var idx := IndexNameOr(indexName, r.model.docType);
    if async {
      queue.Enqueue(DeleteJob(idx, r.model.docType.name, r.pk));
    } else {
      var _ := DeleteDoc(cluster, idx, r.model.docType.name, r.pk);
    }
  }
}

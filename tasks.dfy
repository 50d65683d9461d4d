/** The document store the Celery tasks write to, and the two synchronisation tasks:
    `es_index_object` (upsert one record's document) and `es_delete_doc`. */
module Tasks {
  import opened Py
  import opened Models

  /** A document's address: index, document type and id (ids are strings in the store). */
  datatype DocKey = DocKey(index: string, docType: string, id: string)

  /** The abstract document store: the indices that exist, with the document types
      registered on each, and the stored documents. */
  class Cluster {
    var indices: map<string, seq<string>>
    var docs: map<DocKey, Value>

    constructor (indices: map<string, seq<string>>, docs: map<DocKey, Value>)
      ensures this.indices == indices && this.docs == docs
    {
      this.indices := indices;
      this.docs := docs;
    }

    /** `Index(name).exists()`. */
    predicate Exists(name: string)
      reads this
    {
      name in indices
    }

    /** `Index(name).create()` with the given document types registered on it; the store
        refuses a name that is already taken. */
    method CreateIndex(name: string, docTypes: seq<string>) returns (r: Result<()>)
      modifies this`indices
      ensures r.Ok? <==> name !in old(indices)
      ensures r.Err? ==> r.error == AlreadyExistsError && indices == old(indices)
      ensures r.Ok? ==> indices == old(indices)[name := docTypes]
    {
      if name in indices {
        return Err(AlreadyExistsError);
      }
      indices := indices[name := docTypes];
      return Ok(());
    }

    /** Upsert: the document at `key` becomes `body`, whatever was there before. */
    method Save(key: DocKey, body: Value)
      modifies this`docs
      ensures docs == old(docs)[key := body]
    {
      docs := docs[key := body];
    }

    /** Delete by address; a missing document is answered with a 404. */
    method Delete(key: DocKey) returns (r: Result<()>)
      modifies this`docs
      ensures r.Ok? <==> key in old(docs)
      ensures r.Err? ==> r.error == NotFoundError
      ensures docs == old(docs) - {key}
    {
      if key !in docs {
        return Err(NotFoundError);
      }
      docs := docs - {key};
      return Ok(());
    }
  }

  /** Removing keys one at a time: one more key gone from the same base. */
  lemma MinusStep(m: map<DocKey, Value>, base: map<DocKey, Value>, gone: set<DocKey>, k: DocKey)
    requires m == base - gone
    ensures m - {k} == base - (gone + {k})
  {
  }

  /** The ids a scan of one document type in one index yields. */
  function ScanIds(docs: map<DocKey, Value>, index: string, docType: string): (ids: set<string>)
    ensures forall id :: id in ids <==> DocKey(index, docType, id) in docs
  {
    set k | k in docs && k.index == index && k.docType == docType :: k.id
  }

  /** What `es_index_object(index_name, content_type_id, object_id)` writes: the record is
      fetched, its mapping built, the mapping's id set to the pk, and the document saved
      under `index_name`. A failed fetch or a mapping that raises writes nothing. */
  function IndexedDoc(src: Source, indexName: string, contentType: int, objectId: Option<int>)
    : (r: Result<(DocKey, Value)>)
    ensures r.Ok? <==> FetchRecord(src, contentType, objectId).Ok?
                       && FetchRecord(src, contentType, objectId).value.mapping.Ok?
    ensures r.Ok? ==> r.value.0.index == indexName
    ensures r.Ok? ==> r.value.0.id == IntToString(objectId.value)
    ensures r.Ok? ==> var doc := src.rows[(contentType, objectId.value)].mapping.value;
                      r.value == (DocKey(indexName, doc.docType, IntToString(objectId.value)), doc.body)
    ensures r.Err? && FetchRecord(src, contentType, objectId).Err? ==> r.error == DoesNotExist
    ensures r.Err? && FetchRecord(src, contentType, objectId).Ok? ==>
              r.error == FetchRecord(src, contentType, objectId).value.mapping.error
  {
    var rec :- FetchRecord(src, contentType, objectId);
    var doc :- rec.mapping;
    Ok((DocKey(indexName, doc.docType, IntToString(objectId.value)), doc.body))
  }

  /** `es_index_object`: upsert the record's document, or propagate the exception with
      the store untouched. It does not consult `is_indexable`. */
  method IndexObject(cluster: Cluster, src: Source, indexName: string, contentType: int, objectId: Option<int>)
    returns (r: Result<()>)
    modifies cluster`docs
    ensures var d := IndexedDoc(src, indexName, contentType, objectId);
            && (r.Ok? <==> d.Ok?)
            && (d.Err? ==> r.error == d.error && cluster.docs == old(cluster.docs))
            && (d.Ok? ==> cluster.docs == old(cluster.docs)[d.value.0 := d.value.1])
  {
    var d := IndexedDoc(src, indexName, contentType, objectId);
    if d.Err? {
      return Err(d.error);
    }
    var (key, body) := d.value;
    cluster.Save(key, body);
    return Ok(());
  }

  /** The address `es_delete_doc` deletes; the client refuses an empty id. */
  function DeleteKey(indexName: string, docTypeName: string, docId: Option<int>): (r: Result<DocKey>)
    ensures r.Ok? <==> docId.Some?
    ensures r.Err? ==> r.error == ValueError
    ensures r.Ok? ==> r.value.index == indexName && r.value.docType == docTypeName
                      && ParseInt(r.value.id) == Ok(docId.value)
  {
    if docId.None? then Err(ValueError)
    else
      IntRoundTrip(docId.value);
      Ok(DocKey(indexName, docTypeName, IntToString(docId.value)))
  }

  /** `es_delete_doc`: delete exactly the addressed document and nothing else. */
  method DeleteDoc(cluster: Cluster, indexName: string, docTypeName: string, docId: Option<int>)
    returns (r: Result<()>)
    modifies cluster`docs
    ensures var k := DeleteKey(indexName, docTypeName, docId);
            && (k.Err? ==> r == Err(k.error) && cluster.docs == old(cluster.docs))
            && (k.Ok? ==> cluster.docs == old(cluster.docs) - {k.value}
                          && (r.Ok? <==> k.value in old(cluster.docs))
                          && (r.Err? ==> r.error == NotFoundError))
  {
    var k := DeleteKey(indexName, docTypeName, docId);
    if k.Err? {
      return Err(k.error);
    }
    r := cluster.Delete(k.value);
  }

  // ---------------------------------------------------------------------------
  // es_index_object over a set of pks

  /** What `es_index_object` writes for a set of pks: each pk whose record is fetched and
      mapped is stored under its own id. */
  function Written(src: Source, target: string, contentType: int, pks: set<int>): map<DocKey, Value> {
    IntToStringOneToOne();
    map pk | pk in pks && IndexedDoc(src, target, contentType, Some(pk)).Ok? ::
      IndexedDoc(src, target, contentType, Some(pk)).value.0 := IndexedDoc(src, target, contentType, Some(pk)).value.1
  }

  lemma IntToStringOneToOne()
    ensures forall m, n :: IntToString(m) == IntToString(n) ==> m == n
  {
    forall m, n | IntToString(m) == IntToString(n) ensures m == n {
      IntToStringInjective(m, n);
    }
  }

  /** The stored documents after `es_index_object` has run for every pk. */
  function Reindexed(docs: map<DocKey, Value>, src: Source, target: string, contentType: int, pks: set<int>)
    : map<DocKey, Value>
  {
    docs + Written(src, target, contentType, pks)
  }

  /** A written document sits under the text of its own pk. */
  lemma WrittenAt(src: Source, target: string, contentType: int, pks: set<int>, k: DocKey)
    requires k in Written(src, target, contentType, pks)
    ensures ParseInt(k.id).Ok? && ParseInt(k.id).value in pks
    ensures var d := IndexedDoc(src, target, contentType, Some(ParseInt(k.id).value));
            d.Ok? && d.value.0 == k && Written(src, target, contentType, pks)[k] == d.value.1
  {
    IntToStringOneToOne();
    var p :| p in pks && IndexedDoc(src, target, contentType, Some(p)).Ok?
              && IndexedDoc(src, target, contentType, Some(p)).value.0 == k;
    IntRoundTrip(p);
  }

  lemma WrittenHas(src: Source, target: string, contentType: int, pks: set<int>, p: int)
    requires p in pks && IndexedDoc(src, target, contentType, Some(p)).Ok?
    ensures var d := IndexedDoc(src, target, contentType, Some(p));
            d.value.0 in Written(src, target, contentType, pks)
            && Written(src, target, contentType, pks)[d.value.0] == d.value.1
  {
    IntToStringOneToOne();
  }

  /** A document written for `done + {pk}` is the one written for `pk`, or one written for `done`. */
  lemma WrittenStepOkKey(src: Source, target: string, contentType: int, done: set<int>, pk: int, k: DocKey)
    requires pk !in done && IndexedDoc(src, target, contentType, Some(pk)).Ok?
    requires k in Written(src, target, contentType, done + {pk})
    ensures var d := IndexedDoc(src, target, contentType, Some(pk)).value;
            var w0 := Written(src, target, contentType, done);
            k in w0[d.0 := d.1] && Written(src, target, contentType, done + {pk})[k] == w0[d.0 := d.1][k]
  {
    var d := IndexedDoc(src, target, contentType, Some(pk)).value;
    WrittenAt(src, target, contentType, done + {pk}, k);
    var p := ParseInt(k.id).value;
    if p != pk {
      WrittenHas(src, target, contentType, done, p);
      IntRoundTrip(pk);
      assert ParseInt(d.0.id) == Ok(pk);
    }
  }

  lemma WrittenStepOk(src: Source, target: string, contentType: int, done: set<int>, pk: int)
    requires pk !in done && IndexedDoc(src, target, contentType, Some(pk)).Ok?
    ensures var d := IndexedDoc(src, target, contentType, Some(pk)).value;
            Written(src, target, contentType, done + {pk}) == Written(src, target, contentType, done)[d.0 := d.1]
  {
    var d := IndexedDoc(src, target, contentType, Some(pk)).value;
    var w0 := Written(src, target, contentType, done);
    var w1 := Written(src, target, contentType, done + {pk});
    forall k | k in w1 ensures k in w0[d.0 := d.1] && w1[k] == w0[d.0 := d.1][k] {
      WrittenStepOkKey(src, target, contentType, done, pk, k);
    }
    forall k | k in w0[d.0 := d.1] ensures k in w1 {
      if k == d.0 {
        WrittenHas(src, target, contentType, done + {pk}, pk);
      } else {
        WrittenAt(src, target, contentType, done, k);
        WrittenHas(src, target, contentType, done + {pk}, ParseInt(k.id).value);
      }
    }
  }

  lemma WrittenStepErr(src: Source, target: string, contentType: int, done: set<int>, pk: int)
    requires IndexedDoc(src, target, contentType, Some(pk)).Err?
    ensures Written(src, target, contentType, done + {pk}) == Written(src, target, contentType, done)
  {
    var w0 := Written(src, target, contentType, done);
    var w1 := Written(src, target, contentType, done + {pk});
    forall k | k in w1 ensures k in w0 && w1[k] == w0[k] {
      WrittenAt(src, target, contentType, done + {pk}, k);
      WrittenHas(src, target, contentType, done, ParseInt(k.id).value);
    }
    forall k | k in w0 ensures k in w1 {
      WrittenAt(src, target, contentType, done, k);
      WrittenHas(src, target, contentType, done + {pk}, ParseInt(k.id).value);
    }
  }

  lemma UnionUpdate(a: map<DocKey, Value>, b: map<DocKey, Value>, k: DocKey, v: Value)
    ensures a + b[k := v] == (a + b)[k := v]
  {
  }

  lemma WrittenStep(docs: map<DocKey, Value>, src: Source, target: string, contentType: int, done: set<int>, pk: int)
    requires pk !in done
    ensures var d := IndexedDoc(src, target, contentType, Some(pk));
            && (d.Ok? ==> Reindexed(docs, src, target, contentType, done + {pk})
                          == Reindexed(docs, src, target, contentType, done)[d.value.0 := d.value.1])
            && (d.Err? ==> Reindexed(docs, src, target, contentType, done + {pk})
                           == Reindexed(docs, src, target, contentType, done))
  {
    var d := IndexedDoc(src, target, contentType, Some(pk));
    if d.Ok? {
      WrittenStepOk(src, target, contentType, done, pk);
      UnionUpdate(docs, Written(src, target, contentType, done), d.value.0, d.value.1);
    } else {
      WrittenStepErr(src, target, contentType, done, pk);
    }
  }

  /** Writing a pk's document again, once it is already among the written ones, changes
      nothing. */
  lemma WrittenAgain(docs: map<DocKey, Value>, src: Source, target: string, contentType: int, done: set<int>, pk: int)
    requires pk in done && IndexedDoc(src, target, contentType, Some(pk)).Ok?
    ensures var d := IndexedDoc(src, target, contentType, Some(pk)).value;
            Reindexed(docs, src, target, contentType, done)[d.0 := d.1] == Reindexed(docs, src, target, contentType, done)
  {
    WrittenHas(src, target, contentType, done, pk);
  }
}

/** The application-side entities the synchronisation layer works on: model classes,
    their document types, records and the abstract record source they come from. */
module Models {
  import opened Py

  /** `DocType._doc_type`: the document type name and the index it lives in by default. */
  datatype DocType = DocType(name: string, index: string)

  /** A model class that uses the indexable mixin: the module it is defined in, its
      class name, its content type id and its `es_doc_type`. */
  datatype ModelClass = ModelClass(modulePath: string, name: string, contentType: int, docType: DocType)

  /** What `__import__(module)` followed by `getattr(module, name)` can reach. */
  type Modules = map<string, map<string, ModelClass>>

  /** The document `get_es_doc_mapping` builds: its document type name and its fields. */
  datatype Document = Document(docType: string, body: Value)

  /** A model instance. `indexable` is the class's own `is_indexable` answer, or None when
      the class keeps the mixin's default; `updateNeeded` is `is_index_update_needed()`;
      `mapping` is what `get_es_doc_mapping()` returns or raises. */
  datatype Record = Record(
    model: ModelClass,
    pk: Option<int>,
    indexable: Option<bool>,
    updateNeeded: bool,
    mapping: Result<Document>)

  /** The record source: the pks `get_indexable_queryset()` lists per content type, in
      order, and the stored rows by (content type, pk). */
  datatype Source = Source(querysets: map<int, seq<int>>, rows: map<(int, int), Record>)

  /** `get_indexable_queryset().values_list('pk', flat=True)` for a model. */
  function QuerysetPks(src: Source, model: ModelClass): seq<int> {
    if model.contentType in src.querysets then src.querysets[model.contentType] else []
  }

  /** `ContentType.objects.get_for_id(ct).get_object_for_this_type(pk=pk)`. */
  function FetchRecord(src: Source, contentType: int, pk: Option<int>): (r: Result<Record>)
    ensures r.Ok? <==> pk.Some? && (contentType, pk.value) in src.rows
    ensures r.Err? ==> r.error == DoesNotExist
    ensures r.Ok? ==> r.value == src.rows[(contentType, pk.value)]
  {
    if pk.Some? && (contentType, pk.value) in src.rows then Ok(src.rows[(contentType, pk.value)])
    else Err(DoesNotExist)
  }

  /** `set([int(pk) for pk in queryset.values_list('pk', flat=True)])`. */
  function PkSet(ids: seq<int>): (s: set<int>)
    ensures forall pk :: pk in s <==> pk in ids
  {
    set pk | pk in ids
  }

  /** `set(map(str, pks))`: the text of every pk in a set. */
  function IdStrings(pks: set<int>): (s: set<string>)
    ensures forall id :: id in s <==> exists pk :: pk in pks && IntToString(pk) == id
  {
    set pk | pk in pks :: IntToString(pk)
  }
}

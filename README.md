# django-trampoline, modelled in Dafny

django-trampoline keeps Elasticsearch documents in step with Django model instances. This
project models its core. The models are:

- **The configuration registry** (`apps.py`):
  - the default settings and `recursive_update`, the deep merge of the user's `TRAMPOLINE`
    setting into them;
  - the option properties;
  - `get_index_models` and `model_paths`;
  - the predicates behind the save and delete hooks.
- **The two Celery tasks** (`tasks.py`), as an upsert and a delete on an abstract document
  store. The store is the `Tasks.Cluster` class, with a map from (index, document type, id) to
  documents and a map from index to registered document types.
- **The indexable mixin** (`mixins.py`): `is_indexable`, `get_es_doc`, and the dispatchers
  `es_index` and `es_delete`. These hand a job to the Celery queue (the `Mixins.TaskQueue`
  class) or run the Celery task inline.
- **The management-command base** (`management/base.py`):
  - required options, the option copy and verbosity parsing;
  - the verbosity gate of the `print_*` helpers;
  - `confirm`;
  - the exception-to-exit-status conversion of `handle`;
  - `DummyTqdmFile.write`.
- **Three commands:**
  - `es_create_index`: target-name derivation, document-type registration and dry run.
  - `es_create_documents`: stale-document cleanup, per-object results, counters and the
    thread limit.
  - `es_rebuild_index`: reconciles the stored ids with the queryset's pks, then deletes and
    dispatches per pk. As written, every run without `--dry-run` stops with AttributeError
    at the `init_progressbar` call (see "## Findings"). `RebuildIndex.RebuildModelAsWritten`
    models that run; `RebuildModel`, `RebuildModels` and `Run` model the corrected run, with
    that call taken as output only.
- **Pagination** (`paginator.py`, `views.py`): page offsets, `has_other_pages`, and the
  page-number parsing of the pagination mixin.

The pieces are represented as follows:

- **Python values** (`Py.Value`): `None`, bools, ints, strs, lists and dicts (insertion
  ordered). They stand for settings, command options and query parameters.
- **Exceptions** are the error side of `Py.Result`.
- **A command's effects** are the fields of the `Base.Command` class: its attributes, the
  parsed verbosity, and the lines printed to stdout and stderr. A step's `Outcome` is a normal
  end, a `sys.exit(code)`, or an exception that escapes.
- **The stateful parts are imperative Dafny:**
  - the merge loop;
  - the loops of `get_index_models` and `model_paths`;
  - option parsing;
  - every command's `run`;
  - the Celery tasks and dispatchers.

  The methods that compute or update state are proved against a specification function,
  and the properties the code promises are proved about those functions as lemmas. The
  three `handle` methods state only what they promise on their own: no exception escapes,
  and a missing `index_name` exits with status 1 and changes nothing.
- **The pure parts are functions and lemmas:** the option properties, the hook predicates,
  pagination and page-number parsing.

## Model

| member | source | states |
|---|---|---|
| Py.ToInt | trampoline/management/base.py:119 | `int(v)`: an int is itself, a bool is 0 or 1, a str is parsed; TypeError exactly for a value that is none of these; otherwise at most ValueError |
| Py.IntRoundTrip | trampoline/management/commands/es_rebuild_index.py:57 | `int(str(n)) == n` for every int, so an id stored as the text of a pk reads back as that pk |
| Py.IntToStringInjective | trampoline/management/commands/es_create_documents.py:136 | two ints with the same decimal text are equal, so comparing ids as text compares them as ints |
| Py.GetPut | trampoline/apps.py:40-42 | after `d[k] = v`, `d.get(k)` is `v` and every other key reads as before |
| Py.Position | trampoline/apps.py:122 | the position an index names in a sequence: present exactly for `-len <= i < len`, and then `i` or `i + len` |
| Py.Subscript | trampoline/apps.py:122 | `x[key]`: a str key answers exactly from a dict holding it, with the dict's value; KeyError exactly for a dict and a hashable key it lacks; otherwise TypeError or IndexError |
| Py.SubscriptSequence | trampoline/apps.py:122 | a list or str answers an int index inside its length (negative from the end) with one of its items, raises IndexError exactly for an int index outside it, and TypeError for other keys; only dicts, lists and strs can be subscripted |
| Py.ListIndex | trampoline/apps.py:122 | a list index from 0 gives that item, and `x[-k]` is `x[len(x) - k]` |
| Py.ToStr | trampoline/management/commands/es_create_index.py:27 | `str` of a value: a str is itself, an int's text parses back to it |
| Py.RStripEmptyIffBlank | trampoline/management/base.py:27 | `x.rstrip()` is empty exactly when every character of `x` is whitespace |
| Models.FetchRecord | trampoline/tasks.py:18-19 | the record at (content type, pk) when one is stored, DoesNotExist otherwise |
| Models.PkSet | trampoline/management/commands/es_rebuild_index.py:53-54 | the set of the queryset's pks |
| Models.IdStrings | trampoline/management/commands/es_create_documents.py:136 | `set(map(str, pks))`: an id is in it exactly when it is the text of one of the pks |
| Tasks.Cluster.CreateIndex | trampoline/management/commands/es_create_index.py:50-51 | a new name becomes an index with exactly the given document types; a taken name is refused and nothing changes |
| Tasks.Cluster.Save | trampoline/tasks.py:22 | upsert: the document at the key becomes the body, every other document is unchanged |
| Tasks.Cluster.Delete | trampoline/management/commands/es_rebuild_index.py:66 | success exactly when the key is stored, NotFoundError otherwise; afterwards the key is gone and nothing else changed |
| Tasks.ScanIds | trampoline/management/commands/es_rebuild_index.py:56-57 | an id is scanned exactly when a document with that id is stored under the document type in the index |
| Tasks.IndexedDoc | trampoline/tasks.py:18-22 | the write succeeds exactly when the record is fetched and its mapping built; the document lands in the named index, under the mapping's document type and the text of the pk; otherwise the fetch's or the mapping's exception |
| Tasks.IndexObject | trampoline/tasks.py:13-22 | `es_index_object`: on success the store gains or replaces exactly that document; on an exception the store is untouched and the exception is returned |
| Tasks.DeleteKey | trampoline/tasks.py:30-34 | the address of `es_delete_doc`: the given index and document type, and an id that parses back to the pk; ValueError without a pk |
| Tasks.DeleteDoc | trampoline/tasks.py:25-34 | `es_delete_doc` removes exactly the addressed document; NotFoundError when it is not stored |
| Tasks.WrittenStep | trampoline/tasks.py:13-22 | running `es_index_object` for one more pk adds exactly that pk's document, or nothing when the Celery task raises |
| Tasks.WrittenAgain | trampoline/tasks.py:13-22 | running `es_index_object` again for a pk already written changes nothing |
| Mixins.TaskQueue.Enqueue | trampoline/mixins.py:50-53 | the job is appended to the queue and nothing else changes |
| Mixins.IsIndexable | trampoline/mixins.py:27-28 | the default `is_indexable` is True; a class's own answer is kept |
| Mixins.IndexNameOr | trampoline/mixins.py:46 | `index_name or doc_type._doc_type.index`: a missing or empty name falls back to the document type's index |
| Mixins.GetEsDoc | trampoline/mixins.py:33-39 | None for an instance without a truthy pk; otherwise the stored document at the pk in the document type's index, None on a 404 |
| Mixins.EsIndex | trampoline/mixins.py:41-60 | disabled: nothing dispatched and nothing changes; async: exactly one index job (index name, content type, pk, countdown) is queued; inline: the store changes exactly as `es_index_object` writes |
| Mixins.EsDelete | trampoline/mixins.py:62-73 | disabled: nothing; async: exactly one delete job (index name, document type name, pk) is queued; inline: exactly the addressed document is removed |
| Apps.RecursiveUpdate | trampoline/apps.py:36-43 | the merge loop computes the fold `Update` over the override's items, in order |
| Apps.UpdateStep | trampoline/apps.py:37-42 | one item of the loop: a mapping is merged into the current value (or `{}`), anything else replaces it |
| Apps.UpdateFromGet | trampoline/apps.py:36-43 | the value the merge leaves under each key is the merge of that key's pending override into its base value |
| Apps.UpdateGet | trampoline/apps.py:36-43 | a key only in the base keeps its base value; a non-mapping override replaces the value; a mapping override is merged recursively |
| Apps.UpdateKeepsKeys | trampoline/apps.py:36-43 | the merge never removes a key of its base: the base's keys stay in their positions and the result is a dict |
| Apps.Settings | trampoline/apps.py:127-131 | no user setting gives the defaults; a setting that is not a mapping raises AttributeError; otherwise CONNECTIONS, INDICES and OPTIONS stay, in that order |
| Apps.Indices | trampoline/apps.py:143-145 | `settings['INDICES']`: present whenever the settings can be built |
| Apps.OptionValue | trampoline/apps.py:147-157 | `settings['OPTIONS'][name]`: OPTIONS is always present; the value is read exactly when OPTIONS is a mapping holding the name |
| Apps.DefaultSections | trampoline/apps.py:23-33 | `DEFAULT_TRAMPOLINE` holds the default OPTIONS and an empty INDICES |
| Apps.DefaultOptionEntries | trampoline/apps.py:28-32 | the default options are `fail_silently=True`, `disabled=False`, `celery_queue=None` |
| Apps.NoUserOptions | trampoline/apps.py:127-131 | with no user setting, every option reads straight from the default OPTIONS |
| Apps.DefaultOptions | trampoline/apps.py:147-157 | with no user setting, `should_fail_silently` is True, `is_disabled` is False and `celery_queue` is None |
| Apps.DefaultIndices | trampoline/apps.py:143-145 | with no user setting, `indices` is empty |
| Apps.OptionOverride | trampoline/apps.py:127-131 | a user OPTIONS that sets one option keeps the defaults of the others (overriding `disabled` keeps `fail_silently`); an option the user sets reads as the user's value |
| Apps.LastDot | trampoline/apps.py:111 | the position of the last '.' in a path, or none when there is no '.' |
| Apps.SplitModelPath | trampoline/apps.py:111 | `rsplit('.', 1)` unpacked: the path is module + '.' + class name, the class name holds no '.'; ValueError exactly when there is no '.' |
| Apps.ResolveModel | trampoline/apps.py:111-113 | a path resolves only when it splits at its last '.', and then to the class its module defines under the name after that '.' |
| Apps.ResolveAllSpec | trampoline/apps.py:109-115 | when every path resolves, one model per path in list order; otherwise the first failure |
| Apps.ResolvePaths | trampoline/apps.py:109-115 | the loop of `get_index_models` computes `ResolveAll` |
| Apps.GetIndexModels | trampoline/apps.py:103-115 | `get_index_models` returns `IndexModels`: `[]` when the index or its `models` key is missing, else the resolved models |
| Apps.UnknownIndexHasNoModels | trampoline/apps.py:104-107 | an index name the registry does not know gives no models |
| Apps.AppendModels | trampoline/apps.py:119-125 | the `+=` loop computes the concatenation of the models lists, skipping indices without `models` |
| Apps.ModelPaths | trampoline/apps.py:117-125 | `model_paths` returns that concatenation over the configured indices, in order |
| Apps.IndicesReplaced | trampoline/apps.py:127-145 | a user setting whose only entry gives `INDICES` a non-mapping value makes `indices` exactly that value |
| Apps.ListIndicesRaiseIndexError | trampoline/apps.py:119-124 | with `INDICES` set to the list `[5]`, the loop subscripts the list with its own item 5 and the IndexError escapes, since only KeyError is caught |
| Apps.ConcatModelsMember | trampoline/apps.py:117-125 | a path is in `model_paths` exactly when some index lists it |
| Apps.ConnectsHooks | trampoline/apps.py:61-67 | the hooks are connected exactly when `"module.ClassName"` is in `model_paths` |
| Apps.OnSignal | trampoline/apps.py:46-58 | after a delete, always a delete dispatch; after a save, an index dispatch exactly when indexable and an update is needed, through `on_commit` when available and otherwise with countdown 1 |
| Base.ForwardsIffVisible | trampoline/management/base.py:26-28 | a write is passed on exactly when it holds a non-whitespace character |
| Base.DummyTqdmFile.Write | trampoline/management/base.py:26-28 | the text reaches the wrapped file exactly when it is not blank |
| Base.MissingRequired | trampoline/management/base.py:109-113 | none exactly when every required option is present and not None; otherwise one of the required options |
| Base.WithOptionsGet | trampoline/management/base.py:115-116 | after the copy every option is an attribute with the option's value; other attributes are unchanged |
| Base.VerbosityOf | trampoline/management/base.py:118-121 | `int(verbosity)`, with a ValueError answered by 1 and a TypeError escaping |
| Base.NonIntegerVerbosity | trampoline/management/base.py:118-121 | every verbosity string that `int()` refuses gives 1 |
| Base.NotIntVerbosity | tests/test_commands.py:53-60 | the tests' `'notint'` is refused by `int()` with ValueError and so gives verbosity 1 |
| Base.TargetOf | trampoline/management/commands/es_create_documents.py:55 | `self.target_name or self.index_name`: a truthy target name is kept, otherwise the index name |
| Base.Command.PrintAt | trampoline/management/base.py:149-159 | a line is printed exactly when the verbosity reaches the message's level |
| Base.Command.PrintError | trampoline/management/base.py:161-165 | always printed, on stderr |
| Base.Command.PrintWarning | trampoline/management/base.py:167-168 | always printed |
| Base.Command.ParseOptions | trampoline/management/base.py:108-121 | exit 1 with "X is required" for the first missing required option and no attribute set; otherwise every option copied and the verbosity parsed |
| Base.Command.Confirm | trampoline/management/base.py:136-147 | True at once with `yes`; otherwise the question is printed and only exactly "Y" continues; any other answer prints "Operation canceled." and exits 1 |
| Base.Command.Conclude | trampoline/management/base.py:102-106 | an exception is printed and becomes exit status 1; an exit or a normal end passes through |
| CreateIndex.TargetName | trampoline/management/commands/es_create_index.py:29-31 | a given target is kept as it is; a missing one is derived and starts with the index name |
| CreateIndex.DerivedTarget | trampoline/management/commands/es_create_index.py:29-31 | the derived target differs from the index name, starts with it and "_", and its suffix parses back to the unix time |
| CreateIndex.DocTypeNames | trampoline/management/commands/es_create_index.py:43-45 | one document type name per model, in order |
| CreateIndex.CreateWithDocTypes | trampoline/management/commands/es_create_index.py:43-55 | dry run: nothing created; otherwise the target is created with exactly the models' document types, or AlreadyExists leaves the store unchanged |
| CreateIndex.Run | trampoline/management/commands/es_create_index.py:26-55 | `target_name` defaults to "{index}_{time}"; no models gives exit 1 with the message and no index; otherwise as CreateWithDocTypes |
| CreateIndex.Handle | trampoline/management/base.py:97-106 | never lets an exception escape; a missing `index_name` exits 1 with the required-option message and creates nothing |
| CreateDocuments.MaxThreads | trampoline/management/commands/es_create_documents.py:156-164 | always between 1 and 10: the option when it is an int in that range, 4 otherwise |
| CreateDocuments.IndexObjectResult | trampoline/management/commands/es_create_documents.py:166-183 | dry run: INDEXED without running the Celery task; otherwise the status the Celery task reports once the document is saved, or FAILED with the exception kept when the record is missing or its mapping fails |
| CreateDocuments.IndexOne | trampoline/management/commands/es_create_documents.py:166-183 | the result above; outside a dry run the object's document is written into the target index, and a dry run changes nothing |
| CreateDocuments.Counts | trampoline/management/commands/es_create_documents.py:103-108 | each counter is the number of results with its status |
| CreateDocuments.CountsBound | trampoline/management/commands/es_create_documents.py:81-108 | the three counters add up to the number of objects less the results with no known status |
| CreateDocuments.CountsIgnoreCompletionOrder | trampoline/management/commands/es_create_documents.py:103 | the counters do not depend on the order in which threads complete |
| CreateDocuments.Results | trampoline/management/commands/es_create_documents.py:94-102 | one result per queryset pk, in queryset order |
| CreateDocuments.StaleIds | trampoline/management/commands/es_create_documents.py:132-136 | an id is stale exactly when it is stored under the document type in its index and is not the text of a queryset pk |
| CreateDocuments.DeleteIds | trampoline/management/commands/es_create_documents.py:137-138 | succeeds exactly when every given id's document is stored, and then deletes exactly those; otherwise the `get` of an unstored id raises NotFoundError (the `ignore=404` is on `delete` only); never touches another document |
| CreateDocuments.DeleteStaleDocuments | trampoline/management/commands/es_create_documents.py:130-139 | every stale id was scanned, so each `get` finds its document: exactly the stale documents are removed and no exception escapes |
| CreateDocuments.CleanupLeavesQuerysetIds | trampoline/management/commands/es_create_documents.py:130-139 | after the cleanup every id under the document type is a queryset pk's text, and nothing outside the document type changed |
| CreateDocuments.ProcessModel | trampoline/management/commands/es_create_documents.py:70-125 | one model: the counters of its results; the store after the cleanup when asked for, then, outside a dry run, with every queryset pk's document written into the target |
| CreateDocuments.ProcessModels | trampoline/management/commands/es_create_documents.py:70-125 | the counters of every model in order, and the store after each model's cleanup and writes in turn |
| CreateDocuments.DryRunOnlyCleans | trampoline/management/commands/es_create_documents.py:172 | a dry run writes nothing: every document left was stored before, and without cleanup nothing changes |
| CreateDocuments.CleanupAndIndexSyncIds | trampoline/management/commands/es_create_documents.py:78-79 | with cleanup, writing into the document type's own index, the ids under the document type afterwards are exactly the queryset's pks |
| CreateDocuments.ReconcileExample | trampoline/management/commands/es_create_documents.py:78-79 | stored ids 1, 2, 3 and queryset pks 2, 3, 4 leave the ids 2, 3, 4 |
| CreateDocuments.Run | trampoline/management/commands/es_create_documents.py:54-128 | a missing target exits 1 with "Index '…' does not exist." and changes nothing; otherwise all models are processed as ProcessModels states |
| CreateDocuments.Handle | trampoline/management/base.py:97-106 | never lets an exception escape; a missing `index_name` exits 1 with the required-option message and changes nothing |
| RebuildIndex.ParseIds | trampoline/management/commands/es_rebuild_index.py:55-58 | the stored ids as ints, ValueError exactly when one of them is not an integer |
| RebuildIndex.ParseIdsMember | trampoline/management/commands/es_rebuild_index.py:55-58 | an int is read exactly when some stored id parses to it |
| RebuildIndex.ReadEsIds | trampoline/management/commands/es_rebuild_index.py:55-58 | the scan loop computes ParseIds |
| RebuildIndex.BadIdsMember | trampoline/management/commands/es_rebuild_index.py:53-60 | `bad_ids = es_ids - db_pks`: an int is bad exactly when a stored id reads as it and the queryset does not list it; ValueError when a stored id is not an integer |
| RebuildIndex.BadKeysMember | trampoline/management/commands/es_rebuild_index.py:65-66 | an id's address is among those deleted exactly when the id is bad |
| RebuildIndex.DeleteBadIds | trampoline/management/commands/es_rebuild_index.py:63-66 | succeeds exactly when every bad id is stored, and then removes exactly those; NotFoundError otherwise; never touches another document |
| RebuildIndex.OnceStep | trampoline/management/commands/es_rebuild_index.py:74-78 | queuing the job of a new pk keeps "one job per pk, no other job" |
| RebuildIndex.EnqueueAll | trampoline/management/commands/es_rebuild_index.py:74-78 | async: the queue gains exactly one index job per pk, for the target, the content type and `celery_queue`, and keeps its old jobs |
| RebuildIndex.ApplyAll | trampoline/management/commands/es_rebuild_index.py:74-81 | inline: the store gains every document the Celery task writes for the pks, and nothing else changes |
| RebuildIndex.RebuildModelAsWritten | trampoline/management/commands/es_rebuild_index.py:49-72 | one model as the code stands: a dry run as RebuildModel; otherwise the bad ids are deleted and then the `init_progressbar` lookup raises AttributeError, so no job is queued and no document written |
| RebuildIndex.Reconcile | trampoline/management/commands/es_rebuild_index.py:62-85 | non-dry part of the corrected run (no `init_progressbar` lookup; see ## Findings): bad ids are deleted (NotFoundError when one is missing), then every pk is queued once or applied inline |
| RebuildIndex.RebuildModel | trampoline/management/commands/es_rebuild_index.py:49-88 | one model of the corrected run (the `init_progressbar` call taken as output; see ## Findings for the run as written): a non-integer stored id raises ValueError; a dry run changes nothing; otherwise the store becomes `ModelStep`'s (bad ids deleted, NotFoundError when one is missing, then inline every pk's document written), it completes exactly when `ModelStep` does, and with async the new jobs are one index job per pk |
| RebuildIndex.RebuildSyncsIds | trampoline/management/commands/es_rebuild_index.py:53-81 | after an inline rebuild of a model whose ids are integer texts, the ids under its document type are exactly the queryset's pks |
| RebuildIndex.OncePerPkJobs | trampoline/management/commands/es_rebuild_index.py:74-78 | the jobs queued for one model, counted with multiplicity, are one index job per pk |
| RebuildIndex.RebuildModels | trampoline/management/commands/es_rebuild_index.py:49-90 | the corrected run (the `init_progressbar` call taken as output; see ## Findings for the run as written). Dry run: nothing changes; otherwise it completes exactly when `Rebuilt` does (each model's bad ids deleted, then inline every pk's document written), the store is `Rebuilt`'s, the first failure's exception escapes, and with async the new jobs are one index job per pk of every model |
| RebuildIndex.RebuiltAsyncOnlyDeletes | trampoline/management/commands/es_rebuild_index.py:62-78 | an async run only deletes: every document left was stored before |
| RebuildIndex.RebuiltSingleModelSyncsIds | trampoline/management/commands/es_rebuild_index.py:49-81 | for a single-model index, the inline run leaves exactly the queryset's pks under the document type |
| RebuildIndex.Run | trampoline/management/commands/es_rebuild_index.py:34-90 | the corrected run (the `init_progressbar` call taken as output; see ## Findings for the run as written): a missing target exits 1 with the message and changes nothing; otherwise RebuildModels' guarantees |
| RebuildIndex.Handle | trampoline/management/base.py:97-106 | never lets an exception escape; a missing `index_name` exits 1 with the required-option message and changes nothing |
| Pagination.BottomOffset | trampoline/paginator.py:22 | page 1 starts at the first hit; no page from 1 on starts before it when the page size is not negative |
| Pagination.TopOffset | trampoline/paginator.py:22-23 | page n ends at `page_size * n` |
| Pagination.Execute | trampoline/paginator.py:24-25 | a slice with a negative bound raises ValueError; otherwise its hits are exactly the search's hits between the offsets |
| Pagination.MakePage | trampoline/paginator.py:18-33 | the page keeps its paginator and number; the total is the number of hits; at most `page_size` hits, the ones from the bottom offset on |
| Pagination.PageExists | trampoline/paginator.py:22-25 | with a positive page size, page n exists exactly when n is at least 1 |
| Pagination.PagesAdjoin | trampoline/paginator.py:22-23 | page n + 1 starts where page n ends |
| Pagination.PageWindow | trampoline/paginator.py:22-26 | page n holds the hits from `size*(n-1)` to `size*n`, cut at the end |
| Pagination.PagesArePrefix | trampoline/paginator.py:22-26 | pages 1 to n together are the first `n * page_size` hits: no gap, no overlap |
| Pagination.HasOtherPagesIffNextPage | trampoline/paginator.py:29-33 | `has_other_pages` exactly when the next page has a hit |
| Pagination.HasOtherPagesIffMore | trampoline/paginator.py:29-33 | `has_other_pages` exactly when the total exceeds `page_size * n` |
| Pagination.ThreeHitsInPagesOfTwo | tests/test_paginator.py:39-60 | with 3 hits in pages of 2, page 1 holds two hits and has other pages; page 2 holds the third and has none |
| Views.PageNumber | trampoline/views.py:15-23 | always at least 1; 1 when `page` is missing or not an int; an int from 1 on unchanged |
| Views.PageNumberOfText | trampoline/views.py:15-23 | the text of a page number from 1 on reads back as that number |
| Views.PageNumberExamples | tests/test_paginator.py:71-78 | no page gives 1, -2 gives 1, "foobar" gives 1, 5 gives 5 |
| Views.PaginateSearch | trampoline/views.py:25-29 | the page of the parsed number in pages of `page_size`, always produced when the page size is not negative, with at most `page_size` hits |

## Left out

- I/O and time:
  - The ANSI colour codes, the tqdm progress bars of `es_create_documents`, and the `trampoline.log` file are not modelled. The failure line written to the log is output only.
  - The clock is the `unixTime` parameter.
  - The interactive answer to `confirm` is the `answer` parameter.
- Libraries and services: Elasticsearch, Celery and Django are not part of this model.
  - The store is `Tasks.Cluster`.
  - `apply_async`/`delay` append to `Mixins.TaskQueue`.
  - `apply` runs the Celery task inline.
  - ContentType lookups and querysets are `Models.Source`.
  - `__import__` and `getattr` are `Models.Modules`.
  - The `on_commit` fallback is the `hasOnCommit` flag.
- Connections: `TrampolineConfig.ready`, `get_connection`, `host` and the connection settings are not modelled.
- Threads: the thread pool of `es_create_documents` is modelled sequentially. Completion order cannot change the counters (`CreateDocuments.CountsIgnoreCompletionOrder`).
- Task versions: `es_create_documents` imports `STATUS_*` and passes `fail_silently` to an `es_index_object` that this `tasks.py` does not define. The command's call is modelled as the write `es_index_object` makes, and the status it reports after a successful write is the parameter `reported` (None from this `tasks.py`).
- RebuildIndex.ApplyAll, Mixins.EsIndex, Mixins.EsDelete: `apply` is taken with Celery's default eager behaviour, where an exception the Celery task raises is kept in the returned result. The repository's test settings set `CELERY_EAGER_PROPAGATES_EXCEPTIONS = True`. Under that setting the exception escapes instead: the first failing pk would stop the inline rebuild, and `handle` would exit 1. That variant is not modelled.
- RebuildIndex.RebuildModels, RebuildIndex.Run: after a failing model only the exception and the "only deletes" or "no job" guarantees are stated. The store and the queue left by the models before the failure are not stated.
- Apps.RecursiveUpdate: it returns the merged value, where the source updates `d` in place and returns that same object. `settings` merges into a deep copy of the defaults, so callers see the same value. Aliasing between `d` and the user's setting is not modelled.
- Apps.ModelPaths, Apps.AppendModels: `model_paths` iterates `indices` in the order its entries are listed. This code names a parameter `async`, so it runs only on interpreters whose dict order is unspecified; the order of `model_paths` is therefore a choice of the model. Membership (`Apps.ConcatModelsMember`) does not depend on it.
- Py.ParseInt, Py.ToInt: only ASCII digits and the whitespace `str.isspace` accepts are modelled. `int()` also accepts Unicode decimal digits and underscores between digits.
- Apps.OnSignal: `is_index_update_needed` is not defined by the mixin, so it is a field of the record.
- CreateDocuments.Run, RebuildIndex.Run: the options they read are required to be present, because Django fills in declared options with their defaults before `handle` runs.
- RebuildIndex.Run: `celery_queue` is the parameter `q`, standing for the configured option.
- RebuildIndex.Reconcile: it dispatches with two loops, one for queued jobs and one for inline application, where the source has one loop that tests `async` for each pk. The effect per pk is the same.
- Set order: iterating a set (pks, bad ids, stale ids) visits the elements in an unspecified order. The queue's contract states a job per pk, not their order.
- Pagination.Execute: the hits of a search are taken as a list known in advance, and `hits.total` as its length. Only the negative-bound refusal of a search slice is modelled.
- Other commands: `es_create_alias`, `es_delete_alias` and `es_delete_index` are not part of this model.

## Findings

| source | as written | input that shows it | evidently intended | confidence | as-written member | corrected member |
|---|---|---|---|---|---|---|
| trampoline/management/commands/es_rebuild_index.py:72 | `self.init_progressbar(len(db_pks))` calls a method that neither the command nor `ESBaseCommand` defines | any run without `--dry-run` on an existing index with at least one model: the lookup raises AttributeError after the bad ids are deleted and before any pk is dispatched, and `handle` exits with status 1 | a progress bar for output only, then every pk dispatched | not executed | RebuildIndex.RebuildModelAsWritten | RebuildIndex.Reconcile, RebuildIndex.RebuildModel, RebuildIndex.RebuildModels, RebuildIndex.Run |

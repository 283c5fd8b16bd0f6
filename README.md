# Import ingestion of the `disk` service, modelled in Dafny

The `disk` service stores a filesystem-like tree: files and folders with parent links, sizes and dates. A client sends `POST /imports` with a flat list of items and an `updateDate`. `ImportsView.post` turns the list into three row streams:

- node rows for `imports`;
- one aggregate row per parent for `parents`;
- one history row per item for `import_history`.

Each stream is cut into batches small enough for PostgreSQL's limit on parameters per statement. The batches are written parents first, then nodes, then history, all inside one transaction. Either every row lands or none does.

The model has seven modules:

- `Optional`: the option type.
- `DbSchema` (disk/db/schema.py):
  - the `ImportType` enum and the three table declarations;
  - a typed row per table and the store;
  - what one multi-row INSERT does. It adds every row, or it fails as a whole on a duplicate key, an unresolved foreign key or a size beyond `integer`.
- `ApiSchema` (disk/api/schema.py):
  - `ImportSchema`, `ImportsSchema`, `DeleteIdSchema` and the recursive `NodeSchema`, as predicates over a JSON value;
  - loading functions that succeed exactly when those predicates hold;
  - a key a schema does not declare refuses the object, as marshmallow 3 does by default.
- `TextOrder`: the order in which a group-by emits string keys.
- `Chunking`: `aiomisc.chunk_list`, stated by its contract.
- `Projection`: the three row generators of disk/api/handlers/imports.py.
- `ImportsHandler`:
  - the `MAX_*_PER_INSERT` bounds and the write order;
  - the store and the transaction as classes;
  - `Ingest`, the model of `post`. It has one write loop per table and commits or rolls back.

`Ingest` is proved against two specification functions:

- `Accepts`: whether the store takes every INSERT of the request;
- `Applied`: the store with every row added.

`AcceptsMeaning` then spells out exactly which requests are accepted.

Two consequences of the model are easy to miss:

- **An unknown parent does not fail the request.** A node whose `parentId` is neither submitted nor stored is accepted. With the corrected aggregate generator (see "## Findings"), every named parent gets a `parents` row before any node row is written, so the node's foreign key resolves. `NodeParentsResolve` and `UnknownParentAccepted` prove this.
- **A second request naming a stored parent is refused.** The parent's total is neither replaced nor accumulated. The aggregate INSERT hits the existing key and the whole request rolls back (`SharedParentRefused`).

## Model

| member | source | states |
|---|---|---|
| DbSchema.ParseImportType | disk/db/schema.py:26-29 | yields the member whose value is the given string; no member has the value when it yields nothing |
| DbSchema.ImportTypeValues | disk/db/schema.py:26-29 | the two values differ (`@unique`), parsing a member's value gives that member back, and exactly "FILE" and "FOLDER" parse |
| DbSchema.PrimaryKey | disk/db/schema.py:32-56 | the key names exactly the table's primary-key columns: every name in it belongs to one, and every one is in it |
| DbSchema.ColumnNamed | disk/db/schema.py:32-56 | a found column is in the table under that name; nothing is found only when no column has that name |
| DbSchema.ParentsTableShape | disk/db/schema.py:32-37 | `parents` has two columns, is keyed by `id`, and its `size` is a non-null `integer` |
| DbSchema.ImportsTableKey | disk/db/schema.py:39-48 | `imports` has six columns and is keyed by `id` |
| DbSchema.ImportsParentColumn | disk/db/schema.py:42 | `imports.parent_id` is a nullable text foreign key to `parents.id` |
| DbSchema.ImportsRequiredColumns | disk/db/schema.py:39-48 | exactly `parent_id`, `url` and `size` of `imports` admit null |
| DbSchema.HistoryTableShape | disk/db/schema.py:50-56 | `import_history` has three columns, is keyed by `id`, and `import_id` is a non-null foreign key to `imports.id` |
| DbSchema.ParentsBatchOk | disk/db/schema.py:32-37 | an INSERT into `parents` succeeds when each row's key is new to the table and to the rows before it, and its size fits `integer` |
| DbSchema.ParentsBatchSplit | disk/db/schema.py:32-37 | one INSERT of `a + b` into `parents` succeeds exactly when inserting `a` succeeds and then `b` does, and it leaves the same table |
| DbSchema.ParentsBatchMeaning | disk/db/schema.py:32-37 | an INSERT into `parents` succeeds exactly when its keys are pairwise distinct and absent from the table, and every size fits `integer` |
| DbSchema.InsertParentsContents | disk/db/schema.py:32-37 | after a successful INSERT the keys are the old keys plus the batch's keys, old rows are unchanged and each batch row is stored under its key |
| DbSchema.ImportsBatchOk | disk/db/schema.py:39-48 | an INSERT into `imports` succeeds when each row's key is new, its `parent_id` is null or a `parents` key, and its size is null or fits `integer` |
| DbSchema.ImportsBatchSplit | disk/db/schema.py:39-48 | one INSERT of `a + b` into `imports` succeeds exactly when `a` succeeds and then `b` does, and it leaves the same table |
| DbSchema.ImportsBatchMeaning | disk/db/schema.py:39-48 | an INSERT into `imports` succeeds exactly when its keys are distinct and new, every non-null `parent_id` is a `parents` key, and every size fits `integer` |
| DbSchema.InsertImportsContents | disk/db/schema.py:39-48 | after a successful INSERT the keys are the old keys plus the batch's keys, old rows are unchanged and each batch row is stored under its key |
| DbSchema.HistoryBatchOk | disk/db/schema.py:50-56 | an INSERT into `import_history` succeeds when every `import_id` is an `imports` key |
| DbSchema.HistoryBatchSplit | disk/db/schema.py:50-56 | an INSERT into `import_history` of `a + b` succeeds exactly when each part's `import_id`s all resolve |
| ApiSchema.Dump | disk/api/schema.py:20-25 | an item's dictionary has only the fields `ImportSchema` declares |
| ApiSchema.LoadItem | disk/api/schema.py:20-25 | an object loads exactly when it has no undeclared key, `id` is a non-empty string, `url` (if present) has 1 to 256 characters, `parentId` (if present) is non-empty, `type` is an enum value and `size` (if present) is a strict integer of at least 0; dumping the loaded item gives the object back |
| ApiSchema.LoadDumpRoundTrip | disk/api/schema.py:20-25 | loading the dictionary of a well-formed item gives the item back |
| ApiSchema.LoadItems | disk/api/schema.py:39 | a list loads exactly when every element is an object that is a valid item; the result keeps length and order |
| ApiSchema.LoadImports | disk/api/schema.py:38-40 | a request loads exactly when it has no key besides `items` and `updateDate`, `items` is a list of valid items and `updateDate` parses; the loaded items match the submitted ones one for one |
| ApiSchema.LoadDeleteId | disk/api/schema.py:43-45 | a delete request loads exactly when it has no key besides `id` and `date`, `id` is a non-empty string and `date` parses, and gives both |
| ApiSchema.ValidNode | disk/api/schema.py:28-35 | a node is an object with no undeclared key, the item field rules, a date that parses, and an optional list of children that are valid nodes in turn |
| ApiSchema.ValidNodeItems | disk/api/schema.py:28-35 | every node of a valid tree, and every child of it, carries a loadable, well-formed item in its fields other than `date` and `children` |
| TextOrder.BelowIrreflexive | disk/api/handlers/imports.py:48 | no key sorts before itself |
| TextOrder.BelowTransitive | disk/api/handlers/imports.py:48 | the key order is transitive |
| TextOrder.BelowTotal | disk/api/handlers/imports.py:48 | of two distinct keys one sorts first |
| TextOrder.BelowAsymmetric | disk/api/handlers/imports.py:48 | two keys never sort before each other |
| Chunking.Chunks | disk/api/handlers/imports.py:91-93 | the chunks concatenate back to the stream; each holds 1 to `n` rows and all but the last hold exactly `n` |
| Chunking.ChunkCount | disk/api/handlers/imports.py:91-93 | the number of chunks is the ceiling of length over `n` |
| Chunking.LastChunkSize | disk/api/handlers/imports.py:91-93 | the last chunk holds what the full chunks leave over |
| Projection.ImportRows | disk/api/handlers/imports.py:27-40 | one node row per item, in item order, with the item's fields and the request's date |
| Projection.SourceRowLookupAlwaysRaises | disk/api/handlers/imports.py:32-40 | the generator as written hits a missing key on every item: `parentId`, `url` or `size` if absent, otherwise `updateDate` |
| Projection.HistoryRows | disk/api/handlers/imports.py:54-63 | one history row per item, in item order, naming the item and the request's date |
| Projection.SourceParentRows | disk/api/handlers/imports.py:42-52 | the generator as written never yields a row: it raises `KeyError` on `parentId` exactly when no item names a parent, and `TypeError` exactly when one does |
| Projection.ParentRows | disk/api/handlers/imports.py:42-52 | there is at most one aggregate row per item, and none exactly when no item names a parent |
| Projection.ParentRowsSpec | disk/api/handlers/imports.py:42-52 | the aggregate rows are in ascending key order, their keys are exactly the distinct non-null `parentId`s, each key's size is the sum over its items (a missing size counting 0), and all sizes add up to the total of the parented items |
| Projection.ParentRowsAggregate | disk/api/handlers/imports.py:42-52 | one row per distinct parent, each row's size the sum of its children's sizes, and every named parent has a row |
| ImportsHandler.RowsPerInsert | disk/api/handlers/imports.py:23-25 | rows per INSERT is the parameter ceiling divided by the column count, rounded down |
| ImportsHandler.BatchBoundsPositive | disk/api/handlers/imports.py:23-25 | with a ceiling of at least six parameters every table's batch holds at least one row |
| ImportsHandler.ParentBatches | disk/api/handlers/imports.py:92 | the aggregate batches concatenate back to the aggregate rows |
| ImportsHandler.ImportBatches | disk/api/handlers/imports.py:91 | the node batches concatenate back to the node rows |
| ImportsHandler.HistoryBatches | disk/api/handlers/imports.py:93 | the history batches concatenate back to the history rows |
| ImportsHandler.BatchesFitParameterCeiling | disk/api/handlers/imports.py:91-93 | every batch is non-empty and binds no more parameters than the ceiling |
| ImportsHandler.ScheduleOrder | disk/api/handlers/imports.py:95-105 | all parents batches come before all node batches, which come before all history batches; each stream is in order and each batch is issued exactly once |
| ImportsHandler.NodeParentsResolve | disk/api/handlers/imports.py:95-101 | once the aggregate rows are in, every node row's `parent_id` resolves |
| ImportsHandler.ParentsStageMeaning | disk/api/handlers/imports.py:95-97 | the aggregate stage succeeds exactly when every named parent is new to the store and its total fits `integer` |
| ImportsHandler.ImportsStageMeaning | disk/api/handlers/imports.py:99-101 | with parents resolved, the node stage succeeds exactly when item ids are new and distinct and sizes fit `integer` |
| ImportsHandler.HistoryStageSucceeds | disk/api/handlers/imports.py:103-105 | after the node stage every history row's `import_id` resolves |
| ImportsHandler.AcceptsMeaning | disk/api/handlers/imports.py:95-105 | a request is accepted exactly when its parents and item ids are new to the store, item ids are pairwise distinct, and every size and parent total fits `integer` |
| ImportsHandler.ReimportRefused | disk/api/handlers/imports.py:99-101 | re-sending applied items is refused, whatever the date |
| ImportsHandler.SharedParentRefused | disk/api/handlers/imports.py:95-97 | once a request has named a parent, any later request naming it is refused |
| ImportsHandler.FolderWithFileAccepted | disk/api/handlers/imports.py:68-107 | a folder with a 10-byte file inside it, into an empty store, gives one aggregate row of size 10, both node rows and two history rows |
| ImportsHandler.UnknownParentAccepted | disk/api/handlers/imports.py:95-101 | a file whose parent is neither submitted nor stored is accepted, and its parent gets an aggregate row |
| ImportsHandler.Database.constructor | disk/db/schema.py:32-56 | a new store has empty `parents` and `imports` tables and an empty `import_history` |
| ImportsHandler.StepFacts | disk/api/handlers/imports.py:71 | a committed or rolled-back transaction takes no further step; any write may be followed by commit or rollback; phases never go back |
| ImportsHandler.Transaction.Begin | disk/api/handlers/imports.py:71 | a new transaction remembers the store as it was |
| ImportsHandler.Transaction.ExecuteParents | disk/api/handlers/imports.py:97 | one statement adds its whole batch to `parents` when accepted and not interrupted, and otherwise changes nothing |
| ImportsHandler.Transaction.ExecuteImports | disk/api/handlers/imports.py:101 | one statement adds its whole batch to `imports` when accepted and not interrupted, and otherwise changes nothing |
| ImportsHandler.Transaction.ExecuteHistory | disk/api/handlers/imports.py:105 | one statement appends its whole batch to `import_history` when accepted and not interrupted, and otherwise changes nothing |
| ImportsHandler.Transaction.Commit | disk/api/handlers/imports.py:71 | committing ends the transaction and keeps the store |
| ImportsHandler.Transaction.Rollback | disk/api/handlers/imports.py:69-71 | rolling back restores the store as it was when the transaction began |
| ImportsHandler.WriteParents | disk/api/handlers/imports.py:95-97 | the loop completes exactly when the whole aggregate stream is accepted and no batch is interrupted, leaving the stream inserted; otherwise the batches before the last one issued were accepted and not interrupted, the last one was refused by the store or interrupted, and the transaction is rolled back |
| ImportsHandler.WriteImports | disk/api/handlers/imports.py:99-101 | the same for the node stream |
| ImportsHandler.WriteHistory | disk/api/handlers/imports.py:103-105 | the same for the history stream |
| ImportsHandler.WriteTree | disk/api/handlers/imports.py:95-101 | the first two loops complete exactly when the store accepts the aggregate stream and then the node stream and no issued statement is interrupted, leaving both inserted; otherwise the transaction is rolled back to its snapshot |
| ImportsHandler.ParentsStreamStep | disk/api/handlers/imports.py:96-97 | after the batches before it, a successful aggregate batch extends what is inserted by exactly that batch; a failing one means the whole stream is refused |
| ImportsHandler.ImportsStreamStep | disk/api/handlers/imports.py:100-101 | the same for a node batch |
| ImportsHandler.HistoryStreamStep | disk/api/handlers/imports.py:104-105 | the same for a history batch |
| ImportsHandler.WriteAll | disk/api/handlers/imports.py:95-105 | the three loops issue a prefix of the schedule; they all complete exactly when the store accepts the three streams and no issued statement is interrupted, leaving the streams inserted; otherwise the transaction is rolled back to its snapshot |
| ImportsHandler.Ingest | disk/api/handlers/imports.py:68-107 | the statements issued are a prefix of the plan; it commits exactly when the store accepts the request and no issued statement is interrupted, and the store is then the old store plus every row; otherwise it rolls back after at least one statement and the store is unchanged |

## Left out

- The HTTP layer is not part of this model. That covers the aiohttp view, its decorators, the `201` response and the mapping of failures to responses (disk/api/app.py, disk/api/handlers/base.py). The query handler (disk/api/handlers/query.py) is left out too.
- `MAX_QUERY_ARGS` comes from disk/utils/pg.py, which is not part of this model. It is a parameter of at least six, so every table's batch holds a row.
- ApiSchema.DateField: parsing the `%Y-%m-%dT%H:%M:%S.%fZ` format is a library call. It is a parameter, and a date is an opaque day.
- ApiSchema.ValidItem: unknown keys are refused, as marshmallow 3 does by default. The marshmallow version is not pinned by the files modelled here; marshmallow 2 would drop such keys instead.
- ApiSchema.StrOfLength: a string is a sequence of characters. A string holding U+0000 passes `Length(min=1)` here and in marshmallow, but PostgreSQL `text` refuses it, so the INSERT of such a row fails; DbSchema.ImportsBatchOk and DbSchema.ParentsBatchOk do not model that refusal. Strings with lone surrogates cannot be written in this model.
- The row generators are lazy and `chunk_list` consumes them one batch at a time. The model works on whole sequences, so the memory bound is not modelled.
- Chunking.Chunks: states `chunk_list`'s contract. The aiomisc implementation is not modelled.
- Projection.ParentRows: covers only the groupby semantics the handler relies on: null keys dropped, missing sizes summed as 0, keys in ascending order. Other pandas dtype behaviour is not modelled. Non-numeric columns are summed too but never read, so they are left out.
- An outside failure (client disconnect, lost connection) is modelled as an interruption of at most one chosen statement. Commit itself is assumed not to fail.
- Concurrency between requests, isolation levels and the connection pool are not modelled. Each request sees a store no one else writes.
- `import_history.id` is a serial key the store assigns. It is not modelled.
- `ON DELETE CASCADE` on both foreign keys is not modelled, because the import path never deletes.
- The enum is stored by its value (`FILE`/`FOLDER`), as the migration creates it. SQLAlchemy's enum coercion is not modelled.
- The Alembic migration (disk/db/alembic/versions/d5f704ed4610_initial.py) is not modelled. Its downgrade drops a table named `parents_table`, which does not exist (line 61).
- The response schemas of disk/api/schema.py (lines 48 on) are not modelled.

## Findings

| source | as written | input that shows it | evidently intended | confidence | as-written member | corrected member |
|---|---|---|---|---|---|---|
| disk/api/handlers/imports.py:32-40 | every node row reads `item['parentId']`, `item['url']`, `item['size']` and `item['updateDate']` from the loaded item. Optional fields are absent when not sent, and items never carry `updateDate`, so every item raises `KeyError` | `{"items": [{"id": "1", "type": "FOLDER"}], "updateDate": "2022-01-01T00:00:00.000000Z"}` raises on `parentId` | absent optional fields become null and every node row takes the request's `updateDate` | high (not executed) | Projection.SourceRowLookupAlwaysRaises | Projection.ImportRows |
| disk/api/handlers/imports.py:47-52 | the loop iterates the grouped DataFrame itself, which yields column labels, so `item['parentId']` indexes a string and raises `TypeError`. When no item has `parentId`, the group-by raises `KeyError` first | any request with an item that has a `parentId` (`TypeError`); an empty `items` list (`KeyError`) | one row per group of `groupby('parentId').sum()`, for example by iterating `itertuples()` | high (not executed) | Projection.SourceParentRows | Projection.ParentRowsSpec |

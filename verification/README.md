# Account persistence and the audit gate, modelled and proved

The models cover four algorithms of the repository.

**Eager loading of accounts** (`EagerSpec`, `EagerJoin`, `EagerRefinement`, `EagerProperties`, `EagerLimits`,
`EagerProjection`, `AccountEntity`, `AccountRecord`, `AccountGraph`, `Loaders`, `EagerLoad`, `EagerObjects`,
`EagerReuse`). An account query carries a
tree of edge queries. Its load runs one batched query per edge and layer, and joins the answers by key into account
objects that are changed in place. `EagerSpec` says what this means in two ways: `Batched` follows the loaders, `Naive`
is the nested-loop join, node by node. `EagerRefinement.BatchedIsNaive` proves them equal for query trees of any depth.
`AccountGraph`, `Loaders` and `EagerLoad` are the builders, the entities and the loaders as classes and loops over
arrays of nodes, index maps and sets; `EagerLoad.Load` is proved against `Batched`, and through the theorem against
`Naive`. `EagerObjects` says what the returned objects hold, field by field, in terms of the tables alone, and
`AccountRecord` does the same for the 32 columns of an account.

**Bulk creation** (`AccountBuilder`, `AccountCreate`, `BulkCreate`, `BulkHooks`, `BulkSave`, `CreateEdges`). Each builder's mutator,
inside its hooks, calls the next builder's; the last one runs the only insert; ids and done flags are written on the way
back. `BulkCreate` has the run as a function with a trace of events, `BulkHooks` says exactly which hooks keep the
save all-or-nothing, and `BulkSave` has the classes whose methods are proved to perform that run.

**Edge updates and upserts** (`EdgeUpdate`, `Upsert`). The pending changes of a mutation are compiled into edge lists,
and the lists are executed on a relational store; conflict options are collected on a builder and run on an update set.

**The audit gate** (`AuditText`, `AuditLayout`, `AuditReport`, `AuditSources`, `AuditGate`, `AuditMeaning`,
`AuditOrder`). The line parser of the exception file, the
two report formats, the index of exceptions, the scan of the findings, and the exit code.

`Collections` has the vocabulary for sequences that these share. Induction is always spelled out: every lemma turns
automatic induction off.

## Semantics that are assumed

Code outside the repository is modelled by these rules.

- A database is a tuple of finite sequences of rows. A query filters its table, sorts it stably, and then applies its
  offset and limit. Columns a row lacks read as NULL. Projected neighbours show the selected columns and the id.
- The join of groups with their accounts lists its rows group by group, in the order of the group query. The loaders
  themselves are proved for join rows in any order and with repetitions (`EagerProperties.GroupsExact`).
- A driver call may fail at any time; `Driver.failed` records that one did.
- The batch insert gets all specs at once and fails as a whole or reports an id, or none, for each.
- A hook is a pair of functions: what it does before the next mutator (pass a mutation on, possibly edited, or return at
  once) and what it makes of the outcome. It calls the next mutator at most once.
- An update executes its edge lists relation by relation: the accounts' own foreign keys, then the join table, then the
  foreign keys of other rows. Within a relation all clears come before all adds; a clear without targets clears the
  whole edge; rows are handed over only if they exist and have no owner, and only to a single account. Whether the join
  table rejects a pair it already holds is the parameter `strict`.
- In an update set a later write to a column replaces an earlier one. The columns of an insert are those that some row
  of the batch provides, and a row proposes NULL for the others.

## Model

The calls on the pending edges of an account (`EdgeUpdate`) end in methods of its mutation, in `backend/ent/mutation.go`,
lines 2899-2945 and 3988-4120; the table cites the builder methods that pass the calls on.

| member | source | states |
|---|---|---|
| EagerRefinement.BatchedIsNaive | backend/ent/account_query.go:550-784 | for every database with unique account and group ids and every query tree without limits on edge queries, to any depth, batched loading returns the same accounts in the same order with the same edges as the nested-loop join, and fails exactly when it fails |
| EagerLoad.Load | backend/ent/account_query.go:550-625 | a load that succeeds builds object graphs that equal the batched meaning of the query, and the naive join where the theorem applies; it fails otherwise only if that meaning fails or the driver did; it issues at most one backend query per node of the query tree |
| EagerObjects.LoadObjects | backend/ent/account_query.go:550-625 | a load hands out one object per row of the query, in order, with the flags of what was asked for and, in every edge field, the neighbours that the tables give its row |
| EagerLoad.All | backend/ent/account_query.go:550-625 | the same for the recursive load, for any description of what the edge queries mean; terminates on the height of the query tree |
| EagerLoad.LoadParent | backend/ent/account_query.go:720-751 | each node with a parent key points to the loaded account with that id, whose own graph is complete; a nil key, and every other field, stay as they were; an unknown id fails |
| EagerLoad.LoadChildren | backend/ent/account_query.go:752-784 | each node's children are the loaded accounts whose parent key is its id, in query order; a nil or unknown key fails |
| EagerLoad.ScanNodes | backend/ent/account_query.go:563-583 | one node per row, in row order, with the entity its row scans to and no edges; one row that cannot be scanned fails the query |
| EagerLoad.QueryColumns | backend/ent/account_query.go:858-883 | the loop over selected fields produces the specified column list |
| EagerJoin.ColumnsComplete | backend/ent/account_query.go:858-883 | the id comes first and once, and the columns are exactly the id, the selected fields and the foreign keys that requested M2O edges read |
| Loaders.GroupByKey | backend/ent/account_query.go:688-700 | the queried ids are duplicate-free and exactly the non-nil keys; the index gives each key its nodes in node order, repeated ids included |
| Loaders.LoadProxy | backend/ent/account_query.go:688-719 | every node gets the returned proxy with its key, the others none; no query runs if no key is set; an unknown id fails |
| Loaders.LoadGroups | backend/ent/account_query.go:627-687 | whatever order the inner set of nodes is visited in, every account's groups are the neighbours joined to it, in order of first appearance |
| Loaders.CollectGroups | backend/ent/account_query.go:651-678 | the wrapped row callbacks return each group once and record exactly which nodes each is joined to |
| Loaders.LoadOwned | backend/ent/account_query.go:785-844 | usage logs and account-group entries: the batch dealt out by owner, in query order; an unknown owner fails |
| EagerProperties.GroupsExact | backend/ent/account_query.go:627-687 | for any join rows, repeated or not, an account ends with exactly the groups joined to it, none twice, ordered by first appearance |
| EagerProperties.FirstGroupsExact | backend/ent/account_query.go:651-678 | the neighbour list has every joined group exactly once, and reading further rows only appends to it |
| EagerProperties.ChildrenConserved | backend/ent/account_query.go:752-784 | dealing children out succeeds exactly if every one has a known parent key, and then no child is lost or doubled |
| EagerProperties.AccessorsAfterLoad | backend/ent/account.go:118-147 | after a load the accessors answer not-loaded exactly if the edge was not requested, and a value exactly if the key is set and its target row passes the edge query |
| EagerProperties.ListsAfterLoad | backend/ent/account.go:109-166 | the four list accessors answer not-loaded exactly if the edge was not requested, and otherwise exactly the account's rows of the tables: linked groups, owned usage logs and account-group entries, children with their own loads |
| EagerProperties.ProxyExact | backend/ent/account.go:118-127 | the same for one node and its proxy, with the id of the value |
| EagerProperties.ParentExact | backend/ent/account.go:129-138 | the same for the parent |
| EagerProperties.ProjectionTransparent | backend/ent/account_query.go:858-883 | selecting columns at the root leaves every edge as it is |
| EagerProjection.SelectionsTransparent | backend/ent/account_query.go:752-883 | any two selections, at every query node and to any depth, load the same accounts in the same order with the same edges; rows agree wherever both show a column |
| EagerLimits.LimitExact | backend/ent/account_query.go:785-814 | with a limit on the edge query every account still gets its own rows exactly if the limit is zero, all rows of the batch fit, or they belong to one account |
| EagerLimits.OffsetExact | backend/ent/account_query.go:785-814 | with an offset: exactly if it is zero, it skips the whole batch, or the rows belong to one account |
| EagerLimits.LimitCapsBatch | backend/ent/account_query.go:785-814 | a concrete batch of two accounts in which the limit takes the second account's only row away |
| AccountGraph.AccountQuery.Clone | backend/ent/account_query.go:388-408 | the copy is equal to any depth, without row locks, and consists of fresh objects only |
| EagerReuse.UnlockedSame | backend/ent/account_query.go:388-408 | dropping the row locks, as a copy does at every depth, does not change what is loaded |
| EagerReuse.UnlockedCopies | backend/ent/account_query.go:388-408 | at every query node a copy has the same context, order, interceptors and predicates, and no row lock |
| EagerReuse.LoadCopy | backend/ent/account_query.go:388-408 | loading a copy leaves the original builder untouched and loads what the original asks for |
| EagerReuse.LoadAfterCopy | backend/ent/account_query.go:388-408 | loading the original, which alters its edge queries, leaves an earlier copy as it was, with the same meaning |
| AccountEntity.NoTypeError | backend/ent/account.go:168-417 | slots made for a column list are never rejected for their type or number; only a document can fail |
| AccountEntity.AssignFresh | backend/ent/account.go:193-417 | filling a fresh entity gives the entity of the set of columns and fails exactly if one of its documents does not decode |
| AccountEntity.ColumnOrderIrrelevant | backend/ent/account.go:193-417 | the order of the columns, and repeats, change neither the entity nor whether filling it fails |
| AccountEntity.ScanSchemaRow | backend/ent/account.go:168-417 | a row of the table's schema scans for every list of known columns, into the entity of these columns |
| AccountEntity.ScanValues | backend/ent/account.go:168-189 | one slot per column, of the kind of that column, unknown names included |
| AccountEntity.MismatchFails | backend/ent/account.go:193-417 | the first slot of a wrong kind stops the assignment with that column's type error, and too few slots stop it at once |
| AccountRecord.RecordRoundTrip | backend/ent/account.go:18-417 | for every record of the 32 typed fields, scanning the row stored for it succeeds and every field reads its own component, nil pointers included |
| AccountGraph.Account.AssignValues | backend/ent/account.go:193-417 | the in-place assignment, column by column up to the first error, is the specified one |
| AccountBuilder.CheckExact | backend/ent/account_create.go:588-662 | the check passes exactly if no column is missing or invalid, and otherwise reports the first fault in check order |
| AccountBuilder.OnlyIdentityMissing | backend/ent/account_create.go:527-662 | after the defaults only name, platform or type can be missing |
| AccountBuilder.CheckMeans | backend/ent/account_create.go:588-662 | the check passes exactly if the fourteen required columns are set and the six validators accept what is set |
| AccountBuilder.CheckOrder | backend/ent/account_create.go:588-662 | the fifteen columns are checked in the listed order, and the first fault in it is the one reported |
| AccountBuilder.DefaultsMean | backend/ent/account_create.go:527-585 | which provider fills which column; what was set, and every other column, stays |
| AccountBuilder.DefaultsStop | backend/ent/account_create.go:527-585 | an unregistered provider that is needed stops the defaults there, with exactly the columns before it filled |
| BulkSave.Builder.Defaults | backend/ent/account_create.go:527-585 | missing values, and only those, get their defaults; an unregistered provider stops the rest |
| AccountCreate.CreateThenScan | backend/ent/account_create.go:682-891 | the row stored from a spec, read back with all columns, is the node the create returned, with its id |
| AccountRecord.CreatedRecord | backend/ent/account_create.go:682-891 | a create mutation set from a typed record stores a row that scans back into that record, field by field |
| CreateEdges.CreatedEdges | backend/ent/account_create.go:800-889 | a create succeeds exactly if the children and usage logs it names exist and are free, and then the new account has exactly the groups, children, usage logs, proxy and parent of its mutation |
| CreateEdges.SaveCarries | backend/ent/account_create.go:2102-2151 | for any hooks, position k of the batch is the spec of mutation k, fields and edges; the k-th reported id goes to spec k and node k; every logged check says what the check makes of that mutation |
| CreateEdges.PlainSave | backend/ent/account_create.go:2102-2151 | without hooks a save reports the first failing check in builder order, or else the database's answer to the specs of all mutations |
| BulkCreate.InsertOnceWhenReady | backend/ent/account_create.go:2106-2139 | for any hooks, a bulk save inserts at most once, and only with every spec filled and every check passed |
| BulkCreate.TraceNested | backend/ent/account_create.go:2117-2150 | for any hooks, the trace is a way in, in index order with the first hook outermost, and then the exact reverse of what was entered |
| BulkCreate.SaveAllOrNothing | backend/ent/account_create.go:2102-2151 | with pass-through hooks either every mutation is done and every node has the id of its spec, or the save fails and none is done |
| BulkCreate.AllOrNothingExact | backend/ent/account_create.go:2102-2151 | for any hooks, a run is all-or-nothing exactly if every mutator that ran reported success exactly when its own mutation is done |
| BulkHooks.AllOrNothingHooks | backend/ent/account_create.go:2102-2151 | for any check and any hooks, every save is all-or-nothing, whatever the mutations and the database's answers, exactly if every builder that can be reached reports truthfully what it can be given; said of the hook lists alone |
| BulkHooks.Misreports | backend/ent/account_create.go:2117-2150 | a builder that can be reached and be given an outcome it misreports has mutations and a database for which the save is neither all nor nothing |
| BulkHooks.SincereSave | backend/ent/account_create.go:2102-2151 | under that exact condition a successful save identifies every node, and a failed one marks none done |
| BulkHooks.PassThroughSincere | backend/ent/account_create.go:2141-2143 | pass-through hooks meet the condition |
| BulkCreate.SwallowedFailure | backend/ent/account_create.go:2141-2143 | a hook that reports success for a failure: nothing is inserted, one mutation is done, and the save succeeds |
| BulkSave.AccountCreateBulk.Save | backend/ent/account_create.go:2095-2152 | the save over slices, builders and mutation objects performs the specified run, so all of the above holds of its flags and nodes |
| BulkSave.Saving.MutateNext | backend/ent/account_create.go:2106-2150 | calling a builder's wrapped mutator runs its hooks, its check, the rest of the chain and its finish, in this order, as specified |
| BulkSave.AccountCreateBulk.ExecUpsert | backend/ent/account_create.go:2839-2852 | refused without saving if a builder has conflict options of its own, naming the first, or if the bulk has none |
| EdgeUpdate.AccountUpdate.CompileEdges | backend/ent/account_update.go:949-1145 | the flags and id sets of the mutation become the specified clearing and adding edges |
| EdgeUpdate.UpdateExact | backend/ent/account_update.go:949-1153 | for all pending changes, matched accounts and stores, the compiled lists succeed exactly when the links are free, and then leave exactly what the changes mean; parent and children share one column |
| EdgeUpdate.UpdateLaw | backend/ent/account_update.go:949-1153 | groups, children and usage logs of a matched account become (cleared ? nothing : stored minus removed) plus added; those of other accounts stay |
| EdgeUpdate.ManyEdge.RemoveIDs | backend/ent/account_update.go:647-651 | removing ids withdraws pending additions of them and records the removals |
| EdgeUpdate.PendingExact | backend/ent/account_update.go:567-651 | the update leaves what the calls made at once would have left, plus exactly the stranded ids |
| EdgeUpdate.PendingIsReplay | backend/ent/account_update.go:567-651 | waiting until the update is harmless exactly if no id was added, then cleared, and not named again |
| EdgeUpdate.ClearKeepsAdded | backend/ent/account_update.go:567-645 | adding a group and then clearing all groups leaves the account linked to it |
| EdgeUpdate.PendingKeyIsReplay | backend/ent/account_update.go:582-672 | for the proxy and parent keys: which last call, after which pending state, makes the update differ from the calls made at once |
| EdgeUpdate.ResetKeepsClear | backend/ent/account_update.go:662-666 | clearing and then resetting the proxy edge still clears the proxy |
| EdgeUpdate.GroupsOfCalls | backend/ent/account_update.go:949-1005 | from the calls on a builder to the rows of the join table |
| Upsert.UpsertBulk.Resolve | backend/ent/affiliaterebatejob_create.go:1028-1050 | running the collected options, which read the builders only then, fills the specified update set |
| Upsert.UpsertOne.Resolve | backend/ent/affiliaterebatejob_create.go:618-638 | the same for a single row |
| Upsert.JobCreate.KeepGiven | backend/ent/affiliaterebatejob_create.go:620-636 | exactly the immutable columns the builder provides are set to their stored values |
| Upsert.LastWriteWins | backend/ent/affiliaterebatejob_create.go:618-679 | the last option that writes a column decides its write |
| Upsert.ImmutableKept | backend/ent/affiliaterebatejob_create.go:618-638 | for any batch, any opening options and any typed calls before and after UpdateNewValues, an immutable column keeps its stored value |
| Upsert.CheckedBatchKeepsImmutable | backend/ent/affiliaterebatejob_create.go:1028-1050 | so do all five immutable columns of a row that passed its check |
| Upsert.MutableExact | backend/ent/affiliaterebatejob_create.go:448-638 | after UpdateNewValues and typed setters, a mutable column takes the last setter's value, or else the proposed one if some row of the batch provides it, or else stays |
| Upsert.SetterMeans | backend/ent/affiliaterebatejob_create.go:448-608 | whatever came before, the last typed setter of a column makes its cell the value given, the row's own value, NULL, or the stored number plus the increment |
| Upsert.NewValuesMean | backend/ent/affiliaterebatejob_create.go:618-638 | for a checked row, the five named columns keep what is stored and every other provided column takes the row's value |
| Upsert.IgnoreMeans | backend/ent/affiliaterebatejob_create.go:646-649 | Ignore keeps the stored cells of the inserted columns |
| Upsert.SkipMeans | backend/ent/affiliaterebatejob_create.go:651-656 | DoNothing keeps the whole stored row, whatever else is asked for |
| Upsert.BatchIsEach | backend/ent/affiliaterebatejob_create.go:1028-1050 | exactly when a row of a batch becomes what upserting it alone would have made of it |
| Upsert.BatchDropsStored | backend/ent/affiliaterebatejob_create.go:1028-1050 | two checked rows, one with a last error: the other row's stored error becomes NULL |
| Upsert.PlainNewValuesDiffers | backend/ent/affiliaterebatejob_create.go:610-638 | UpdateNewValues and the plain option agree exactly if the proposed immutable values are the stored ones |
| Upsert.PlainOverwrites | backend/ent/affiliaterebatejob_create.go:610-638 | a concrete row whose base amount the plain option overwrites and UpdateNewValues keeps |
| AuditText.ParseExceptions | tools/check_pnpm_audit_exceptions.py:23-48 | the parsing loop is the specified run over the lines |
| AuditText.ParsePrint | tools/check_pnpm_audit_exceptions.py:12-48 | printed exceptions parse back to the same list, values with colons and quotes included |
| AuditText.ParsePrintText | tools/check_pnpm_audit_exceptions.py:12-48 | the same for the whole text of the file, through its line breaks |
| AuditLayout.LayoutParses | tools/check_pnpm_audit_exceptions.py:12-48 | every file whose lines write something, with any indentation, blank lines, comments, headings and quoting, parses into what they write |
| AuditLayout.ParseFails | tools/check_pnpm_audit_exceptions.py:12-48 | parsing fails exactly on a file with an item that has no colon |
| AuditLayout.LinesBroken | tools/check_pnpm_audit_exceptions.py:27-28 | the lines of a text come back whichever of the three line breaks end them |
| AuditReport.Iterate | tools/check_pnpm_audit_exceptions.py:64-111 | the generator's loops yield the specified vulnerabilities and end with the specified error |
| AuditSources.AdvisoryIdMeans | tools/check_pnpm_audit_exceptions.py:51-61 | the identifier of an advisory is the first of seven fields that says something, and taking it fails exactly on a CVE value without a first element |
| AuditSources.AdvisoryMeans | tools/check_pnpm_audit_exceptions.py:64-79 | the name, severity and identifier that an advisory is reported with |
| AuditSources.PackageMeans | tools/check_pnpm_audit_exceptions.py:81-111 | a package yields, in order, one vulnerability for every via entry that names something, by the first of five fields |
| AuditSources.PackageFails | tools/check_pnpm_audit_exceptions.py:81-111 | a package is unreadable exactly if the title of a via entry is no text |
| AuditSources.ReportMeans | tools/check_pnpm_audit_exceptions.py:64-111 | a report is readable exactly if every entry of its two tables is, and yields what they yield |
| AuditGate.IndexExact | tools/check_pnpm_audit_exceptions.py:156-189 | the index is built without complaint exactly from well-formed exceptions with distinct keys, and then it is that list |
| AuditGate.ScanExact | tools/check_pnpm_audit_exceptions.py:193-219 | the scan finds no problem exactly if nothing is broken or without an advisory and the first finding of every key is excused |
| AuditGate.Gate | tools/check_pnpm_audit_exceptions.py:142-243 | the exit code is 0 exactly if the gate accepts |
| AuditGate.AcceptsMeans | tools/check_pnpm_audit_exceptions.py:156-243 | what acceptance says, without the index: distinct well-formed exceptions, and for every named high or critical vulnerability an unexpired exception whose severity is blank or that of the key's first finding |
| AuditMeaning.AcceptsClears | tools/check_pnpm_audit_exceptions.py:142-243 | acceptance, said of the exception items and the reported vulnerabilities themselves: all exceptions complete, dated and distinct; every named vulnerability whose severity is high or critical has an advisory and an unexpired exception of no severity or that of the first such vulnerability of its key |
| AuditMeaning.RunGate | tools/check_pnpm_audit_exceptions.py:142-243 | the exit code is 0 if that holds and 1 otherwise |
| AuditGate.ExceptionOrder | tools/check_pnpm_audit_exceptions.py:156-189 | reordering the exceptions changes nothing |
| AuditGate.FindingOrder | tools/check_pnpm_audit_exceptions.py:191-219 | while no key is contested, neither the order nor the repetition of findings matters |
| AuditGate.OrderExact | tools/check_pnpm_audit_exceptions.py:191-219 | the order of the findings matters exactly if a key is contested and some order can pass: nothing broken or unnamed, and every key has an excused finding |
| AuditGate.OrderMattersHere | tools/check_pnpm_audit_exceptions.py:191-219 | one advisory found as high and as critical, excepted as high, passes in one order and fails in the other |
| AuditGate.ContestedOrder | tools/check_pnpm_audit_exceptions.py:191-219 | a contested key makes some reordering fail |
| AuditOrder.FileOrder | tools/check_pnpm_audit_exceptions.py:142-243 | exception files with the same exceptions in any order get the same answer |
| AuditOrder.PrintedOrder | tools/check_pnpm_audit_exceptions.py:12-189 | so do the printed texts of a list of exceptions and of its permutations |
| AuditOrder.ReportOrder | tools/check_pnpm_audit_exceptions.py:64-243 | reordering or repeating the entries of the report changes nothing while no key is contested |

## Findings

Behaviour that differs from what a caller, or the documentation, may expect; each has its exact condition and an input.

- Limits and offsets on an edge query apply to the whole batch: `EagerLimits.LimitExact`, `EagerLimits.OffsetExact`,
  with `EagerLimits.LimitCapsBatch`.
- A hook that misreports the outcome leaves a bulk save half done: `BulkHooks.AllOrNothingHooks`, with
  `BulkCreate.SwallowedFailure`.
- The gate's answer can depend on the order of the report: `AuditGate.OrderExact`, with `AuditGate.OrderMattersHere`.
- `ClearGroups` is documented as clearing all groups; ids added before it stay: `EdgeUpdate.PendingIsReplay`, with
  `EdgeUpdate.ClearKeepsAdded`.
- `ResetProxy` is documented as resetting all changes of the edge; the field keeps its clearing mark:
  `EdgeUpdate.PendingKeyIsReplay`, with `EdgeUpdate.ResetKeepsClear`.
- `UpdateNewValues` is documented as equivalent to the plain option; it is not: `Upsert.PlainNewValuesDiffers`, with
  `Upsert.PlainOverwrites`.
- In a bulk upsert a row loses the stored value of a column that only another row provides: `Upsert.BatchIsEach`, with
  `Upsert.BatchDropsStored`.

## Left out

- EagerRefinement.BatchedIsNaive: with a limit or an offset on an edge query nothing is said of whole graphs; the exact
  condition is given for the edges to usage logs and account-group entries.
- EagerLimits.LimitExact: a limit and an offset on the same edge query are not treated together.
- EagerLoad.Load: it does not say what the edge queries of the builder are afterwards, to which the loaders append
  predicates. For groups that predicate is a join; a second join on the same query, as a second load of the builder
  would add, has no meaning in the model. `EagerReuse.LoadCopy` and `EagerReuse.LoadAfterCopy` load through a copy.
- EagerLoad.ScanNodes: an entity is a map from columns to values rather than a record of fields, so that one branch
  stands for the branches of one kind of column; JSON decoding is an arbitrary function that may fail.
- AccountGraph.AccountQuery.Clone: interceptors are carried as opaque values; traversal paths and the unique flag play
  no part in a load.
- BulkSave.AccountCreateBulk.Save: the same builder twice in one bulk, hooks that call the next mutator twice, and
  values that hooks return instead of the node.
- EdgeUpdate.UpdateExact: join-table fields other than the two ids, foreign-key and not-null constraints, and the order
  of an edge's targets, which are sets; a failed update leaves the store unchanged by the transaction around it.
- EdgeUpdate.ManyEdge.RemoveIDs: one class stands for the three edges to many of the mutation and `UniqueEdge` for its
  two keys; the difference between a nil and an empty id set, seen only by `AddedEdges`, is not modelled.
- Upsert.UpsertBulk.Resolve: the SQL of an update set, an update set left empty, and functions given to Update that read
  the set.
- AuditOrder.ReportOrder: objects with repeated keys, as a JSON parser would not deliver them.
- Queries of neighbouring entities are leaves: their own eager loading and field checks are not modelled.
- Changes to the database during a load, and aliasing of slice backing arrays.
- Interceptors, predicates as SQL, transactions, locking, and the code of the database library.
- Argument parsing, file reading, JSON parsing and message texts of the audit tool.
- Setters, counting, grouping, selection and deletion builders, the hooks of single saves, and the other entities, whose
  builders are instances of the same template.

# Eager loading, bulk creation and the audit gate, modelled in Dafny

The repository's data layer is generated code over one entity pattern; its release pipeline adds one audit
script. This project models the parts of both in which the result is not visible in any single function.

* **Eager loading** (`Schema`, `QueryPlan`, `Builders`, `BuilderRuns`, `SortOrder`, `EagerLoading`, `Queries`). Query builders
  are heap objects with recursive `with*` sub-queries. Executing one runs a batched query per edge, indexes the
  nodes by id or foreign key, and assigns the edges in place on shared nodes. `JoinSpec` describes what the
  batched loaders compute; `JoinTheorem` defines the naive per-row join, unfolded along the tree of sub-queries,
  and proves the two equal. `RowReading` and `JoinMeaning` say what a query means without naming any function that
  prepares, fetches or loads: which stored rows are accepted, which stand at each edge and in which order, and what
  their nodes hold. `JoinLaws`, `SelectionLaws`, `DealingLaws`, `PagingLaws`, `PagedEdges` and `GroupOrder`
  prove what the result does and does not depend on.
* **Bulk creation** (`CreateChecks`, `BulkCreate`). One mutator per builder, wrapped in that builder's hooks, each calling the
  next; the last one performs the single batch insert, and success is committed while the calls return.
* **Rows and updates** (`AccountFields`, `EdgeUpdate`). Scanning and assigning rows, the spec of a new row, and the
  edges an update clears and adds.
* **The audit gate** (`ExceptionRecords`, `ExceptionFile`, `AuditGate`, `AuditEntries`, `AuditLaws`, `AuditMain`,
  `AuditExamples`). The line-oriented exception file, the keyed index of exceptions, the deduplicating scan of the
  audit report, and the exit code.

Assumptions about the code that is not part of the model: a statement reads one snapshot of the tables; a query
returns exactly the rows satisfying its predicates, in some order that is a parameter of the plan; a limit of 0
is no limit; a batch insert fills in one id slot per spec, or fails and changes nothing; updating an edge clears
before it adds; a column that an insert does not name is null. Encoding and decoding of documents are parameters, and
nothing is assumed of them but what a claim says.

Where the model found that the code does less than one might expect, it keeps the code's behaviour and proves
exactly when the expectation holds:

* a limit or offset on a sub-query applies to all nodes of the batch together; for each of the eight edges it is proved
  when every node still gets what it would get alone (`LogPageExact`, `ChildPageExact`, `MemberPageExact`,
  `GroupPageExact`, `ProxyPageExact`, `ParentPageExact`, `MemberAccountPageExact`, `MemberGroupPageExact`), with
  `LimitStarves` as a failing case;
* the order of a node's groups depends on the other nodes of the batch (`GroupOrderExact`, `GroupOrderDependsOnBatch`);
* a bulk save with hooks that pass the call on once, and answer with its result or an error, is all-or-nothing
  exactly if no hook turns the success of an insert into an error (`AllOrNothing`, `SpoiledSave`);
* an update that adds a group and then clears all groups keeps the group (`UpdateExact`, `AddThenClear`), and
  clearing or resetting a unique edge does not take back everything set before (`UniqueUpdateExact`,
  `ClearAndResetFail`);
* the audit gate's verdict can depend on the order of the report when one advisory is reported with two
  severities (`OrderIrrelevant`, `OrderDecides`); a vulnerability whose `via` names nothing is not looked at
  (`YieldsPerIdentifier`, `NamelessPasses`); an exception fits every severity exactly if its own is blank (`BlankSeverityFitsAll`,
  `BlankSeverityPasses`).

## Model

| member | source | states |
|---|---|---|
| JoinTheorem.BatchIsJoin | backend/ent/account_query.go:550-625 | for every snapshot, every tree of sub-queries without limit or offset, and arbitrary predicates, what batched loading computes is the per-row join unfolded recursively |
| JoinTheorem.GroupsIsJoin | backend/ent/account_query.go:627-687 | a node's groups are exactly the selected groups some join row relates it to, whatever the row stream repeats |
| JoinTheorem.ProxyIsJoin | backend/ent/account_query.go:688-719 | a node's proxy is the selected row its nullable key names, or absent; keys may repeat across nodes |
| JoinTheorem.ParentIsJoin | backend/ent/account_query.go:720-751 | a node's parent, with its own subtree, is the account its nullable key names |
| JoinTheorem.ChildrenIsJoin | backend/ent/account_query.go:752-784 | a node's children are exactly the selected accounts whose key names it, in query order, each with its subtree |
| JoinTheorem.UsageLogsIsJoin | backend/ent/account_query.go:785-814 | a node's usage logs are exactly the selected logs that name it, in query order |
| JoinTheorem.MembersIsJoin | backend/ent/account_query.go:815-844 | a node's join rows, each with its own account and group edge |
| JoinTheorem.MemberIsJoin | backend/ent/accountgroup_query.go:334-436 | one join row's account and group edges are the rows its keys name |
| JoinTheorem.LinkedIsRelated | backend/ent/account_query.go:634-660 | a (node, group) pair is in the filtered row stream exactly when the join table relates them and the group is there |
| JoinTheorem.FetchDistinct | backend/ent/account_query.go:904-939 | any result list of a query over distinct ids has distinct ids, in any order and page |
| JoinMeaning.BatchIsShown | backend/ent/account_query.go:550-625 | the same without any function of the implementation: batched loading answers with the page of the stored rows that all predicates and traversers accept, each with a node at every asked-for edge for exactly the accepted rows the foreign keys or join rows lead to, in the order asked for, holding the columns asked for |
| JoinMeaning.JoinIsShown | backend/ent/account_query.go:550-625 | so it is for one row, at every depth |
| RowReading.NoneRefused | backend/ent/account_query.go:524-571 | no returned node stands for a row a predicate or traverser refuses, such as a deleted one; without limit and offset every other stored row has its node |
| RowReading.PreparedAccepts | backend/ent/account_query.go:524-535 | a prepared query keeps a row exactly if the builder's own predicates and every traverser's do |
| RowReading.AccountsAreRead | backend/ent/account_query.go:550-571 | a node holds its row's id, the foreign keys its edges need, and exactly the columns that are selected, or all of the table's when nothing is |
| RowReading.MembersAreRead | backend/ent/accountgroup_query.go:334-361 | the same for join rows |
| RowReading.LeavesAreRead | backend/ent/account_query.go:858-880 | the same for groups, proxies and usage logs, whose queries are generated alike |
| SortOrder.ThenSorts | backend/ent/account_query.go:892-901 | adding a sort key keeps the earlier ones dominant: two stable sorts make a stable sort by the first key, then the second; so for any number of keys |
| SortOrder.FirstKeySorts | backend/ent/account_query.go:67-72 | on a fresh builder the first key alone decides |
| JoinLaws.RoutesAgree | backend/ent/account_query.go:815-844 | with any predicates, the walk over account_groups and then group gives a part of the groups edge, and all of it exactly if every related group the groups query accepts keeps some join row that leads to it; so always when the join-row query filters nothing |
| JoinLaws.WalkExact | backend/ent/account_query.go:815-844 | the walk reaches a group exactly if the groups query accepts it and some accepted join row of the account names it |
| JoinLaws.ParentChildrenInverse | backend/ent/account_query.go:720-784 | c is listed under p just when p is c's parent, exactly if the two sub-queries accept the pair alike |
| JoinLaws.OneParent | backend/ent/account_query.go:770-782 | a child is assigned to one node only |
| SelectionLaws.SelectionKeepsEdges | backend/ent/account_query.go:858-880 | for every plan, paged or not, batched loading builds the same ids and edges at every depth whatever columns the builders of the tree select |
| SelectionLaws.MemberSelectionKeepsEdges | backend/ent/accountgroup_query.go:448-490 | the same for a query of join rows that loads their account ids, as the loaders' queries do |
| SelectionLaws.NodesAlike | backend/ent/account_query.go:858-880 | the ids, and the foreign keys the asked-for edges need, are loaded whatever is selected |
| DealingLaws.DealtIsPartition | backend/ent/account_query.go:785-844 | dealing neighbours out by id loses and duplicates none: the list lengths sum to the number of neighbours, even if node ids repeat |
| DealingLaws.UsageLogsArePartitioned | backend/ent/account_query.go:785-814 | every usage log a batch returns is on exactly one node, on any page |
| DealingLaws.ChildrenArePartitioned | backend/ent/account_query.go:752-784 | every child a batch returns is on exactly one node, its nullable key never being null |
| DealingLaws.MembersArePartitioned | backend/ent/account_query.go:815-844 | every join row a batch returns is on exactly one node |
| PagingLaws.LogPageExact | backend/ent/account_query.go:785-814 | whatever limit and offset the usage logs carry: every node gets the page of its own logs exactly if the page skips everything, cuts off nothing, or one node's logs fill it up to its end and no other node has more logs than are skipped |
| PagingLaws.ChildPageExact | backend/ent/account_query.go:752-784 | the same exact condition for children, each with its subtree |
| PagingLaws.LimitStarves | backend/ent/account_query.go:785-814 | a concrete database in which a limit of two leaves the second account without the log it would get alone |
| PagedEdges.MemberPageExact | backend/ent/account_query.go:815-844 | the same condition is enough for join rows, and needed whenever their group ids are loaded |
| PagedEdges.GroupIdsTellRowsApart | backend/ent/account_query.go:815-844 | a concrete database and query without group ids in which a page that is not harmless gives an account another row than its own, which loads alike |
| PagedEdges.GroupPageExact | backend/ent/account_query.go:627-687 | the same exact condition, on the stream of joined rows, for every node's set of groups |
| PagedEdges.ProxyPageExact | backend/ent/account_query.go:688-719 | whatever limit and offset the proxies carry: every node gets the proxy it would get alone exactly if the page takes all rows the nodes' keys name, or none |
| PagedEdges.ParentPageExact | backend/ent/account_query.go:720-751 | the same for parents, each with its subtree |
| PagedEdges.MemberAccountPageExact | backend/ent/accountgroup_query.go:379-407 | the same for the accounts of join rows |
| PagedEdges.MemberGroupPageExact | backend/ent/accountgroup_query.go:408-436 | the same for the groups of join rows |
| PagingLaws.SingleNodePage | backend/ent/account_query.go:785-814 | a single node always gets its own page |
| GroupOrder.GroupsListedOnce | backend/ent/account_query.go:661-685 | no group is listed twice on a node |
| GroupOrder.GroupOrderExact | backend/ent/account_query.go:661-685 | a node's list of groups is the list it gets alone exactly if the whole stream shows every two of its groups first in the order in which its own rows do |
| GroupOrder.OrderedKeepsOrder | backend/ent/account_query.go:661-685 | it always is when the groups query is ordered by a key that tells groups apart |
| GroupOrder.GroupOrderDependsOnBatch | backend/ent/account_query.go:661-685 | a concrete database in which the second account's groups come in another order when the first is loaded with it |
| Builders.AccountQuery.Where | backend/ent/account_query.go:43-47 | the predicate is appended, nothing else of the plan changes |
| Builders.AccountQuery.Limit | backend/ent/account_query.go:49-53 | only the limit of the plan changes |
| Builders.AccountQuery.Select | backend/ent/account_query.go:511-517 | the columns are appended, nothing else of the plan changes |
| Builders.AccountQuery.WithChildren | backend/ent/account_query.go:445-453 | the plan gains the plan of a disjoint sub-builder for the children edge |
| Builders.AccountQuery.WithGroups | backend/ent/account_query.go:412-420 | the same for the groups edge |
| Builders.AccountQuery.WithAccountGroups | backend/ent/account_query.go:467-475 | the same for the account_groups edge |
| Builders.AccountGroupQuery.WithAccount | backend/ent/accountgroup_query.go:240-248 | the same for the account edge of join rows |
| Builders.AccountQuery.Clone | backend/ent/account_query.go:388-408 | a fresh tree of builders with an equal plan at every depth; the original is untouched; nil stays nil |
| Builders.AccountGroupQuery.Clone | backend/ent/accountgroup_query.go:220-236 | the same for join-row queries |
| BuilderRuns.Diverge | backend/ent/account_query.go:388-408 | after Clone, any interleaving of builder calls on the two trees, including all six With calls with options of their own, leaves each meaning what its own calls alone would make of it |
| BuilderRuns.DivergeMembers | backend/ent/accountgroup_query.go:220-236 | the same for join-row queries |
| EagerLoading.PrepareQuery | backend/ent/account_query.go:524-548 | the traversers' predicates are added behind the builder's own, each once and in slot order, so that a row is kept exactly if all of them keep it; a nil interceptor or an unknown column is an error, the interceptor first, and nothing else is |
| EagerLoading.AccountSpecColumns | backend/ent/account_query.go:858-880 | with a selection: the id first and once, then the selection, then the foreign keys the loaded edges need, and nothing else |
| EagerLoading.IndexByForeignKey | backend/ent/account_query.go:688-706 | the fetched ids are the non-nil keys, each once in order of appearance, and each key's bucket is the nodes that carry it |
| EagerLoading.LoadProxy | backend/ent/account_query.go:688-719 | every node gets its batched proxy; an accepted sub-query cannot fail |
| EagerLoading.LoadGroups | backend/ent/account_query.go:627-687 | every node's group list is the first-appearance list restricted to it, whatever order the node sets are visited in; equal ids share one object; the unexpected-node error cannot occur |
| EagerLoading.LoadParent | backend/ent/account_query.go:720-751 | every node points at its batched parent, or at none; the unexpected-key error cannot occur |
| EagerLoading.LoadChildren | backend/ent/account_query.go:752-784 | every node lists its batched children; neither the nil-key nor the unexpected-key error can occur, whatever columns are selected |
| EagerLoading.LoadUsageLogs | backend/ent/account_query.go:785-814 | every node lists its batched usage logs |
| EagerLoading.LoadAccountGroups | backend/ent/account_query.go:815-844 | every node lists its batched join rows |
| EagerLoading.LoadMemberAccount | backend/ent/accountgroup_query.go:379-407 | every join row points at its batched account |
| EagerLoading.LoadMemberGroup | backend/ent/accountgroup_query.go:408-436 | every join row points at its batched group |
| EagerLoading.AllAccountGroups | backend/ent/accountgroup_query.go:334-377 | the object graph of a join-row query is the batched one, freshly allocated; its nodes hold what was asked for of the accepted rows |
| EagerLoading.AllAccounts | backend/ent/account_query.go:550-625 | the object graph of an account query, at every depth, is the batched one, freshly allocated; its nodes hold what was asked for of the accepted rows; the recursion ends with the tree of sub-queries |
| Queries.All | backend/ent/account_query.go:307-314 | end to end: one node per accepted row of the page, holding the columns asked for; with unpaged sub-queries the returned graph is the relational join of the builder's tree, and the one its settings describe |
| Queries.First | backend/ent/account_query.go:208-217 | NotFound exactly if nothing matches, otherwise the first match with its graph; the builder keeps limit 1 |
| Queries.Only | backend/ent/account_query.go:254-267 | NotFound, NotSingular or the node, exactly by the number of matches, whatever limit the builder had; it keeps limit 2 |
| Queries.AccessorsReadTheJoin | backend/ent/account.go:109-165 | all six accessors: NotLoaded exactly for the edges not asked for, otherwise the row's join, a missing single neighbour being NotFound |
| CreateChecks.CheckExact | backend/ent/account_create.go:588-662 | check passes just if every rule holds, and otherwise names the first rule that fails |
| CreateChecks.RulesMean | backend/ent/account_create.go:588-662 | the rules hold exactly if all fourteen required fields are set and none of the six validators refuses the value of its field |
| CreateChecks.CheckFields | backend/ent/account_create.go:588-662 | check field by field agrees with the rules; an error names a field that is missing, or one whose validator refuses it |
| BulkCreate.ApplyDefaults | backend/ent/account_create.go:527-585 | unset fields get their defaults in order; it fails exactly if a default is missing for a field that is not set |
| CreateChecks.IgnoredDefaultsErrorSurfaces | backend/ent/account_create.go:527-537 | the error Save ignores is never lost: whenever defaults fails, so does the check |
| CreateChecks.DefaultedSets | backend/ent/account_create.go:527-585 | with all defaults initialized, every defaulted field is set afterwards |
| CreateChecks.DefaultedKeeps | backend/ent/account_create.go:527-585 | a field that is set keeps its value |
| CreateChecks.DefaultsMean | backend/ent/account_create.go:527-585 | the eleven fields that have a default, by name, are filled with it if they are unset; no other field is touched |
| BulkCreate.WrapHooks | backend/ent/account_create.go:2140-2142 | the backwards loop builds hooks[0](hooks[1](... core)) for every hook list |
| BulkCreate.Mutate | backend/ent/account_create.go:2109-2139 | running the chain from any link and hook on: one batch or none, what is committed, and the calls made, whatever the outcome |
| BulkCreate.BatchCreate | backend/ent/account_create.go:2123-2131 | one batch with the specs of all links in order; id slots are filled only on success |
| BulkCreate.Save | backend/ent/account_create.go:2095-2152 | a prior error is returned at once; otherwise the checked links decide one batch or none, every spec of a batch has all required fields and no value its validator refuses, each mutation is committed with its id or left as it was, the nodes are returned only on success, and the calls made are determined whether it succeeds or fails |
| BulkCreate.DescendExact | backend/ent/account_create.go:2109-2122 | the i-th spec is builder i's own; the first builder whose hooks or check reject decides the error |
| BulkCreate.PassExact | backend/ent/account_create.go:2103-2121 | one builder: its mutation goes through the hooks' edits in order until one rejects it, and past the last hook the builder passes exactly if no required field is missing and no validator refuses |
| BulkCreate.InnermostHook | backend/ent/account_create.go:2140-2142 | of the hooks that turn a success into an error, the innermost decides which error |
| BulkCreate.InnermostLink | backend/ent/account_create.go:2132-2139 | and of the builders, the last one in the chain |
| BulkCreate.AllOrNothing | backend/ent/account_create.go:2123-2150 | on success every mutation is done with its id; on error none is touched, exactly if no hook spoils a successful insert |
| BulkCreate.SpoiledSave | backend/ent/account_create.go:2123-2150 | the failing case: a hook that reports an error after the insert leaves the row inserted and the mutation done |
| BulkCreate.ForwardingNeverSpoils | backend/ent/account_create.go:2140-2142 | a hook list lets every success through exactly if each hook forwards |
| BulkCreate.CallsOfSuccess | backend/ent/account_create.go:2095-2152 | the calls of a success enter builder by builder and hook by hook, insert once, and return in exactly the reverse order, every link committing on the way |
| BulkCreate.CallsOfFailure | backend/ent/account_create.go:2095-2152 | a failure on the way in, or of the insert: the calls enter as far as they get, insert only if every link passes, and the hooks entered return in reverse with nothing committed |
| BulkCreate.NoLaterBuilder | backend/ent/account_create.go:2109-2122 | behind a builder whose hooks or check reject, no builder is entered or checked |
| AccountFields.HoldersAccepted | backend/ent/account.go:168-417 | for every column list, no allocated holder is refused on assignment; listed columns hold the row's value, all others their zero; what is no field is kept as a selected value |
| AccountFields.ZeroExact | backend/ent/account.go:18-88 | a field that is a pointer or a map starts as nil, every other as the zero of its kind |
| AccountFields.AccountStruct.AssignValues | backend/ent/account.go:195-417 | columns are assigned in order up to the first error; too few values change nothing |
| AccountFields.CreateSpec | backend/ent/account_create.go:682-891 | every field the mutation holds reaches the node with its value and the spec with its value and type, once, and nothing else does; the two foreign keys come from the edges |
| AccountFields.ColumnTypes | backend/ent/account_create.go:682-810 | which columns each field type is named for |
| AccountFields.LoadRow | backend/ent/account.go:168-417 | scanValues, the driver's scan and assignValues in a row: a stored row is never refused and comes back column by column |
| AccountFields.RowRoundTrip | backend/ent/account_create.go:682-891 | reading back the row createSpec describes, with any column list, gives what the mutation was set to, column by column, a document exactly if it survives being encoded and decoded |
| EdgeUpdate.ManyEdge.RemoveIDs | backend/ent/mutation.go:3899-3908 | removed ids leave the added set and join the removed set |
| EdgeUpdate.ManyEdge.Edges | backend/ent/account_update.go:949-1005 | the clear and add specs, applied to any neighbours, give the mutation's effect |
| EdgeUpdate.SavedIsInTurn | backend/ent/mutation.go:3879-3930 | for every run of calls, saving gives what the calls in turn would give plus the stale adds, which are disjoint from it |
| EdgeUpdate.StaleExact | backend/ent/mutation.go:3879-3930 | an id is stale exactly if an add of it is followed by a clear and by no further mention |
| EdgeUpdate.UpdateExact | backend/ent/account_update.go:949-1005 | an update does what its calls say in turn exactly if no add is followed by a clear that it survives |
| EdgeUpdate.AddThenClear | backend/ent/mutation.go:3879-3896 | the concrete run: add a group, clear the groups, and the group is still there |
| EdgeUpdate.UniqueEdge.Edges | backend/ent/account_update.go:1006-1036 | the specs of a unique edge, applied to any key, give the mutation's effect |
| EdgeUpdate.RunExact | backend/ent/mutation.go:3933-3957 | what a run of calls leaves set or cleared, told from the calls: a set with no clear of the field or reset behind it, a clear with no reset of its kind behind it |
| EdgeUpdate.UniqueUpdateExact | backend/ent/mutation.go:3933-3957 | for a unique edge and every run of calls, saving agrees with the calls in turn for every stored key exactly if the last call is not undone by what the earlier ones left standing: a set before a clear of the edge, a clear of the edge before a reset of the field, any clear of the field before a reset of the edge |
| EdgeUpdate.ClearAndResetFail | backend/ent/mutation.go:3933-3957 | the concrete runs: set and clear the edge, and the key is still set; clear and reset, and the key is still cleared |
| ExceptionRecords.WholeStep | tools/check_pnpm_audit_exceptions.py:27-45 | one line's effect on the open record and the finished ones, against the definition by blocks |
| ExceptionRecords.FailsWithoutColon | tools/check_pnpm_audit_exceptions.py:34-42 | parsing fails exactly if some record-opening line has no colon |
| ExceptionRecords.OneRecordPerOpening | tools/check_pnpm_audit_exceptions.py:34-48 | otherwise there is one non-empty record per opening line: none lost, none merged |
| ExceptionRecords.FilledLookup | tools/check_pnpm_audit_exceptions.py:43-45 | a key's value is the one on the last line of its block that sets it |
| ExceptionRecords.NothingIsNeutral | tools/check_pnpm_audit_exceptions.py:30-33 | blank, comment and header lines can be left out anywhere without effect |
| ExceptionFile.PlainValues | tools/check_pnpm_audit_exceptions.py:15-20 | a value stands for itself exactly if it is trimmed and not enclosed in quotes; a lone quote is empty |
| ExceptionFile.ColonAfter | tools/check_pnpm_audit_exceptions.py:14 | the line is split at the first colon, whatever follows |
| ExceptionFile.StripPadded | tools/check_pnpm_audit_exceptions.py:29 | stripping removes exactly the blank ends |
| ExceptionFile.DashHasText | tools/check_pnpm_audit_exceptions.py:34-41 | a line that opens a record always has text behind its dash |
| ExceptionFile.OpensExactly | tools/check_pnpm_audit_exceptions.py:29-34 | a line opens a record exactly if, stripped, it starts with a dash and a space |
| ExceptionFile.LineExact | tools/check_pnpm_audit_exceptions.py:27-45 | what each line is for: blank, comment and header lines and lines without a colon for nothing, other lines for a key at their first colon, or for a new record |
| ExceptionFile.BareDashMerges | tools/check_pnpm_audit_exceptions.py:34 | a dash alone can be left out of any file: the lines behind it go to the record before |
| ExceptionFile.ParseExceptions | tools/check_pnpm_audit_exceptions.py:23-48 | the parser loop computes the records by blocks, or fails |
| ExceptionFile.RoundTrip | tools/check_pnpm_audit_exceptions.py:12-48 | printing any list of non-empty records to a text file, splitting it into lines and parsing gives the same records in order |
| AuditGate.CollectVia | tools/check_pnpm_audit_exceptions.py:85-110 | the identifiers collected from `via`, and when joining the titles raises |
| AuditGate.IterVulns | tools/check_pnpm_audit_exceptions.py:64-111 | everything yielded, advisories first, or that an exception is raised |
| AuditGate.YieldsPerIdentifier | tools/check_pnpm_audit_exceptions.py:81-111 | a vulnerability yields nothing exactly if no element of `via` identifies anything |
| AuditEntries.AdvisoryYields | tools/check_pnpm_audit_exceptions.py:51-79 | an advisory yields one entry: module_name or else name, its severity, and the first truthy of seven identifiers in order; it raises exactly if it gets to cves that have no first element |
| AuditEntries.VulnerabilityYields | tools/check_pnpm_audit_exceptions.py:81-111 | a vulnerability yields one entry, under its own name and severity, per element of `via` that identifies something, in order; it raises exactly if a title is no string |
| AuditEntries.IdentifierExact | tools/check_pnpm_audit_exceptions.py:88-105 | an element of `via` identifies itself if it is a string, and if it is an object the first truthy of five members |
| AuditEntries.YieldedExact | tools/check_pnpm_audit_exceptions.py:64-111 | a report yields its advisories' entries and then its vulnerabilities', in order, and raises exactly if one of them does or it is no object |
| AuditEntries.UsableExact | tools/check_pnpm_audit_exceptions.py:156-174 | an exception is accepted exactly if its five fields are filled, its date can be read, and package and advisory are not blank |
| AuditEntries.RelevantExact | tools/check_pnpm_audit_exceptions.py:193-196 | a finding is looked at exactly if it has a name and its severity, stripped and in lower case, is high or critical |
| AuditEntries.KeyExact | tools/check_pnpm_audit_exceptions.py:118-131 | findings are keyed by the stripped name and the stripped advisory in lower case, numbers as text |
| AuditEntries.CoversExact | tools/check_pnpm_audit_exceptions.py:203-219 | an exception covers a finding exactly if package and advisory agree so, its severity agrees or is blank, and its last day has not passed |
| AuditGate.Index | tools/check_pnpm_audit_exceptions.py:156-185 | the index, and conservation: entries plus errors are the exceptions |
| AuditGate.ExamineExact | tools/check_pnpm_audit_exceptions.py:157-174 | an exception gets as far as the index exactly if it is complete, dated and has a key left after normalizing |
| AuditGate.IndexKeys | tools/check_pnpm_audit_exceptions.py:175-185 | a key is in the index exactly if a usable exception has it |
| AuditGate.IndexRules | tools/check_pnpm_audit_exceptions.py:175-185 | the first usable exception of a key decides its rule |
| AuditGate.IndexFull | tools/check_pnpm_audit_exceptions.py:175-185 | there are no errors exactly if all exceptions are usable and no key repeats |
| AuditGate.Scan | tools/check_pnpm_audit_exceptions.py:192-219 | the scan's three lists, from the first entry of each key; it raises exactly if some severity cannot be read |
| AuditLaws.MissingExact | tools/check_pnpm_audit_exceptions.py:203-210 | the missing reports are exactly the keys looked up without a rule, one report each |
| AuditLaws.ExpiredExact | tools/check_pnpm_audit_exceptions.py:211-219 | the expired reports are exactly the keys looked up whose rule has run out, one report each |
| AuditLaws.OrderIndependent | tools/check_pnpm_audit_exceptions.py:192-219 | for every permutation of the entries the same missing and expired keys are reported, equally often |
| AuditLaws.NothingReported | tools/check_pnpm_audit_exceptions.py:192-236 | the scan reports nothing exactly if every relevant entry has an advisory and the first one of each key is excused |
| AuditLaws.CleanScan | tools/check_pnpm_audit_exceptions.py:192-236 | the same in terms of the exceptions themselves instead of the index |
| AuditLaws.OrderBounds | tools/check_pnpm_audit_exceptions.py:204-215 | in any order a cover per finding is enough, and a cover per key is needed |
| AuditLaws.BestOrder | tools/check_pnpm_audit_exceptions.py:204-215 | some permutation passes exactly if every key has a covered finding |
| AuditLaws.WorstOrder | tools/check_pnpm_audit_exceptions.py:204-215 | every permutation passes exactly if every finding is covered: a permutation attains it |
| AuditLaws.OrderIrrelevant | tools/check_pnpm_audit_exceptions.py:204-215 | the verdict is the same for all permutations exactly if a cover per key means a cover per finding |
| AuditLaws.EqualSeverities | tools/check_pnpm_audit_exceptions.py:211-215 | so it is when equal keys carry equal severities |
| AuditLaws.OrderDecides | tools/check_pnpm_audit_exceptions.py:204-215 | two entries with one key and different severities pass in one order and fail in the other |
| AuditExamples.OrderDecidesHere | tools/check_pnpm_audit_exceptions.py:204-215 | the same on a concrete exception and report |
| AuditLaws.BlankSeverityFitsAll | tools/check_pnpm_audit_exceptions.py:211-215 | an exception that has not run out covers every finding with its key exactly if its severity is empty after normalizing, that is, blank |
| AuditExamples.BlankSeverityPasses | tools/check_pnpm_audit_exceptions.py:142-243 | the gate passes a concrete critical report on an exception file whose severity is a quoted space |
| AuditExamples.NamelessPasses | tools/check_pnpm_audit_exceptions.py:81-243 | the gate passes a concrete report of a critical vulnerability whose `via` is one empty object, without any exception |
| AuditExamples.LodashStops | tools/check_pnpm_audit_exceptions.py:64-243 | the gate stops a concrete report of a critical advisory named by module_name without an exception |
| AuditMain.Audit | tools/check_pnpm_audit_exceptions.py:142-243 | the exit code is 0 exactly if the exceptions parse, are complete, dated, non-empty and unique by key, and every first high or critical finding is covered by a fitting exception that has not expired; otherwise it is 1 |

## Left out

- SQL generation, drivers, transactions, locks and the graph library: their results are the assumptions above.
- Group, proxy and usage-log queries below the loaded edge: generated copies of the account query; the three tables share one row type without edges of their own.
- Other entities (announcements, API keys, identities and the rest): generated copies that would repeat the same claims.
- Path and traversal queries, DISTINCT, modifiers, GroupBy, Count, Exist, IDs and the X methods: single statements or forwarding.
- Execution works on the value of the builder's plan: the predicates and foreign-key fields that loaders leave behind in sub-builders, and running one builder twice, are not modelled.
- Interceptors other than traversers are the identity; a traverser adds one predicate and does not fail.
- JoinTheorem.BatchIsJoin: says nothing of plans with a limit or offset on a sub-query, for which the claim is false; PagingLaws and PagedEdges state exactly when each edge is still the node's own.
- Slices are values: the backing arrays two slices may share are not modelled.
- Builders.AccountQuery.Clone: modifiers are not copied by the code, and the path closure and configuration are shared, so both are outside the plan.
- PagedEdges.MemberPageExact: that the condition is needed is not claimed when neither the group ids nor the group edge of the join rows is asked for, because one node's rows can then load alike (PagedEdges.GroupIdsTellRowsApart).
- PagedEdges.GroupPageExact: compares sets of groups; the order of a page of groups is not treated. Each of the paging laws takes the sub-queries below the paged one to be unpaged.
- BulkCreate.Save: a hook edits the mutation or rejects it, calls next at most once with that mutation, and answers with next's result or an error of its own; a hook that repeats the call, that answers success without calling next or after next failed, and one mutation given to two builders are not modelled. BulkCreate.AllOrNothing is a claim about such hooks only. Specs hold fields only; their edges are in AccountFields.CreateSpec.
- Conflict options of upserts, and the field setters.
- AccountFields.CreateSpec: the generated statements column by column are a loop over the list of columns; edges other than the two foreign keys are left out.
- EdgeUpdate: updating several accounts at once, foreign keys that children take over from another parent, and the numeric field updates.
- AuditMain.Audit: reading files, decoding JSON and arguments are inputs; message texts and the order of the joined message lines are not modelled; a generator that raises half-way is taken to raise before the scan, which ends with the same exit code.
- String functions: lower-casing, rendering of values that are not strings, and date parsing are parameters; only strip is spelled out.

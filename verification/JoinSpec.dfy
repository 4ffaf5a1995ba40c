/**
 Eager loading on values: the object graph below an account, and the batched evaluation of a plan. One statement is
 run per `with*` sub-query for the whole list of nodes, and the answers are dealt out through an index.
 */
module JoinSpec {
  import opened Collections
  import opened Schema
  import opened QueryPlan

  /**
   The object graph below one account. The outer Option of an edge is its loadedTypes flag. The groups
   edge is a set: the order of the groups depends on the whole batch (module GroupOrder).
   */
  datatype AccountTree = AccountTree(
    row: AccountRow, groups: Option<set<LeafRow>>, proxy: Option<Option<LeafRow>>, parent: Option<Option<AccountTree>>,
    children: Option<seq<AccountTree>>, usageLogs: Option<seq<LeafRow>>, accountGroups: Option<seq<AccountGroupTree>>)

  datatype AccountGroupTree = AccountGroupTree(
    row: AccountGroupRow, account: Option<Option<AccountTree>>, group: Option<Option<LeafRow>>)

  ghost function TreeIds(trees: seq<AccountTree>): (r: seq<int>)
    ensures |r| == |trees|
    ensures forall i :: 0 <= i < |trees| ==> r[i] == trees[i].row.id
  {
    seq(|trees|, i requires 0 <= i < |trees| => trees[i].row.id)
  }

  ghost function TreeParents(trees: seq<AccountTree>): (r: seq<Option<int>>)
    ensures |r| == |trees|
    ensures forall i :: 0 <= i < |trees| ==> r[i] == trees[i].row.parentId
  {
    seq(|trees|, i requires 0 <= i < |trees| => trees[i].row.parentId)
  }

  ghost function TreeMembers(trees: seq<AccountGroupTree>): (r: seq<int>)
    ensures |r| == |trees|
    ensures forall i :: 0 <= i < |trees| ==> r[i] == trees[i].row.accountId
  {
    seq(|trees|, i requires 0 <= i < |trees| => trees[i].row.accountId)
  }

  // ----- the joined stream behind the groups edge

  function PairsFor(accountId: int, groupId: int, groups: seq<LeafRow>): (r: seq<Pair>)
    ensures forall p :: p in r <==> p.owner == accountId && p.group.id == groupId && p.group in groups
  {
    if groups == [] then []
    else
      var n := |groups| - 1;
      assert groups == groups[..n] + [groups[n]];
      PairsFor(accountId, groupId, groups[..n]) + (if groups[n].id == groupId then [Pair(accountId, groups[n])] else [])
  }

  ghost predicate Related(members: seq<AccountGroupRow>, accountId: int, groupId: int) {
    exists m :: m in members && m.accountId == accountId && m.groupId == groupId
  }

  /** groups JOIN account_groups ON groups.id = account_groups.group_id, as (account id, group) pairs. */
  function JoinedPairs(members: seq<AccountGroupRow>, groups: seq<LeafRow>): (r: seq<Pair>)
    ensures forall p :: p in r <==> p.group in groups && Related(members, p.owner, p.group.id)
  {
    if members == [] then []
    else
      var n := |members| - 1;
      assert members == members[..n] + [members[n]];
      var before := JoinedPairs(members[..n], groups);
      var r := before + PairsFor(members[n].accountId, members[n].groupId, groups);
      assert forall p: Pair :: Related(members, p.owner, p.group.id) <==>
               Related(members[..n], p.owner, p.group.id) || (p.owner == members[n].accountId && p.group.id == members[n].groupId);
      r
  }

  function WherePairs(pairs: seq<Pair>, preds: seq<LeafRow -> bool>, ids: seq<int>): (r: seq<Pair>)
    ensures forall p :: p in r <==> p in pairs && p.owner in ids && All(preds, p.group)
  {
    if pairs == [] then []
    else
      var n := |pairs| - 1;
      assert pairs == pairs[..n] + [pairs[n]];
      WherePairs(pairs[..n], preds, ids) + (if pairs[n].owner in ids && All(preds, pairs[n].group) then [pairs[n]] else [])
  }

  /** The rows of the one statement loadGroups runs; a group appears once per related node. */
  function Stream(db: Db, s: Settings<LeafRow>, ids: seq<int>): seq<Pair> {
    Page(WherePairs(s.joined(JoinedPairs(db.accountGroups.rows, db.groups.rows)), s.preds, ids), s.limit, s.offset)
  }

  /** The first row of each group, in order of first appearance in the stream. */
  ghost function FirstRows(stream: seq<Pair>): seq<LeafRow> {
    if stream == [] then []
    else
      var n := |stream| - 1;
      var before := FirstRows(stream[..n]);
      if stream[n].group.id in LeafIds(before) then before else before + [stream[n].group]
  }

  lemma {:induction false} FirstRowsDistinct(stream: seq<Pair>)
    ensures Distinct(LeafIds(FirstRows(stream)))
  {
    if stream != [] {
      var n := |stream| - 1;
      FirstRowsDistinct(stream[..n]);
      FirstRowsStep(stream, n);
      assert stream[..n + 1] == stream;
    }
  }

  /** FirstRows lists every group of the stream, and nothing else. */
  lemma {:induction false} FirstRowsComplete(stream: seq<Pair>)
    ensures forall g :: g in FirstRows(stream) ==> exists p :: p in stream && p.group == g
    ensures forall p :: p in stream ==> p.group.id in LeafIds(FirstRows(stream))
  {
    if stream != [] {
      var n := |stream| - 1;
      assert stream == stream[..n] + [stream[n]];
      FirstRowsComplete(stream[..n]);
      FirstRowsStep(stream, n);
    }
  }

  lemma FirstRowsStep(stream: seq<Pair>, i: nat)
    requires i < |stream|
    ensures var before := FirstRows(stream[..i]);
            && FirstRows(stream[..i + 1]) == (if stream[i].group.id in LeafIds(before) then before else before + [stream[i].group])
            && LeafIds(before + [stream[i].group]) == LeafIds(before) + [stream[i].group.id]
  {
    assert stream[..i + 1][..i] == stream[..i];
  }

  ghost predicate Linked(stream: seq<Pair>, accountId: int, groupId: int) {
    exists p :: p in stream && p.owner == accountId && p.group.id == groupId
  }

  ghost function LinkedKeys(stream: seq<Pair>, gids: seq<int>, accountId: int): (r: seq<bool>)
    ensures |r| == |gids|
    ensures forall j :: 0 <= j < |gids| ==> r[j] == Linked(stream, accountId, gids[j])
  {
    seq(|gids|, j requires 0 <= j < |gids| => Linked(stream, accountId, gids[j]))
  }

  // ----- batched evaluation

  ghost function BatchLeaves(table: Table<LeafRow>, s: Settings<LeafRow>): seq<LeafRow> {
    LoadLeaves(LeafColumns(s.fields, table.columns), Fetch(table.rows, Prepared(s)))
  }

  ghost function BatchAccounts(db: Db, q: AccountPlan): seq<AccountTree>
    decreases q.w, 3
  {
    BatchNodes(db, q.w, AccountNodes(db, q))
  }

  /** The nodes a query returns, before any edge is loaded. */
  ghost function AccountNodes(db: Db, q: AccountPlan): seq<AccountRow> {
    LoadAccounts(AccountColumns(q.s.fields, db.accounts.columns, q.w.proxy.Some?, q.w.parent.Some?),
                 Fetch(db.accounts.rows, Prepared(q.s)))
  }

  ghost function BatchNodes(db: Db, w: AccountWith, nodes: seq<AccountRow>): (r: seq<AccountTree>)
    ensures |r| == |nodes|
    ensures forall i :: 0 <= i < |nodes| ==> r[i] == BatchNode(db, w, nodes, i)
    decreases w, 2
  {
    seq(|nodes|, i requires 0 <= i < |nodes| => BatchNode(db, w, nodes, i))
  }

  ghost function BatchNode(db: Db, w: AccountWith, nodes: seq<AccountRow>, i: nat): (r: AccountTree)
    requires i < |nodes|
    ensures r.row == nodes[i]
    decreases w, 1
  {
    AccountTree(nodes[i],
                if w.groups.None? then None else Some(BatchGroups(db, w.groups.value, nodes, i)),
                if w.proxy.None? then None else Some(BatchProxy(db, w.proxy.value, nodes, i)),
                if w.parent.None? then None else Some(BatchParent(db, w.parent.value, nodes, i)),
                if w.children.None? then None else Some(BatchChildren(db, w.children.value, nodes, i)),
                if w.usageLogs.None? then None else Some(BatchUsageLogs(db, w.usageLogs.value, nodes, i)),
                if w.accountGroups.None? then None else Some(BatchMembers(db, w.accountGroups.value, nodes, i)))
  }

  ghost function BatchGroups(db: Db, s: Settings<LeafRow>, nodes: seq<AccountRow>, i: nat): set<LeafRow>
    requires i < |nodes|
  {
    set g | g in BatchGroupList(db, s, nodes, i)
  }

  /** The groups of one node in order: first appearance in the whole stream, restricted to the node's own. */
  ghost function BatchGroupList(db: Db, s: Settings<LeafRow>, nodes: seq<AccountRow>, i: nat): seq<LeafRow>
    requires i < |nodes|
  {
    var ids := AccountIds(nodes);
    var stream := Stream(db, Prepared(s), ids);
    var groups := LoadLeaves(LeafColumns(s.fields, db.groups.columns), FirstRows(stream));
    if LastOccurrence(ids, i) then Pick(LinkedKeys(stream, LeafIds(groups), ids[i]), groups, true) else []
  }

  ghost function BatchProxy(db: Db, s: Settings<LeafRow>, nodes: seq<AccountRow>, i: nat): Option<LeafRow>
    requires i < |nodes|
  {
    var proxies := BatchLeaves(db.proxies, Constrain(s, LeafIdIn(FirstKeys(ProxyIds(nodes)))));
    OneOf(LeafIds(proxies), proxies, nodes[i].proxyId)
  }

  ghost function BatchParent(db: Db, q: AccountPlan, nodes: seq<AccountRow>, i: nat): Option<AccountTree>
    requires i < |nodes|
    decreases q.w, 4
  {
    var parents := BatchAccounts(db, q.(s := Constrain(q.s, AccountIdIn(FirstKeys(ParentIds(nodes))))));
    OneOf(TreeIds(parents), parents, nodes[i].parentId)
  }

  /** The children query, its foreign key selected and constrained to the nodes. */
  ghost function ChildrenOf(q: AccountPlan, ids: seq<int>): AccountPlan {
    q.(s := Constrain(q.s.(fields := WithField(q.s.fields, ParentAccountId)), ParentIdIn(ids)))
  }

  ghost function BatchChildren(db: Db, q: AccountPlan, nodes: seq<AccountRow>, i: nat): seq<AccountTree>
    requires i < |nodes|
    decreases q.w, 4
  {
    var ids := AccountIds(nodes);
    var children := BatchAccounts(db, ChildrenOf(q, ids));
    DealtSome(TreeParents(children), children, ids, i)
  }

  ghost function UsageLogsOf(s: Settings<LeafRow>, ids: seq<int>): Settings<LeafRow> {
    Constrain(s.(fields := WithField(s.fields, AccountId)), OwnerIdIn(ids))
  }

  ghost function BatchUsageLogs(db: Db, s: Settings<LeafRow>, nodes: seq<AccountRow>, i: nat): seq<LeafRow>
    requires i < |nodes|
  {
    var ids := AccountIds(nodes);
    var logs := BatchLeaves(db.usageLogs, UsageLogsOf(s, ids));
    Dealt(OwnerIds(logs), logs, ids, i)
  }

  ghost function MembersOf(q: AccountGroupPlan, ids: seq<int>): AccountGroupPlan {
    q.(s := Constrain(q.s.(fields := WithField(q.s.fields, AccountId)), MemberIdIn(ids)))
  }

  ghost function BatchMembers(db: Db, q: AccountGroupPlan, nodes: seq<AccountRow>, i: nat): seq<AccountGroupTree>
    requires i < |nodes|
    decreases q.w, 4
  {
    var ids := AccountIds(nodes);
    var members := BatchAccountGroups(db, MembersOf(q, ids));
    Dealt(TreeMembers(members), members, ids, i)
  }

  ghost function AccountGroupNodes(db: Db, q: AccountGroupPlan): seq<AccountGroupRow> {
    LoadAccountGroups(AccountGroupColumns(q.s.fields, db.accountGroups.columns, q.w.account.Some?, q.w.group.Some?),
                      Fetch(db.accountGroups.rows, Prepared(q.s)))
  }

  ghost function BatchAccountGroups(db: Db, q: AccountGroupPlan): (r: seq<AccountGroupTree>)
    ensures var nodes := AccountGroupNodes(db, q);
            |r| == |nodes| && forall i :: 0 <= i < |nodes| ==> r[i] == BatchAccountGroup(db, q.w, nodes, i)
    decreases q.w, 3
  {
    var nodes := AccountGroupNodes(db, q);
    seq(|nodes|, i requires 0 <= i < |nodes| => BatchAccountGroup(db, q.w, nodes, i))
  }

  ghost function BatchAccountGroup(db: Db, w: AccountGroupWith, nodes: seq<AccountGroupRow>, i: nat): (r: AccountGroupTree)
    requires i < |nodes|
    ensures r.row == nodes[i]
    decreases w, 2
  {
    AccountGroupTree(nodes[i],
                     if w.account.None? then None else Some(BatchMemberAccount(db, w.account.value, nodes, i)),
                     if w.group.None? then None else Some(BatchMemberGroup(db, w.group.value, nodes, i)))
  }

  ghost function BatchMemberAccount(db: Db, q: AccountPlan, nodes: seq<AccountGroupRow>, i: nat): Option<AccountTree>
    requires i < |nodes|
    decreases q.w, 4
  {
    var accounts := BatchAccounts(db, q.(s := Constrain(q.s, AccountIdIn(FirstKeys(MemberKeys(nodes))))));
    OneOf(TreeIds(accounts), accounts, Some(nodes[i].accountId))
  }

  ghost function BatchMemberGroup(db: Db, s: Settings<LeafRow>, nodes: seq<AccountGroupRow>, i: nat): Option<LeafRow>
    requires i < |nodes|
  {
    var groups := BatchLeaves(db.groups, Constrain(s, LeafIdIn(FirstKeys(GroupKeys(nodes)))));
    OneOf(LeafIds(groups), groups, Some(nodes[i].groupId))
  }
}

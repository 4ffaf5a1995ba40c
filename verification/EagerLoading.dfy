/**
 Eager loading as it happens: nodes are allocated, indexed in maps keyed by id or foreign key, and their
 edges assigned in place. The result of AllAccounts is an object graph whose tree is BatchAccounts.
 */
module EagerLoading {
  import opened Collections
  import opened Schema
  import opened QueryPlan
  import opened JoinSpec
  import opened RowReading

  datatype Error =
    | UninitializedInterceptor
    | InvalidField(field: Column)
    | UnexpectedNode(id: int)
    | UnexpectedForeignKey(id: int)
    | NilForeignKey

  /** What prepareQuery can complain about; the other errors are those of the loaders. */
  predicate IsPrepareError(e: Error) {
    e.UninitializedInterceptor? || e.InvalidField?
  }

  // ----- nodes

  class Leaf {
    const row: LeafRow

    constructor (cols: seq<Column>, r: LeafRow)
      ensures row == LoadLeaf(cols, r)
    {
      row := LoadLeaf(cols, r);
    }
  }

  class Account {
    const row: AccountRow
    /** loadedTypes: the edges that were asked for. */
    const loaded: Loaded
    var groups: seq<Leaf>
    var proxy: Leaf?
    var parent: Account?
    var children: seq<Account>
    var usageLogs: seq<Leaf>
    var accountGroups: seq<AccountGroup>
    ghost var Repr: set<object>

    constructor (cols: seq<Column>, r: AccountRow, loaded: Loaded)
      ensures row == LoadAccount(cols, r) && this.loaded == loaded
      ensures groups == [] && proxy == null && parent == null && children == [] && usageLogs == [] && accountGroups == []
    {
      row, this.loaded := LoadAccount(cols, r), loaded;
      groups, proxy, parent, children, usageLogs, accountGroups := [], null, null, [], [], [];
      Repr := {this};
    }

    /** The nodes reachable from this one lie in Repr and do not lead back to it; an edge not asked for is absent. */
    ghost predicate Valid()
      reads this, Repr
      decreases Repr
    {
      && this in Repr
      && (!loaded.proxy ==> proxy == null) && (!loaded.parent ==> parent == null)
      && (parent != null ==> parent in Repr && parent.Repr <= Repr - {this} && parent.Valid())
      && (forall c :: c in children ==> c in Repr && c.Repr <= Repr - {this} && c.Valid())
      && (forall m :: m in accountGroups ==> m in Repr && m.Repr <= Repr - {this} && m.Valid())
    }

    ghost function Tree(): (t: AccountTree)
      requires Valid()
      reads this, Repr
      ensures t.row == row
      decreases Repr, 1
    {
      AccountTree(row,
                  if loaded.groups then Some(set g | g in groups :: g.row) else None,
                  if loaded.proxy then Some(LeafRowOf(proxy)) else None,
                  if loaded.parent then Some(if parent == null then None else Some(parent.Tree())) else None,
                  if loaded.children then Some(ChildTrees()) else None,
                  if loaded.usageLogs then Some(LeafRows(usageLogs)) else None,
                  if loaded.accountGroups then Some(MemberTrees()) else None)
    }

    ghost function ChildTrees(): (r: seq<AccountTree>)
      requires Valid()
      reads this, Repr
      ensures |r| == |children| && forall i :: 0 <= i < |r| ==> r[i] == children[i].Tree()
      decreases Repr, 0
    {
      seq(|children|, i requires 0 <= i < |children| && Valid() reads this, Repr => children[i].Tree())
    }

    ghost function MemberTrees(): (r: seq<AccountGroupTree>)
      requires Valid()
      reads this, Repr
      ensures |r| == |accountGroups| && forall i :: 0 <= i < |r| ==> r[i] == accountGroups[i].Tree()
      decreases Repr, 0
    {
      seq(|accountGroups|, i requires 0 <= i < |accountGroups| && Valid() reads this, Repr => accountGroups[i].Tree())
    }
  }

  datatype Loaded = Loaded(groups: bool, proxy: bool, parent: bool, children: bool, usageLogs: bool, accountGroups: bool)

  class AccountGroup {
    const row: AccountGroupRow
    const loadedAccount: bool
    const loadedGroup: bool
    var account: Account?
    var group: Leaf?
    ghost var Repr: set<object>

    constructor (cols: seq<Column>, r: AccountGroupRow, loadedAccount: bool, loadedGroup: bool)
      ensures row == LoadAccountGroup(cols, r) && this.loadedAccount == loadedAccount && this.loadedGroup == loadedGroup
      ensures account == null && group == null
    {
      row, this.loadedAccount, this.loadedGroup := LoadAccountGroup(cols, r), loadedAccount, loadedGroup;
      account, group := null, null;
      Repr := {this};
    }

    ghost predicate Valid()
      reads this, Repr
      decreases Repr
    {
      && this in Repr
      && (account != null ==> account in Repr && account.Repr <= Repr - {this} && account.Valid())
    }

    ghost function Tree(): (t: AccountGroupTree)
      requires Valid()
      reads this, Repr
      ensures t.row == row
      decreases Repr, 1
    {
      AccountGroupTree(row,
                       if loadedAccount then Some(if account == null then None else Some(account.Tree())) else None,
                       if loadedGroup then Some(LeafRowOf(group)) else None)
    }
  }

  function LeafRowOf(n: Leaf?): Option<LeafRow> {
    if n == null then None else Some(n.row)
  }

  function LeafRows(ns: seq<Leaf>): (r: seq<LeafRow>)
    ensures |r| == |ns|
    ensures forall i :: 0 <= i < |ns| ==> r[i] == ns[i].row
  {
    seq(|ns|, i requires 0 <= i < |ns| => ns[i].row)
  }

  function Rows(ns: seq<Account>): (r: seq<AccountRow>)
    ensures |r| == |ns|
    ensures forall i :: 0 <= i < |ns| ==> r[i] == ns[i].row
  {
    seq(|ns|, i requires 0 <= i < |ns| => ns[i].row)
  }

  function MemberRows(ns: seq<AccountGroup>): (r: seq<AccountGroupRow>)
    ensures |r| == |ns|
    ensures forall i :: 0 <= i < |ns| ==> r[i] == ns[i].row
  {
    seq(|ns|, i requires 0 <= i < |ns| => ns[i].row)
  }

  // ----- preparing a query

  /** Runs the interceptors in order (nil slots are an error, traversers add their predicate), then checks the fields. */
  method PrepareQuery<R>(s: Settings<R>, columns: seq<Column>) returns (r: Result<Settings<R>, Error>)
    ensures r.Ok? <==> Accepted(s, columns)
    ensures r.Ok? <==> (forall i :: 0 <= i < |s.inters| ==> !s.inters[i].Uninitialized?) && forall f :: f in s.fields ==> f in columns
    ensures r.Err? ==> IsPrepareError(r.error)
    ensures r.Err? && r.error.InvalidField? ==> Uninitialized !in s.inters && r.error.field in s.fields && r.error.field !in columns
    ensures r.Err? && !r.error.InvalidField? ==> Uninitialized in s.inters
    ensures r.Ok? ==> r.value == Prepared(s) == s.(preds := r.value.preds) && AddsTraversers(s, r.value.preds)
    ensures r.Ok? ==> forall row :: All(r.value.preds, row) <==> Accepts(s, row)
  {
    var preds := s.preds;
    var i := 0;
    while i < |s.inters|
      invariant 0 <= i <= |s.inters|
      invariant Uninitialized !in s.inters[..i]
      invariant preds == s.preds + Traversals(s.inters[..i])
    {
      assert s.inters[..i + 1][..i] == s.inters[..i];
      if s.inters[i].Uninitialized? {
        return Err(UninitializedInterceptor);
      }
      if s.inters[i].Traverser? {
        preds := preds + [s.inters[i].pred];
      }
      i := i + 1;
    }
    assert s.inters[..|s.inters|] == s.inters;
    for j := 0 to |s.fields|
      invariant forall f :: f in s.fields[..j] ==> f in columns
    {
      if s.fields[j] !in columns {
        return Err(InvalidField(s.fields[j]));
      }
    }
    TraversersAdded(s);
    PreparedExact(s);
    return Ok(s.(preds := preds));
  }

  /** ID first, then the selection without it. */
  method IdThenFields(fields: seq<Column>) returns (cols: seq<Column>)
    ensures cols == [Id] + WithoutId(fields)
  {
    cols := [Id];
    for i := 0 to |fields|
      invariant cols == [Id] + WithoutId(fields[..i])
    {
      assert fields[..i + 1][..i] == fields[..i];
      if fields[i] != Id {
        cols := cols + [fields[i]];
      }
    }
    assert fields[..|fields|] == fields;
  }

  /**
   The columns of an account query. With a selection: the id first and nowhere else, then everything selected in order,
   then the foreign keys the loaded edges need unless they are selected already; nothing else.
   */
  method AccountSpecColumns(fields: seq<Column>, all: seq<Column>, proxy: bool, parent: bool) returns (cols: seq<Column>)
    ensures cols == AccountColumns(fields, all, proxy, parent)
    ensures fields == [] ==> cols == all
    ensures fields != [] ==> cols != [] && cols[0] == Id && Id !in cols[1..]
    ensures fields != [] ==> forall x :: x in cols <==> x == Id || x in fields || (proxy && x == ProxyId) || (parent && x == ParentAccountId)
    ensures fields != [] ==> |WithoutId(fields)| < |cols| && cols[1..|WithoutId(fields)| + 1] == WithoutId(fields)
  {
    if fields == [] {
      return all;
    }
    cols := IdThenFields(fields);
    ghost var selected := WithoutId(fields);
    assert cols[1..] == selected && cols[1..|selected| + 1] == selected;
    if proxy {
      AddedBehind(cols, ProxyId, selected);
      cols := AddOnce(cols, ProxyId);
    }
    if parent {
      AddedBehind(cols, ParentAccountId, selected);
      cols := AddOnce(cols, ParentAccountId);
    }
  }

  /** A column added once goes behind the selection. */
  lemma AddedBehind(cols: seq<Column>, c: Column, selected: seq<Column>)
    requires c != Id && |selected| < |cols| && cols[0] == Id && Id !in cols[1..] && cols[1..|selected| + 1] == selected
    ensures var more := AddOnce(cols, c);
            |selected| < |more| && more[0] == Id && Id !in more[1..] && more[1..|selected| + 1] == selected
  {
    if c !in cols {
      assert (cols + [c])[1..] == cols[1..] + [c];
      assert (cols + [c])[1..|selected| + 1] == cols[1..|selected| + 1];
    }
  }

  method LeafSpecColumns(fields: seq<Column>, all: seq<Column>) returns (cols: seq<Column>)
    ensures cols == LeafColumns(fields, all)
  {
    if fields == [] {
      return all;
    }
    cols := IdThenFields(fields);
  }

  // ----- indexes over the nodes

  /**
   Groups the nodes by foreign key: `ids` lists the keys to fetch, each once in order of first
   appearance; `nodeids` keeps, per key, the nodes that carry it, in order. Nodes without a key are skipped.
   */
  method IndexByForeignKey<N>(nodes: seq<N>, fks: seq<Option<int>>) returns (ids: seq<int>, nodeids: map<int, seq<N>>)
    requires |fks| == |nodes|
    ensures ids == FirstKeys(fks)
    ensures nodeids.Keys == set k | k in ids
    ensures forall k :: k in nodeids ==> nodeids[k] == Pick(fks, nodes, Some(k))
  {
    ids, nodeids := [], map[];
    var i := 0;
    while i < |nodes|
      invariant 0 <= i <= |nodes|
      invariant ids == FirstKeys(fks[..i])
      invariant nodeids.Keys == set k | k in ids
      invariant forall k :: k in nodeids ==> nodeids[k] == Pick(fks[..i], nodes[..i], Some(k))
    {
      assert fks[..i + 1][..i] == fks[..i];
      forall k | k in nodeids || fks[i] == Some(k)
        ensures Pick(fks[..i + 1], nodes[..i + 1], Some(k)) == Pick(fks[..i], nodes[..i], Some(k)) + (if fks[i] == Some(k) then [nodes[i]] else [])
      {
        PickPrefix(fks, nodes, Some(k), i);
      }
      if fks[i].Some? {
        var fk := fks[i].value;
        if fk !in nodeids {
          PickAbsent(fks[..i], nodes[..i], Some(fk));
          ids := ids + [fk];
          nodeids := nodeids[fk := []];
        }
        nodeids := nodeids[fk := nodeids[fk] + [nodes[i]]];
      }
      i := i + 1;
    }
    assert fks[..i] == fks && nodes[..i] == nodes;
  }

  /** `nodeids` maps every id to the last node that carries it, which stands at position `at[id]`. */
  ghost predicate Indexed(nodes: seq<Account>, ids: seq<int>, nodeids: map<int, Account>, at: map<int, nat>)
    requires |ids| == |nodes|
  {
    && (forall k :: k in nodeids <==> k in at)
    && (forall i :: 0 <= i < |ids| ==> ids[i] in nodeids)
    && (forall k :: k in at ==> at[k] < |nodes| && ids[at[k]] == k && LastOccurrence(ids, at[k]) && nodeids[k] == nodes[at[k]])
  }

  /** Node `i` is what its id leads to exactly when no later node carries the id. */
  ghost predicate Deals(nodes: seq<Account>, ids: seq<int>, nodeids: map<int, Account>)
    requires |ids| == |nodes|
  {
    && (forall k :: k in nodeids ==> nodeids[k] in nodes)
    && (forall k, i :: k in nodeids && 0 <= i < |nodes| ==> (nodes[i] == nodeids[k] <==> ids[i] == k && LastOccurrence(ids, i)))
  }

  lemma IndexedDeals(nodes: seq<Account>, ids: seq<int>, nodeids: map<int, Account>, at: map<int, nat>)
    requires |ids| == |nodes| && Distinct(nodes) && Indexed(nodes, ids, nodeids, at)
    ensures Deals(nodes, ids, nodeids)
  {
    forall k, i | k in nodeids && 0 <= i < |nodes|
      ensures nodes[i] == nodeids[k] <==> ids[i] == k && LastOccurrence(ids, i)
    {
      assert nodes[at[k]] == nodeids[k];
    }
  }

  /** Indexes the nodes by id; a later node with the same id overwrites an earlier one. */
  method IndexById(nodes: seq<Account>, ids: seq<int>) returns (fks: seq<int>, nodeids: map<int, Account>, ghost at: map<int, nat>)
    requires |ids| == |nodes|
    ensures fks == ids
    ensures Indexed(nodes, ids, nodeids, at)
  {
    fks, nodeids, at := [], map[], map[];
    var i := 0;
    while i < |nodes|
      invariant 0 <= i <= |nodes|
      invariant fks == ids[..i]
      invariant forall k :: k in nodeids <==> k in at
      invariant forall j :: 0 <= j < i ==> ids[j] in nodeids
      invariant forall k :: k in at ==> at[k] < i && ids[at[k]] == k && nodeids[k] == nodes[at[k]]
      invariant forall k, j :: k in at && at[k] < j < i ==> ids[j] != k
    {
      fks := fks + [ids[i]];
      nodeids := nodeids[ids[i] := nodes[i]];
      at := at[ids[i] := i];
      i := i + 1;
    }
  }

  // ----- queries without edges of their own

  /** A row a constrained statement returns satisfies the constraint. */
  lemma FetchHolds<R>(table: seq<R>, s: Settings<R>, p: R -> bool, row: R)
    requires row in Fetch(table, Prepared(Constrain(s, p)))
    ensures p(row)
  {
    var preds := Prepared(Constrain(s, p)).preds;
    WhereMember(s.order(table), preds, row);
    assert preds[|s.preds|] == p;
  }

  method AllLeaves(table: Table<LeafRow>, s: Settings<LeafRow>) returns (r: Result<seq<Leaf>, Error>)
    ensures r.Ok? <==> Accepted(s, table.columns)
    ensures r.Err? ==> IsPrepareError(r.error)
    ensures r.Ok? ==> LeafRows(r.value) == BatchLeaves(table, s) && Distinct(r.value)
    ensures r.Ok? && Id in table.columns ==> LeavesRead(LeafRows(r.value), table, s)
    ensures r.Ok? ==> forall n :: n in r.value ==> fresh(n)
  {
    var prepared := PrepareQuery(s, table.columns);
    if prepared.Err? {
      return Err(prepared.error);
    }
    var rows := Fetch(table.rows, prepared.value);
    var cols := LeafSpecColumns(s.fields, table.columns);
    var nodes := NewLeaves(cols, rows);
    if Id in table.columns {
      LeavesAreRead(table, s);
    }
    return Ok(nodes);
  }

  /** The Assign callback, once per row. */
  method NewLeaves(cols: seq<Column>, rows: seq<LeafRow>) returns (nodes: seq<Leaf>)
    ensures LeafRows(nodes) == LoadLeaves(cols, rows) && Distinct(nodes)
    ensures forall n :: n in nodes ==> fresh(n)
  {
    nodes := [];
    for i := 0 to |rows|
      invariant |nodes| == i && Distinct(nodes)
      invariant forall j :: 0 <= j < i ==> fresh(nodes[j]) && nodes[j].row == LoadLeaf(cols, rows[j])
    {
      var n := new Leaf(cols, rows[i]);
      nodes := nodes + [n];
    }
  }

  // ----- many-to-one: proxy

  function Nodes(nodes: seq<Account>): set<Account> {
    set n | n in nodes
  }

  ghost predicate IsLeaf(p: Leaf?, o: Option<Leaf>) {
    (o.None? ==> p == null) && (o.Some? ==> p == o.value)
  }

  lemma BucketWithin(nodes: seq<Account>, fks: seq<Option<int>>, k: int)
    requires |fks| == |nodes|
    ensures forall a :: a in Pick(fks, nodes, Some(k)) ==> a in nodes
  {
  }

  method LoadProxy(db: Db, s: Settings<LeafRow>, nodes: seq<Account>) returns (err: Option<Error>)
    requires Distinct(nodes) && db.Columned()
    requires forall n :: n in nodes ==> n.proxy == null
    modifies Nodes(nodes)`proxy
    ensures Accepted(s, db.proxies.columns) ==> err.None?
    ensures err.Some? ==> IsPrepareError(err.value)
    ensures err.None? ==> forall i :: 0 <= i < |nodes| ==> LeafRowOf(nodes[i].proxy) == BatchProxy(db, s, Rows(nodes), i)
  {
    var fks := seq(|nodes|, i requires 0 <= i < |nodes| => nodes[i].row.proxyId);
    assert fks == ProxyIds(Rows(nodes));
    var ids, nodeids := IndexByForeignKey(nodes, fks);
    if |ids| == 0 {
      return None;
    }
    var query := Constrain(s, LeafIdIn(ids));
    var found := AllLeaves(db.proxies, query);
    if found.Err? {
      return Some(found.error);
    }
    var neighbors := found.value;
    LeavesFound(db.proxies, s, ids);
    assert forall n :: n in neighbors ==> n.row in LeafRows(neighbors);
    err := AssignProxies(nodes, fks, nodeids, neighbors);
    forall i | 0 <= i < |nodes| ensures LeafRowOf(nodes[i].proxy) == BatchProxy(db, s, Rows(nodes), i) {
      ChosenProxy(db, s, nodes, neighbors, i);
    }
  }

  lemma ChosenProxy(db: Db, s: Settings<LeafRow>, nodes: seq<Account>, neighbors: seq<Leaf>, i: nat)
    requires i < |nodes|
    requires LeafRows(neighbors) == BatchLeaves(db.proxies, Constrain(s, LeafIdIn(FirstKeys(ProxyIds(Rows(nodes))))))
    requires IsLeaf(nodes[i].proxy, OneOf(LeafIds(LeafRows(neighbors)), neighbors, ProxyIds(Rows(nodes))[i]))
    ensures LeafRowOf(nodes[i].proxy) == BatchProxy(db, s, Rows(nodes), i)
  {
  }

  lemma LeavesFound(table: Table<LeafRow>, s: Settings<LeafRow>, ids: seq<int>)
    requires Id in table.columns
    ensures forall r :: r in BatchLeaves(table, Constrain(s, LeafIdIn(ids))) ==> r.id in ids
  {
    var rows := Fetch(table.rows, Prepared(Constrain(s, LeafIdIn(ids))));
    forall i | 0 <= i < |rows| ensures rows[i].id in ids {
      FetchHolds(table.rows, s, LeafIdIn(ids), rows[i]);
    }
  }

  /** `for i := range nodes { assign(nodes[i], n) }` over the bucket of one foreign key. */
  method GiveProxy(nodes: seq<Account>, fks: seq<Option<int>>, k: int, bucket: seq<Account>, n: Leaf)
    requires |fks| == |nodes| && Distinct(nodes) && bucket == Pick(fks, nodes, Some(k))
    modifies Nodes(nodes)`proxy
    ensures forall i :: 0 <= i < |nodes| ==> nodes[i].proxy == if fks[i] == Some(k) then n else old(nodes[i].proxy)
  {
    BucketWithin(nodes, fks, k);
    for b := 0 to |bucket|
      invariant forall i :: 0 <= i < |nodes| ==> nodes[i].proxy == if nodes[i] in bucket[..b] then n else old(nodes[i].proxy)
    {
      bucket[b].proxy := n;
    }
    forall i | 0 <= i < |nodes| ensures nodes[i] in bucket <==> fks[i] == Some(k) {
      BucketMember(nodes, fks, Some(k), i);
    }
  }

  method AssignProxies(nodes: seq<Account>, fks: seq<Option<int>>, nodeids: map<int, seq<Account>>, neighbors: seq<Leaf>)
    returns (err: Option<Error>)
    requires |fks| == |nodes| && Distinct(nodes)
    requires forall k :: k in nodeids ==> nodeids[k] == Pick(fks, nodes, Some(k))
    requires forall n :: n in nodes ==> n.proxy == null
    modifies Nodes(nodes)`proxy
    ensures err.None? <==> forall n :: n in neighbors ==> n.row.id in nodeids
    ensures err.None? ==> forall i :: 0 <= i < |nodes| ==> IsLeaf(nodes[i].proxy, OneOf(LeafIds(LeafRows(neighbors)), neighbors, fks[i]))
  {
    ghost var keys := LeafIds(LeafRows(neighbors));
    var j := 0;
    while j < |neighbors|
      invariant 0 <= j <= |neighbors|
      invariant forall n :: n in neighbors[..j] ==> n.row.id in nodeids
      invariant forall i :: 0 <= i < |nodes| ==> IsLeaf(nodes[i].proxy, OneOf(keys[..j], neighbors[..j], fks[i]))
    {
      var n := neighbors[j];
      if n.row.id !in nodeids {
        return Some(UnexpectedForeignKey(n.row.id));
      }
      GiveProxy(nodes, fks, n.row.id, nodeids[n.row.id], n);
      forall i | 0 <= i < |nodes| ensures IsLeaf(nodes[i].proxy, OneOf(keys[..j + 1], neighbors[..j + 1], fks[i])) {
        OneOfPrefix(keys, neighbors, fks[i], j);
      }
      j := j + 1;
    }
    assert keys[..j] == keys && neighbors[..j] == neighbors;
    return None;
  }

  // ----- one-to-many: usage logs

  method LoadUsageLogs(db: Db, s: Settings<LeafRow>, nodes: seq<Account>) returns (err: Option<Error>)
    requires Distinct(nodes) && db.Columned()
    modifies Nodes(nodes)`usageLogs
    ensures Accepted(s, db.usageLogs.columns) ==> err.None?
    ensures err.Some? ==> IsPrepareError(err.value)
    ensures err.None? ==> forall i :: 0 <= i < |nodes| ==> LeafRows(nodes[i].usageLogs) == BatchUsageLogs(db, s, Rows(nodes), i)
  {
    var ids := seq(|nodes|, i requires 0 <= i < |nodes| => nodes[i].row.id);
    assert ids == AccountIds(Rows(nodes));
    var fks, nodeids, at := IndexById(nodes, ids);
    forall n | n in Nodes(nodes) {
      n.usageLogs := [];
    }
    var query := Constrain(s.(fields := WithField(s.fields, AccountId)), OwnerIdIn(fks));
    var found := AllLeaves(db.usageLogs, query);
    if found.Err? {
      return Some(found.error);
    }
    var neighbors := found.value;
    LogsFound(db, s, ids);
    IndexedDeals(nodes, ids, nodeids, at);
    assert forall n :: n in neighbors ==> n.row in LeafRows(neighbors);
    err := AssignUsageLogs(nodes, ids, nodeids, neighbors);
    forall i | 0 <= i < |nodes| ensures LeafRows(nodes[i].usageLogs) == BatchUsageLogs(db, s, Rows(nodes), i) {
      DealtLogs(neighbors, ids, i);
    }
  }

  lemma DealtLogs(neighbors: seq<Leaf>, ids: seq<int>, i: nat)
    requires i < |ids|
    ensures LeafRows(Dealt(OwnerIds(LeafRows(neighbors)), neighbors, ids, i)) ==
            Dealt(OwnerIds(LeafRows(neighbors)), LeafRows(neighbors), ids, i)
  {
  }

  lemma LogsFound(db: Db, s: Settings<LeafRow>, ids: seq<int>)
    requires db.Columned()
    ensures forall r :: r in BatchLeaves(db.usageLogs, UsageLogsOf(s, ids)) ==> r.accountId in ids
  {
    var s' := s.(fields := WithField(s.fields, AccountId));
    var rows := Fetch(db.usageLogs.rows, Prepared(UsageLogsOf(s, ids)));
    forall i | 0 <= i < |rows| ensures rows[i].accountId in ids {
      FetchHolds(db.usageLogs.rows, s', OwnerIdIn(ids), rows[i]);
    }
  }

  method AssignUsageLogs(nodes: seq<Account>, ids: seq<int>, nodeids: map<int, Account>, neighbors: seq<Leaf>)
    returns (err: Option<Error>)
    requires |ids| == |nodes| && Distinct(nodes) && Deals(nodes, ids, nodeids)
    requires forall n :: n in nodes ==> n.usageLogs == []
    modifies Nodes(nodes)`usageLogs
    ensures err.None? <==> forall n :: n in neighbors ==> n.row.accountId in nodeids
    ensures err.None? ==> forall i :: 0 <= i < |nodes| ==>
      nodes[i].usageLogs == Dealt(OwnerIds(LeafRows(neighbors)), neighbors, ids, i)
  {
    ghost var keys := OwnerIds(LeafRows(neighbors));
    var j := 0;
    while j < |neighbors|
      invariant 0 <= j <= |neighbors|
      invariant forall n :: n in neighbors[..j] ==> n.row.accountId in nodeids
      invariant forall i :: 0 <= i < |nodes| ==> nodes[i].usageLogs == Dealt(keys[..j], neighbors[..j], ids, i)
    {
      var n := neighbors[j];
      if n.row.accountId !in nodeids {
        return Some(UnexpectedForeignKey(n.row.accountId));
      }
      var node := nodeids[n.row.accountId];
      node.usageLogs := node.usageLogs + [n];
      forall i | 0 <= i < |nodes| ensures nodes[i].usageLogs == Dealt(keys[..j + 1], neighbors[..j + 1], ids, i) {
        DealtPrefix(keys, neighbors, ids, i, j);
      }
      j := j + 1;
    }
    assert keys[..j] == keys && neighbors[..j] == neighbors;
    return None;
  }

  // ----- many-to-many: groups

  method LoadGroups(db: Db, s: Settings<LeafRow>, nodes: seq<Account>) returns (err: Option<Error>)
    requires Distinct(nodes) && db.Columned()
    modifies Nodes(nodes)`groups
    ensures Accepted(s, db.groups.columns) ==> err.None?
    ensures err.Some? ==> IsPrepareError(err.value)
    ensures err.None? ==> forall i :: 0 <= i < |nodes| ==> LeafRows(nodes[i].groups) == BatchGroupList(db, s, Rows(nodes), i)
    ensures err.None? ==> SharedById(nodes)
  {
    var edgeIDs := seq(|nodes|, i requires 0 <= i < |nodes| => nodes[i].row.id);
    assert edgeIDs == AccountIds(Rows(nodes));
    var fks, byID, at := IndexById(nodes, edgeIDs);
    forall n | n in Nodes(nodes) {
      n.groups := [];
    }
    var prepared := PrepareQuery(s, db.groups.columns);
    if prepared.Err? {
      return Some(prepared.error);
    }
    var stream := Stream(db, prepared.value, edgeIDs);
    StreamWithin(db, prepared.value, edgeIDs);
    var cols := LeafSpecColumns(s.fields, db.groups.columns);
    assert Id in cols;
    err := DealStream(nodes, edgeIDs, byID, at, cols, stream);
  }

  method DealStream(nodes: seq<Account>, ids: seq<int>, byID: map<int, Account>, ghost at: map<int, nat>, cols: seq<Column>,
                    stream: seq<Pair>) returns (err: Option<Error>)
    requires |ids| == |nodes| && Distinct(nodes) && Indexed(nodes, ids, byID, at)
    requires forall q :: 0 <= q < |stream| ==> stream[q].owner in ids
    requires Id in cols
    requires forall n :: n in nodes ==> n.groups == []
    modifies Nodes(nodes)`groups
    ensures err.None?
    ensures forall i :: 0 <= i < |nodes| ==>
      var groups := LoadLeaves(cols, FirstRows(stream));
      LeafRows(nodes[i].groups) == if LastOccurrence(ids, i) then Pick(LinkedKeys(stream, LeafIds(groups), ids[i]), groups, true) else []
    ensures SharedById(nodes)
  {
    var nids, neighbors := IndexStream(byID, cols, stream);
    ghost var gids := LeafIds(LeafRows(neighbors));
    assert gids == LeafIds(FirstRows(stream));
    assert forall j :: 0 <= j < |neighbors| ==> neighbors[j].row.id == gids[j] && gids[j] in nids;
    CollectedNodes(nodes, ids, byID, at, stream, nids);
    err := AssignGroups(nodes, nids, neighbors);
    GroupsDealt(nodes, ids, byID, at, nids, neighbors, stream);
    FirstRowsDistinct(stream);
    SharedNeighbors(nodes, nids, neighbors);
  }

  lemma CollectedNodes(nodes: seq<Account>, ids: seq<int>, byID: map<int, Account>, at: map<int, nat>,
                       stream: seq<Pair>, nids: map<int, set<Account>>)
    requires |ids| == |nodes| && Indexed(nodes, ids, byID, at)
    requires forall q :: 0 <= q < |stream| ==> stream[q].owner in byID
    requires nids == NodeSets(byID, stream)
    ensures forall g :: g in nids ==> nids[g] <= Nodes(nodes)
  {
    forall g, a | g in nids && a in nids[g] ensures a in nodes {
      NodeSetMember(byID, stream, g, a);
      var q :| 0 <= q < |stream| && stream[q].group.id == g && byID[stream[q].owner] == a;
      assert nodes[at[stream[q].owner]] == a;
    }
  }

  /** The rows of every node's groups, once the neighbours are assigned. */
  lemma GroupsDealt(nodes: seq<Account>, ids: seq<int>, byID: map<int, Account>, at: map<int, nat>, nids: map<int, set<Account>>,
                    neighbors: seq<Leaf>, stream: seq<Pair>)
    requires |ids| == |nodes| && Distinct(nodes) && Indexed(nodes, ids, byID, at)
    requires forall q :: 0 <= q < |stream| ==> stream[q].owner in byID
    requires forall j :: 0 <= j < |neighbors| ==> neighbors[j].row.id in nids
    requires nids == NodeSets(byID, stream)
    requires forall i :: 0 <= i < |nodes| ==>
      nodes[i].groups == Pick(InKeys(nids, LeafIds(LeafRows(neighbors)), nodes[i]), neighbors, true)
    ensures forall i :: 0 <= i < |nodes| ==>
      LeafRows(nodes[i].groups) ==
      if LastOccurrence(ids, i) then Pick(LinkedKeys(stream, LeafIds(LeafRows(neighbors)), ids[i]), LeafRows(neighbors), true) else []
  {
    forall i | 0 <= i < |nodes|
      ensures LeafRows(nodes[i].groups) ==
              if LastOccurrence(ids, i) then Pick(LinkedKeys(stream, LeafIds(LeafRows(neighbors)), ids[i]), LeafRows(neighbors), true) else []
    {
      DealtGroups(nodes, ids, byID, at, nids, neighbors, stream, i);
    }
  }

  lemma DealtGroups(nodes: seq<Account>, ids: seq<int>, byID: map<int, Account>, at: map<int, nat>, nids: map<int, set<Account>>,
                    neighbors: seq<Leaf>, stream: seq<Pair>, i: nat)
    requires |ids| == |nodes| && Distinct(nodes) && i < |nodes| && Indexed(nodes, ids, byID, at)
    requires forall q :: 0 <= q < |stream| ==> stream[q].owner in byID
    requires forall j :: 0 <= j < |neighbors| ==> neighbors[j].row.id in nids
    requires nids == NodeSets(byID, stream)
    ensures var gids := LeafIds(LeafRows(neighbors));
            LeafRows(Pick(InKeys(nids, gids, nodes[i]), neighbors, true)) ==
            if LastOccurrence(ids, i) then Pick(LinkedKeys(stream, gids, ids[i]), LeafRows(neighbors), true) else []
  {
    var gids := LeafIds(LeafRows(neighbors));
    MembershipIsLink(nodes, ids, byID, at, nids, gids, stream, i);
    if !LastOccurrence(ids, i) {
      PickAbsent(InKeys(nids, gids, nodes[i]), neighbors, true);
    }
  }

  /** Two nodes related to the same group hold the same object. */
  ghost predicate SharedById(nodes: seq<Account>)
    reads Nodes(nodes)
  {
    forall a, b, g, h :: a in nodes && b in nodes && g in a.groups && h in b.groups && g.row.id == h.row.id ==> g == h
  }

  lemma SharedNeighbors(nodes: seq<Account>, nids: map<int, set<Account>>, neighbors: seq<Leaf>)
    requires Distinct(LeafIds(LeafRows(neighbors)))
    requires forall i :: 0 <= i < |nodes| ==>
      nodes[i].groups == Pick(InKeys(nids, LeafIds(LeafRows(neighbors)), nodes[i]), neighbors, true)
    ensures SharedById(nodes)
  {
    forall n, g | n in nodes && g in n.groups ensures g in neighbors {
      var i :| 0 <= i < |nodes| && nodes[i] == n;
      PickMember(InKeys(nids, LeafIds(LeafRows(neighbors)), n), neighbors, true, g);
    }
    forall a, b, g, h | a in nodes && b in nodes && g in a.groups && h in b.groups && g.row.id == h.row.id ensures g == h {
      assert g in neighbors && h in neighbors;
      var i :| 0 <= i < |neighbors| && neighbors[i] == g;
      var j :| 0 <= j < |neighbors| && neighbors[j] == h;
      assert LeafIds(LeafRows(neighbors))[i] == LeafIds(LeafRows(neighbors))[j];
    }
  }

  lemma StreamWithin(db: Db, s: Settings<LeafRow>, ids: seq<int>)
    ensures var stream := Stream(db, s, ids); forall q :: 0 <= q < |stream| ==> stream[q].owner in ids
  {
    var all := WherePairs(s.joined(JoinedPairs(db.accountGroups.rows, db.groups.rows)), s.preds, ids);
    var stream := Stream(db, s, ids);
    forall q | 0 <= q < |stream| ensures stream[q].owner in ids {
      assert stream[q] in all;
    }
  }

  lemma NodeSetsStep(byID: map<int, Account>, stream: seq<Pair>, i: nat)
    requires i < |stream| && forall q :: 0 <= q < |stream| ==> stream[q].owner in byID
    ensures var before, gid, node := NodeSets(byID, stream[..i]), stream[i].group.id, byID[stream[i].owner];
            NodeSets(byID, stream[..i + 1]) == before[gid := if gid in before then before[gid] + {node} else {node}]
  {
    assert stream[..i + 1][..i] == stream[..i];
  }

  /** The node set of every group in the stream. */
  ghost function NodeSets(byID: map<int, Account>, stream: seq<Pair>): (r: map<int, set<Account>>)
    requires forall q :: 0 <= q < |stream| ==> stream[q].owner in byID
  {
    if stream == [] then map[]
    else
      var n := |stream| - 1;
      var before := NodeSets(byID, stream[..n]);
      var gid := stream[n].group.id;
      var node := byID[stream[n].owner];
      before[gid := if gid in before then before[gid] + {node} else {node}]
  }

  /**
   The wrapped Assign callback, once per row of the joined stream: a group seen for the first time is
   built and gets a fresh set of nodes; a repeated one only adds a node to its set.
   */
  method IndexStream(byID: map<int, Account>, cols: seq<Column>, stream: seq<Pair>)
    returns (nids: map<int, set<Account>>, neighbors: seq<Leaf>)
    requires forall q :: 0 <= q < |stream| ==> stream[q].owner in byID
    ensures LeafRows(neighbors) == LoadLeaves(cols, FirstRows(stream))
    ensures nids == NodeSets(byID, stream)
    ensures forall g :: g in LeafIds(FirstRows(stream)) ==> g in nids
  {
    nids, neighbors := map[], [];
    ghost var rows: seq<LeafRow> := [];
    var i := 0;
    while i < |stream|
      invariant 0 <= i <= |stream|
      invariant rows == FirstRows(stream[..i])
      invariant |neighbors| == |rows| && forall j :: 0 <= j < |rows| ==> neighbors[j].row == LoadLeaf(cols, rows[j])
      invariant nids == NodeSets(byID, stream[..i])
      invariant forall g :: g in nids <==> g in LeafIds(rows)
    {
      var row := stream[i].group;
      var node := byID[stream[i].owner];
      FirstRowsStep(stream, i);
      NodeSetsStep(byID, stream, i);
      if row.id !in nids {
        nids := nids[row.id := {node}];
        var n := new Leaf(cols, row);
        neighbors := neighbors + [n];
        rows := rows + [row];
      } else {
        nids := nids[row.id := nids[row.id] + {node}];
      }
      i := i + 1;
    }
    assert stream[..i] == stream;
  }

  /** A node is in a group's set exactly when some row pairs the two. */
  lemma {:induction false} NodeSetMember(byID: map<int, Account>, stream: seq<Pair>, g: int, a: Account)
    requires forall q :: 0 <= q < |stream| ==> stream[q].owner in byID
    ensures var sets := NodeSets(byID, stream);
            g in sets && a in sets[g] <==> exists q :: 0 <= q < |stream| && stream[q].group.id == g && byID[stream[q].owner] == a
  {
    if stream != [] {
      var n := |stream| - 1;
      NodeSetMember(byID, stream[..n], g, a);
      if q :| 0 <= q < n && stream[..n][q].group.id == g && byID[stream[..n][q].owner] == a {
        assert stream[q].group.id == g && byID[stream[q].owner] == a;
      }
      if stream[n].group.id == g && byID[stream[n].owner] == a {
        assert exists q :: 0 <= q < |stream| && stream[q].group.id == g && byID[stream[q].owner] == a;
      }
      if q :| 0 <= q < |stream| && stream[q].group.id == g && byID[stream[q].owner] == a {
        if q < n {
          assert stream[..n][q].group.id == g && byID[stream[..n][q].owner] == a;
        }
      }
    }
  }

  ghost function InKeys(nids: map<int, set<Account>>, gids: seq<int>, n: Account): (r: seq<bool>)
    ensures |r| == |gids|
    ensures forall j :: 0 <= j < |gids| ==> r[j] == (gids[j] in nids && n in nids[gids[j]])
  {
    seq(|gids|, j requires 0 <= j < |gids| => gids[j] in nids && n in nids[gids[j]])
  }

  /** Being in a group's node set is being linked to it, for the node its id is indexed under. */
  lemma MembershipIsLink(nodes: seq<Account>, ids: seq<int>, byID: map<int, Account>, at: map<int, nat>, nids: map<int, set<Account>>,
                         gids: seq<int>, stream: seq<Pair>, i: nat)
    requires |ids| == |nodes| && Distinct(nodes) && i < |nodes| && Indexed(nodes, ids, byID, at)
    requires forall q :: 0 <= q < |stream| ==> stream[q].owner in byID
    requires forall j :: 0 <= j < |gids| ==> gids[j] in nids
    requires nids == NodeSets(byID, stream)
    ensures LastOccurrence(ids, i) ==> InKeys(nids, gids, nodes[i]) == LinkedKeys(stream, gids, ids[i])
    ensures !LastOccurrence(ids, i) ==> true !in InKeys(nids, gids, nodes[i])
  {
    forall j | 0 <= j < |gids|
      ensures InKeys(nids, gids, nodes[i])[j] == (LastOccurrence(ids, i) && Linked(stream, ids[i], gids[j]))
    {
      NodeSetMember(byID, stream, gids[j], nodes[i]);
      if nodes[i] in nids[gids[j]] {
        var q :| 0 <= q < |stream| && stream[q].group.id == gids[j] && byID[stream[q].owner] == nodes[i];
        assert nodes[at[stream[q].owner]] == nodes[i];
        assert stream[q] in stream;
      }
      if LastOccurrence(ids, i) && Linked(stream, ids[i], gids[j]) {
        var p :| p in stream && p.owner == ids[i] && p.group.id == gids[j];
        var q :| 0 <= q < |stream| && stream[q] == p;
        assert at[ids[i]] == i;
      }
    }
  }

  method AssignGroups(nodes: seq<Account>, nids: map<int, set<Account>>, neighbors: seq<Leaf>) returns (err: Option<Error>)
    requires Distinct(nodes)
    requires forall g :: g in nids ==> nids[g] <= Nodes(nodes)
    requires forall n :: n in nodes ==> n.groups == []
    modifies Nodes(nodes)`groups
    ensures err.None? <==> forall n :: n in neighbors ==> n.row.id in nids
    ensures err.None? ==> forall i :: 0 <= i < |nodes| ==>
      nodes[i].groups == Pick(InKeys(nids, LeafIds(LeafRows(neighbors)), nodes[i]), neighbors, true)
  {
    var j := 0;
    while j < |neighbors|
      invariant 0 <= j <= |neighbors|
      invariant forall n :: n in neighbors[..j] ==> n.row.id in nids
      invariant AssignedTo(nodes, nids, neighbors, j)
    {
      var n := neighbors[j];
      if n.row.id !in nids {
        return Some(UnexpectedNode(n.row.id));
      }
      AssignGroup(nodes, nids, neighbors, j);
      j := j + 1;
    }
    assert neighbors[..j] == neighbors;
    AllAssigned(nodes, nids, neighbors);
    return None;
  }

  /** Every node has the first `j` neighbours it is in the node set of. */
  ghost predicate AssignedTo(nodes: seq<Account>, nids: map<int, set<Account>>, neighbors: seq<Leaf>, j: nat)
    requires j <= |neighbors|
    reads Nodes(nodes)`groups
  {
    forall i :: 0 <= i < |nodes| ==>
      nodes[i].groups == Pick(InKeys(nids, LeafIds(LeafRows(neighbors)), nodes[i])[..j], neighbors[..j], true)
  }

  lemma AllAssigned(nodes: seq<Account>, nids: map<int, set<Account>>, neighbors: seq<Leaf>)
    requires AssignedTo(nodes, nids, neighbors, |neighbors|)
    ensures forall i :: 0 <= i < |nodes| ==>
      nodes[i].groups == Pick(InKeys(nids, LeafIds(LeafRows(neighbors)), nodes[i]), neighbors, true)
  {
    var gids := LeafIds(LeafRows(neighbors));
    assert neighbors[..|neighbors|] == neighbors;
    assert forall i :: 0 <= i < |nodes| ==> InKeys(nids, gids, nodes[i])[..|neighbors|] == InKeys(nids, gids, nodes[i]);
  }

  /** The body of the loop, for a group some node set is known of. */
  method AssignGroup(nodes: seq<Account>, nids: map<int, set<Account>>, neighbors: seq<Leaf>, j: nat)
    requires Distinct(nodes) && j < |neighbors| && neighbors[j].row.id in nids
    requires forall g :: g in nids ==> nids[g] <= Nodes(nodes)
    requires AssignedTo(nodes, nids, neighbors, j)
    modifies Nodes(nodes)`groups
    ensures AssignedTo(nodes, nids, neighbors, j + 1)
  {
    AppendToAll(nids[neighbors[j].row.id], neighbors[j]);
    forall i | 0 <= i < |nodes|
      ensures nodes[i].groups == Pick(InKeys(nids, LeafIds(LeafRows(neighbors)), nodes[i])[..j + 1], neighbors[..j + 1], true)
    {
      PickPrefix(InKeys(nids, LeafIds(LeafRows(neighbors)), nodes[i]), neighbors, true, j);
    }
  }

  /** `for kn := range nodes`: the members of the set in whatever order the map yields them. */
  method AppendToAll(targets: set<Account>, g: Leaf)
    modifies targets`groups
    ensures forall n :: n in targets ==> n.groups == old(n.groups) + [g]
  {
    var rest := targets;
    while rest != {}
      invariant rest <= targets
      invariant forall n :: n in targets ==> n.groups == if n in rest then old(n.groups) else old(n.groups) + [g]
    {
      var kn :| kn in rest;
      kn.groups := kn.groups + [g];
      rest := rest - {kn};
    }
  }

  // ----- graphs of loaded accounts

  /** The nodes are the roots of the given trees, and everything below them lies in `graph`. */
  ghost predicate Forest(nodes: seq<Account>, graph: set<object>, trees: seq<AccountTree>)
    reads Nodes(nodes), graph
  {
    && |nodes| == |trees|
    && forall i :: 0 <= i < |nodes| ==> Rooted(nodes[i], graph, trees[i])
  }

  ghost predicate Rooted(n: Account, graph: set<object>, tree: AccountTree)
    reads n, graph
  {
    n in graph && n.Repr <= graph && n.Valid() && n.Tree() == tree
  }

  ghost predicate IsAccount(p: Account?, o: Option<Account>) {
    (o.None? ==> p == null) && (o.Some? ==> p == o.value)
  }

  ghost predicate ParentIs(n: Account, graph: set<object>, t: Option<AccountTree>)
    reads n`parent, graph
  {
    if t.None? then n.parent == null
    else n.parent != null && n.parent in graph && Rooted(n.parent, graph, t.value)
  }

  ghost predicate ChildrenAre(n: Account, graph: set<object>, ts: seq<AccountTree>)
    reads n`children, graph
  {
    && |n.children| == |ts|
    && forall j :: 0 <= j < |ts| ==> n.children[j] in graph && Rooted(n.children[j], graph, ts[j])
  }

  // ----- many-to-one: parent

  method LoadParent(db: Db, q: AccountPlan, nodes: seq<Account>) returns (err: Option<Error>, ghost graph: set<object>)
    requires Distinct(nodes) && db.Columned()
    requires forall n :: n in nodes ==> n.parent == null
    modifies Nodes(nodes)`parent
    ensures fresh(graph)
    ensures WellFormed(db, q) ==> err.None?
    ensures err.Some? ==> IsPrepareError(err.value)
    ensures err.None? ==> forall i :: 0 <= i < |nodes| ==> ParentIs(nodes[i], graph, BatchParent(db, q, Rows(nodes), i))
    decreases q.w, 30
  {
    var fks := seq(|nodes|, i requires 0 <= i < |nodes| => nodes[i].row.parentId);
    assert fks == ParentIds(Rows(nodes));
    var ids, nodeids := IndexByForeignKey(nodes, fks);
    if |ids| == 0 {
      return None, {};
    }
    err, graph := FetchParents(db, q, nodes, fks, ids, nodeids);
  }

  /** The part behind the index. */
  method FetchParents(db: Db, q: AccountPlan, nodes: seq<Account>, fks: seq<Option<int>>, ids: seq<int>, nodeids: map<int, seq<Account>>)
    returns (err: Option<Error>, ghost graph: set<object>)
    requires Distinct(nodes) && db.Columned() && fks == ParentIds(Rows(nodes)) && ids == FirstKeys(fks)
    requires nodeids.Keys == (set k | k in ids) && forall k :: k in nodeids ==> nodeids[k] == Pick(fks, nodes, Some(k))
    requires forall n :: n in nodes ==> n.parent == null
    modifies Nodes(nodes)`parent
    ensures fresh(graph)
    ensures WellFormed(db, q) ==> err.None?
    ensures err.Some? ==> IsPrepareError(err.value)
    ensures err.None? ==> forall i :: 0 <= i < |nodes| ==> ParentIs(nodes[i], graph, BatchParent(db, q, Rows(nodes), i))
    decreases q.w, 25
  {
    var query := q.(s := Constrain(q.s, AccountIdIn(ids)));
    var found;
    found, graph := FetchAccounts(db, query);
    if found.Err? {
      return Some(found.error), graph;
    }
    var neighbors := found.value;
    ghost var trees := BatchAccounts(db, query);
    AccountsFound(db, q, ids, neighbors, graph);
    err := AssignParents(nodes, fks, nodeids, neighbors);
    forall i | 0 <= i < |nodes| ensures ParentIs(nodes[i], graph, OneOf(TreeIds(trees), trees, fks[i])) {
      ChosenTree(neighbors, graph, trees, fks[i]);
    }
  }

  /** A constrained accounts query returns only accounts with the wanted ids. */
  lemma AccountsFound(db: Db, q: AccountPlan, ids: seq<int>, neighbors: seq<Account>, graph: set<object>)
    requires db.Columned()
    requires Forest(neighbors, graph, BatchAccounts(db, q.(s := Constrain(q.s, AccountIdIn(ids)))))
    ensures forall n :: n in neighbors ==> n.row.id in ids
  {
    var query := q.(s := Constrain(q.s, AccountIdIn(ids)));
    var rows := Fetch(db.accounts.rows, Prepared(query.s));
    forall j | 0 <= j < |neighbors| ensures neighbors[j].row.id in ids {
      FetchHolds(db.accounts.rows, q.s, AccountIdIn(ids), rows[j]);
      assert neighbors[j].Tree().row == AccountNodes(db, query)[j];
    }
  }

  /** Choosing a neighbour by id is choosing its tree. */
  lemma ChosenTree(neighbors: seq<Account>, graph: set<object>, trees: seq<AccountTree>, fk: Option<int>)
    requires Forest(neighbors, graph, trees)
    ensures AccountIds(Rows(neighbors)) == TreeIds(trees)
    ensures var n := OneOf(TreeIds(trees), neighbors, fk);
            var t := OneOf(TreeIds(trees), trees, fk);
            n.Some? == t.Some? && (n.Some? ==> n.value in graph && Rooted(n.value, graph, t.value))
  {
    assert forall j :: 0 <= j < |trees| ==> neighbors[j].Tree().row == trees[j].row;
    assert AccountIds(Rows(neighbors)) == TreeIds(trees);
    var n := OneOf(TreeIds(trees), neighbors, fk);
    if n.Some? {
      var idx := Positions(TreeIds(trees), fk.value);
      assert Rooted(neighbors[idx[|idx| - 1]], graph, trees[idx[|idx| - 1]]);
    }
  }

  /** `for i := range nodes { assign(nodes[i], n) }` over the bucket of one foreign key. */
  method GiveParent(nodes: seq<Account>, fks: seq<Option<int>>, k: int, bucket: seq<Account>, n: Account)
    requires |fks| == |nodes| && Distinct(nodes) && bucket == Pick(fks, nodes, Some(k))
    modifies Nodes(nodes)`parent
    ensures forall i :: 0 <= i < |nodes| ==> nodes[i].parent == if fks[i] == Some(k) then n else old(nodes[i].parent)
  {
    BucketWithin(nodes, fks, k);
    for b := 0 to |bucket|
      invariant forall i :: 0 <= i < |nodes| ==> nodes[i].parent == if nodes[i] in bucket[..b] then n else old(nodes[i].parent)
    {
      bucket[b].parent := n;
    }
    forall i | 0 <= i < |nodes| ensures nodes[i] in bucket <==> fks[i] == Some(k) {
      BucketMember(nodes, fks, Some(k), i);
    }
  }

  method AssignParents(nodes: seq<Account>, fks: seq<Option<int>>, nodeids: map<int, seq<Account>>, neighbors: seq<Account>)
    returns (err: Option<Error>)
    requires |fks| == |nodes| && Distinct(nodes)
    requires forall k :: k in nodeids ==> nodeids[k] == Pick(fks, nodes, Some(k))
    requires forall n :: n in nodes ==> n.parent == null
    modifies Nodes(nodes)`parent
    ensures err.None? <==> forall n :: n in neighbors ==> n.row.id in nodeids
    ensures err.None? ==> forall i :: 0 <= i < |nodes| ==> IsAccount(nodes[i].parent, OneOf(AccountIds(Rows(neighbors)), neighbors, fks[i]))
  {
    ghost var keys := AccountIds(Rows(neighbors));
    var j := 0;
    while j < |neighbors|
      invariant 0 <= j <= |neighbors|
      invariant forall n :: n in neighbors[..j] ==> n.row.id in nodeids
      invariant forall i :: 0 <= i < |nodes| ==> IsAccount(nodes[i].parent, OneOf(keys[..j], neighbors[..j], fks[i]))
    {
      var n := neighbors[j];
      if n.row.id !in nodeids {
        return Some(UnexpectedForeignKey(n.row.id));
      }
      GiveParent(nodes, fks, n.row.id, nodeids[n.row.id], n);
      forall i | 0 <= i < |nodes| ensures IsAccount(nodes[i].parent, OneOf(keys[..j + 1], neighbors[..j + 1], fks[i])) {
        OneOfPrefix(keys, neighbors, fks[i], j);
      }
      j := j + 1;
    }
    assert keys[..j] == keys && neighbors[..j] == neighbors;
    return None;
  }

  // ----- one-to-many: children

  method LoadChildren(db: Db, q: AccountPlan, nodes: seq<Account>) returns (err: Option<Error>, ghost graph: set<object>)
    requires Distinct(nodes) && db.Columned()
    modifies Nodes(nodes)`children
    ensures fresh(graph)
    ensures WellFormed(db, q) ==> err.None?
    ensures err.Some? ==> IsPrepareError(err.value)
    ensures err.None? ==> forall i :: 0 <= i < |nodes| ==> ChildrenAre(nodes[i], graph, BatchChildren(db, q, Rows(nodes), i))
    decreases q.w, 30
  {
    var ids := seq(|nodes|, i requires 0 <= i < |nodes| => nodes[i].row.id);
    assert ids == AccountIds(Rows(nodes));
    var fks, nodeids, at := IndexById(nodes, ids);
    forall n | n in Nodes(nodes) {
      n.children := [];
    }
    var query := q.(s := Constrain(q.s.(fields := WithField(q.s.fields, ParentAccountId)), ParentIdIn(fks)));
    ChildrenAccepted(db, q, ids);
    var found;
    found, graph := FetchAccounts(db, query);
    if found.Err? {
      return Some(found.error), graph;
    }
    var neighbors := found.value;
    ghost var trees := BatchAccounts(db, query);
    ChildrenFound(db, q, ids, neighbors, graph);
    IndexedDeals(nodes, ids, nodeids, at);
    err := AssignChildren(nodes, ids, nodeids, neighbors);
    forall i | 0 <= i < |nodes| ensures ChildrenAre(nodes[i], graph, BatchChildren(db, q, Rows(nodes), i)) {
      DealtTrees(neighbors, graph, trees, ids, i);
    }
  }

  lemma ChildrenAccepted(db: Db, q: AccountPlan, ids: seq<int>)
    requires db.Columned()
    ensures WellFormed(db, q) ==> WellFormed(db, ChildrenOf(q, ids))
  {
  }

  /** The children query returns only accounts whose parent is among the nodes: the foreign key is scanned and not null. */
  lemma ChildrenFound(db: Db, q: AccountPlan, ids: seq<int>, neighbors: seq<Account>, graph: set<object>)
    requires db.Columned()
    requires Forest(neighbors, graph, BatchAccounts(db, ChildrenOf(q, ids)))
    ensures forall n :: n in neighbors ==> n.row.parentId.Some? && n.row.parentId.value in ids
  {
    var query := ChildrenOf(q, ids);
    var s := q.s.(fields := WithField(q.s.fields, ParentAccountId));
    var rows := Fetch(db.accounts.rows, Prepared(query.s));
    forall j | 0 <= j < |neighbors| ensures neighbors[j].row.parentId.Some? && neighbors[j].row.parentId.value in ids {
      FetchHolds(db.accounts.rows, s, ParentIdIn(ids), rows[j]);
      assert neighbors[j].Tree().row == AccountNodes(db, query)[j];
    }
  }

  lemma DealtTrees(neighbors: seq<Account>, graph: set<object>, trees: seq<AccountTree>, ids: seq<int>, i: nat)
    requires Forest(neighbors, graph, trees) && i < |ids|
    ensures ParentIds(Rows(neighbors)) == TreeParents(trees)
    ensures var ns := DealtSome(TreeParents(trees), neighbors, ids, i);
            var ts := DealtSome(TreeParents(trees), trees, ids, i);
            |ns| == |ts| && forall j :: 0 <= j < |ts| ==> ns[j] in graph && Rooted(ns[j], graph, ts[j])
  {
    assert forall j :: 0 <= j < |trees| ==> neighbors[j].Tree().row == trees[j].row;
    assert ParentIds(Rows(neighbors)) == TreeParents(trees);
    var idx := Positions(TreeParents(trees), Some(ids[i]));
    assert forall j :: 0 <= j < |idx| ==> Rooted(neighbors[idx[j]], graph, trees[idx[j]]);
  }

  method AssignChildren(nodes: seq<Account>, ids: seq<int>, nodeids: map<int, Account>, neighbors: seq<Account>) returns (err: Option<Error>)
    requires |ids| == |nodes| && Distinct(nodes) && Deals(nodes, ids, nodeids)
    requires forall n :: n in nodes ==> n.children == []
    modifies Nodes(nodes)`children
    ensures err.None? <==> forall n :: n in neighbors ==> n.row.parentId.Some? && n.row.parentId.value in nodeids
    ensures err.None? ==> forall i :: 0 <= i < |nodes| ==>
      nodes[i].children == DealtSome(ParentIds(Rows(neighbors)), neighbors, ids, i)
  {
    ghost var keys := ParentIds(Rows(neighbors));
    var j := 0;
    while j < |neighbors|
      invariant 0 <= j <= |neighbors|
      invariant forall n :: n in neighbors[..j] ==> n.row.parentId.Some? && n.row.parentId.value in nodeids
      invariant forall i :: 0 <= i < |nodes| ==> nodes[i].children == DealtSome(keys[..j], neighbors[..j], ids, i)
    {
      var n := neighbors[j];
      if n.row.parentId.None? {
        return Some(NilForeignKey);
      }
      var id := n.row.parentId.value;
      if id !in nodeids {
        return Some(UnexpectedForeignKey(id));
      }
      var node := nodeids[id];
      node.children := node.children + [n];
      forall i | 0 <= i < |nodes| ensures nodes[i].children == DealtSome(keys[..j + 1], neighbors[..j + 1], ids, i) {
        DealtSomePrefix(keys, neighbors, ids, i, j);
      }
      j := j + 1;
    }
    assert keys[..j] == keys && neighbors[..j] == neighbors;
    return None;
  }

  // ----- one-to-many: account_groups

  ghost predicate MemberForest(nodes: seq<AccountGroup>, graph: set<object>, trees: seq<AccountGroupTree>)
    reads Members(nodes), graph
  {
    && |nodes| == |trees|
    && forall i :: 0 <= i < |nodes| ==> MemberRooted(nodes[i], graph, trees[i])
  }

  ghost predicate MemberRooted(n: AccountGroup, graph: set<object>, tree: AccountGroupTree)
    reads n, graph
  {
    n in graph && n.Repr <= graph && n.Valid() && n.Tree() == tree
  }

  ghost predicate MembersAre(n: Account, graph: set<object>, ts: seq<AccountGroupTree>)
    reads n`accountGroups, graph
  {
    && |n.accountGroups| == |ts|
    && forall j :: 0 <= j < |ts| ==> n.accountGroups[j] in graph && MemberRooted(n.accountGroups[j], graph, ts[j])
  }

  function Members(nodes: seq<AccountGroup>): set<AccountGroup> {
    set n | n in nodes
  }

  method LoadAccountGroups(db: Db, q: AccountGroupPlan, nodes: seq<Account>) returns (err: Option<Error>, ghost graph: set<object>)
    requires Distinct(nodes) && db.Columned()
    modifies Nodes(nodes)`accountGroups
    ensures fresh(graph)
    ensures WellFormedGroups(db, q) ==> err.None?
    ensures err.Some? ==> IsPrepareError(err.value)
    ensures err.None? ==> forall i :: 0 <= i < |nodes| ==> MembersAre(nodes[i], graph, BatchMembers(db, q, Rows(nodes), i))
    decreases q.w, 30
  {
    var ids := seq(|nodes|, i requires 0 <= i < |nodes| => nodes[i].row.id);
    assert ids == AccountIds(Rows(nodes));
    var fks, nodeids, at := IndexById(nodes, ids);
    forall n | n in Nodes(nodes) {
      n.accountGroups := [];
    }
    var query := q.(s := Constrain(q.s.(fields := WithField(q.s.fields, AccountId)), MemberIdIn(fks)));
    MembersAccepted(db, q, ids);
    var found;
    found, graph := AllAccountGroups(db, query);
    if found.Err? {
      return Some(found.error), graph;
    }
    var neighbors := found.value;
    ghost var trees := BatchAccountGroups(db, query);
    MembersFound(db, q, ids, neighbors, graph);
    IndexedDeals(nodes, ids, nodeids, at);
    err := AssignMembers(nodes, ids, nodeids, neighbors);
    forall i | 0 <= i < |nodes| ensures MembersAre(nodes[i], graph, BatchMembers(db, q, Rows(nodes), i)) {
      DealtMembers(neighbors, graph, trees, ids, i);
    }
  }

  lemma MembersAccepted(db: Db, q: AccountGroupPlan, ids: seq<int>)
    requires db.Columned()
    ensures WellFormedGroups(db, q) ==> WellFormedGroups(db, MembersOf(q, ids))
  {
  }

  lemma MembersFound(db: Db, q: AccountGroupPlan, ids: seq<int>, neighbors: seq<AccountGroup>, graph: set<object>)
    requires db.Columned()
    requires MemberForest(neighbors, graph, BatchAccountGroups(db, MembersOf(q, ids)))
    ensures forall n :: n in neighbors ==> n.row.accountId in ids
  {
    var query := MembersOf(q, ids);
    var s := q.s.(fields := WithField(q.s.fields, AccountId));
    var rows := Fetch(db.accountGroups.rows, Prepared(query.s));
    forall j | 0 <= j < |neighbors| ensures neighbors[j].row.accountId in ids {
      FetchHolds(db.accountGroups.rows, s, MemberIdIn(ids), rows[j]);
      assert neighbors[j].Tree().row == AccountGroupNodes(db, query)[j];
    }
  }

  lemma DealtMembers(neighbors: seq<AccountGroup>, graph: set<object>, trees: seq<AccountGroupTree>, ids: seq<int>, i: nat)
    requires MemberForest(neighbors, graph, trees) && i < |ids|
    ensures MemberIds(MemberRows(neighbors)) == TreeMembers(trees)
    ensures var ns := Dealt(TreeMembers(trees), neighbors, ids, i);
            var ts := Dealt(TreeMembers(trees), trees, ids, i);
            |ns| == |ts| && forall j :: 0 <= j < |ts| ==> ns[j] in graph && MemberRooted(ns[j], graph, ts[j])
  {
    assert forall j :: 0 <= j < |trees| ==> neighbors[j].Tree().row == trees[j].row;
    assert MemberIds(MemberRows(neighbors)) == TreeMembers(trees);
    var idx := Positions(TreeMembers(trees), ids[i]);
    assert forall j :: 0 <= j < |idx| ==> MemberRooted(neighbors[idx[j]], graph, trees[idx[j]]);
  }

  method AssignMembers(nodes: seq<Account>, ids: seq<int>, nodeids: map<int, Account>, neighbors: seq<AccountGroup>) returns (err: Option<Error>)
    requires |ids| == |nodes| && Distinct(nodes) && Deals(nodes, ids, nodeids)
    requires forall n :: n in nodes ==> n.accountGroups == []
    modifies Nodes(nodes)`accountGroups
    ensures err.None? <==> forall n :: n in neighbors ==> n.row.accountId in nodeids
    ensures err.None? ==> forall i :: 0 <= i < |nodes| ==>
      nodes[i].accountGroups == Dealt(MemberIds(MemberRows(neighbors)), neighbors, ids, i)
  {
    ghost var keys := MemberIds(MemberRows(neighbors));
    var j := 0;
    while j < |neighbors|
      invariant 0 <= j <= |neighbors|
      invariant forall n :: n in neighbors[..j] ==> n.row.accountId in nodeids
      invariant forall i :: 0 <= i < |nodes| ==> nodes[i].accountGroups == Dealt(keys[..j], neighbors[..j], ids, i)
    {
      var n := neighbors[j];
      var fk := n.row.accountId;
      if fk !in nodeids {
        return Some(UnexpectedForeignKey(fk));
      }
      var node := nodeids[fk];
      node.accountGroups := node.accountGroups + [n];
      forall i | 0 <= i < |nodes| ensures nodes[i].accountGroups == Dealt(keys[..j + 1], neighbors[..j + 1], ids, i) {
        DealtPrefix(keys, neighbors, ids, i, j);
      }
      j := j + 1;
    }
    assert keys[..j] == keys && neighbors[..j] == neighbors;
    return None;
  }

  // ----- the account_groups query and its two many-to-one edges

  ghost predicate AccountIs(n: AccountGroup, graph: set<object>, t: Option<AccountTree>)
    reads n`account, graph
  {
    if t.None? then n.account == null
    else n.account != null && n.account in graph && Rooted(n.account, graph, t.value)
  }

  method LoadMemberAccount(db: Db, q: AccountPlan, nodes: seq<AccountGroup>) returns (err: Option<Error>, ghost graph: set<object>)
    requires Distinct(nodes) && db.Columned()
    requires forall n :: n in nodes ==> n.account == null
    modifies Members(nodes)`account
    ensures fresh(graph)
    ensures WellFormed(db, q) ==> err.None?
    ensures err.Some? ==> IsPrepareError(err.value)
    ensures err.None? ==> forall i :: 0 <= i < |nodes| ==> AccountIs(nodes[i], graph, BatchMemberAccount(db, q, MemberRows(nodes), i))
    decreases q.w, 30
  {
    var fks := seq(|nodes|, i requires 0 <= i < |nodes| => Some(nodes[i].row.accountId));
    assert fks == MemberKeys(MemberRows(nodes));
    var ids, nodeids := IndexByForeignKey(nodes, fks);
    NoKeysNoNodes(fks);
    if |ids| == 0 {
      return None, {};
    }
    err, graph := FetchMemberAccounts(db, q, nodes, fks, ids, nodeids);
  }

  /** The accounts query, constrained to the ids, and the assignment of its result. */
  method FetchMemberAccounts(db: Db, q: AccountPlan, nodes: seq<AccountGroup>, fks: seq<Option<int>>, ids: seq<int>, nodeids: map<int, seq<AccountGroup>>)
    returns (err: Option<Error>, ghost graph: set<object>)
    requires Distinct(nodes) && db.Columned() && fks == MemberKeys(MemberRows(nodes)) && ids == FirstKeys(fks)
    requires nodeids.Keys == (set k | k in ids) && forall k :: k in nodeids ==> nodeids[k] == Pick(fks, nodes, Some(k))
    requires forall n :: n in nodes ==> n.account == null
    modifies Members(nodes)`account
    ensures fresh(graph)
    ensures WellFormed(db, q) ==> err.None?
    ensures err.Some? ==> IsPrepareError(err.value)
    ensures err.None? ==> forall i :: 0 <= i < |nodes| ==> AccountIs(nodes[i], graph, BatchMemberAccount(db, q, MemberRows(nodes), i))
    decreases q.w, 25
  {
    var found;
    found, graph := FetchAccounts(db, q.(s := Constrain(q.s, AccountIdIn(ids))));
    if found.Err? {
      return Some(found.error), graph;
    }
    var neighbors := found.value;
    AccountsFound(db, q, ids, neighbors, graph);
    err := AssignMemberAccounts(nodes, fks, nodeids, neighbors);
    ChosenAccounts(db, q, nodes, neighbors, graph);
  }

  lemma ChosenAccounts(db: Db, q: AccountPlan, nodes: seq<AccountGroup>, neighbors: seq<Account>, graph: set<object>)
    requires Forest(neighbors, graph, BatchAccounts(db, q.(s := Constrain(q.s, AccountIdIn(FirstKeys(MemberKeys(MemberRows(nodes))))))))
    requires forall i :: 0 <= i < |nodes| ==> IsAccount(nodes[i].account, OneOf(AccountIds(Rows(neighbors)), neighbors, MemberKeys(MemberRows(nodes))[i]))
    ensures forall i :: 0 <= i < |nodes| ==> AccountIs(nodes[i], graph, BatchMemberAccount(db, q, MemberRows(nodes), i))
  {
    forall i | 0 <= i < |nodes| ensures AccountIs(nodes[i], graph, BatchMemberAccount(db, q, MemberRows(nodes), i)) {
      ChosenAccount(db, q, nodes, neighbors, graph, i);
    }
  }

  lemma ChosenAccount(db: Db, q: AccountPlan, nodes: seq<AccountGroup>, neighbors: seq<Account>, graph: set<object>, i: nat)
    requires i < |nodes|
    requires Forest(neighbors, graph, BatchAccounts(db, q.(s := Constrain(q.s, AccountIdIn(FirstKeys(MemberKeys(MemberRows(nodes))))))))
    requires IsAccount(nodes[i].account, OneOf(AccountIds(Rows(neighbors)), neighbors, MemberKeys(MemberRows(nodes))[i]))
    ensures AccountIs(nodes[i], graph, BatchMemberAccount(db, q, MemberRows(nodes), i))
  {
    var trees := BatchAccounts(db, q.(s := Constrain(q.s, AccountIdIn(FirstKeys(MemberKeys(MemberRows(nodes)))))));
    ChosenTree(neighbors, graph, trees, MemberKeys(MemberRows(nodes))[i]);
  }

  /** A key column without nulls has no keys only if it has no rows. */
  lemma NoKeysNoNodes(fks: seq<Option<int>>)
    requires forall i :: 0 <= i < |fks| ==> fks[i].Some?
    ensures |FirstKeys(fks)| == 0 ==> |fks| == 0
  {
    if |fks| > 0 {
      assert fks[0] in fks;
      assert fks[0].value in FirstKeys(fks);
    }
  }

  method GiveAccount(nodes: seq<AccountGroup>, fks: seq<Option<int>>, k: int, bucket: seq<AccountGroup>, n: Account)
    requires |fks| == |nodes| && Distinct(nodes) && bucket == Pick(fks, nodes, Some(k))
    modifies Members(nodes)`account
    ensures forall i :: 0 <= i < |nodes| ==> nodes[i].account == if fks[i] == Some(k) then n else old(nodes[i].account)
  {
    for b := 0 to |bucket|
      invariant forall i :: 0 <= i < |nodes| ==> nodes[i].account == if nodes[i] in bucket[..b] then n else old(nodes[i].account)
    {
      bucket[b].account := n;
    }
    forall i | 0 <= i < |nodes| ensures nodes[i] in bucket <==> fks[i] == Some(k) {
      BucketMember(nodes, fks, Some(k), i);
    }
  }

  method AssignMemberAccounts(nodes: seq<AccountGroup>, fks: seq<Option<int>>, nodeids: map<int, seq<AccountGroup>>, neighbors: seq<Account>)
    returns (err: Option<Error>)
    requires |fks| == |nodes| && Distinct(nodes)
    requires forall k :: k in nodeids ==> nodeids[k] == Pick(fks, nodes, Some(k))
    requires forall n :: n in nodes ==> n.account == null
    modifies Members(nodes)`account
    ensures err.None? <==> forall n :: n in neighbors ==> n.row.id in nodeids
    ensures err.None? ==> forall i :: 0 <= i < |nodes| ==> IsAccount(nodes[i].account, OneOf(AccountIds(Rows(neighbors)), neighbors, fks[i]))
  {
    ghost var keys := AccountIds(Rows(neighbors));
    var j := 0;
    while j < |neighbors|
      invariant 0 <= j <= |neighbors|
      invariant forall n :: n in neighbors[..j] ==> n.row.id in nodeids
      invariant forall i :: 0 <= i < |nodes| ==> IsAccount(nodes[i].account, OneOf(keys[..j], neighbors[..j], fks[i]))
    {
      var n := neighbors[j];
      var id := n.row.id;
      if id !in nodeids {
        return Some(UnexpectedForeignKey(id));
      }
      GiveAccount(nodes, fks, id, nodeids[id], n);
      forall i | 0 <= i < |nodes| ensures IsAccount(nodes[i].account, OneOf(keys[..j + 1], neighbors[..j + 1], fks[i])) {
        OneOfPrefix(keys, neighbors, fks[i], j);
      }
      j := j + 1;
    }
    assert keys[..j] == keys && neighbors[..j] == neighbors;
    return None;
  }

  method LoadMemberGroup(db: Db, s: Settings<LeafRow>, nodes: seq<AccountGroup>) returns (err: Option<Error>)
    requires Distinct(nodes) && db.Columned()
    requires forall n :: n in nodes ==> n.group == null
    modifies Members(nodes)`group
    ensures Accepted(s, db.groups.columns) ==> err.None?
    ensures err.Some? ==> IsPrepareError(err.value)
    ensures err.None? ==> forall i :: 0 <= i < |nodes| ==> LeafRowOf(nodes[i].group) == BatchMemberGroup(db, s, MemberRows(nodes), i)
  {
    var fks := seq(|nodes|, i requires 0 <= i < |nodes| => Some(nodes[i].row.groupId));
    assert fks == GroupKeys(MemberRows(nodes));
    var ids, nodeids := IndexByForeignKey(nodes, fks);
    NoKeysNoNodes(fks);
    if |ids| == 0 {
      return None;
    }
    var query := Constrain(s, LeafIdIn(ids));
    var found := AllLeaves(db.groups, query);
    if found.Err? {
      return Some(found.error);
    }
    var neighbors := found.value;
    LeavesFound(db.groups, s, ids);
    assert forall n :: n in neighbors ==> n.row in LeafRows(neighbors);
    err := AssignMemberGroups(nodes, fks, nodeids, neighbors);
    forall i | 0 <= i < |nodes| ensures LeafRowOf(nodes[i].group) == BatchMemberGroup(db, s, MemberRows(nodes), i) {
      ChosenGroup(db, s, nodes, neighbors, i);
    }
  }

  lemma ChosenGroup(db: Db, s: Settings<LeafRow>, nodes: seq<AccountGroup>, neighbors: seq<Leaf>, i: nat)
    requires i < |nodes|
    requires LeafRows(neighbors) == BatchLeaves(db.groups, Constrain(s, LeafIdIn(FirstKeys(GroupKeys(MemberRows(nodes))))))
    requires IsLeaf(nodes[i].group, OneOf(LeafIds(LeafRows(neighbors)), neighbors, GroupKeys(MemberRows(nodes))[i]))
    ensures LeafRowOf(nodes[i].group) == BatchMemberGroup(db, s, MemberRows(nodes), i)
  {
  }

  method GiveGroup(nodes: seq<AccountGroup>, fks: seq<Option<int>>, k: int, bucket: seq<AccountGroup>, n: Leaf)
    requires |fks| == |nodes| && Distinct(nodes) && bucket == Pick(fks, nodes, Some(k))
    modifies Members(nodes)`group
    ensures forall i :: 0 <= i < |nodes| ==> nodes[i].group == if fks[i] == Some(k) then n else old(nodes[i].group)
  {
    for b := 0 to |bucket|
      invariant forall i :: 0 <= i < |nodes| ==> nodes[i].group == if nodes[i] in bucket[..b] then n else old(nodes[i].group)
    {
      bucket[b].group := n;
    }
    forall i | 0 <= i < |nodes| ensures nodes[i] in bucket <==> fks[i] == Some(k) {
      BucketMember(nodes, fks, Some(k), i);
    }
  }

  method AssignMemberGroups(nodes: seq<AccountGroup>, fks: seq<Option<int>>, nodeids: map<int, seq<AccountGroup>>, neighbors: seq<Leaf>)
    returns (err: Option<Error>)
    requires |fks| == |nodes| && Distinct(nodes)
    requires forall k :: k in nodeids ==> nodeids[k] == Pick(fks, nodes, Some(k))
    requires forall n :: n in nodes ==> n.group == null
    modifies Members(nodes)`group
    ensures err.None? <==> forall n :: n in neighbors ==> n.row.id in nodeids
    ensures err.None? ==> forall i :: 0 <= i < |nodes| ==> IsLeaf(nodes[i].group, OneOf(LeafIds(LeafRows(neighbors)), neighbors, fks[i]))
  {
    ghost var keys := LeafIds(LeafRows(neighbors));
    var j := 0;
    while j < |neighbors|
      invariant 0 <= j <= |neighbors|
      invariant forall n :: n in neighbors[..j] ==> n.row.id in nodeids
      invariant forall i :: 0 <= i < |nodes| ==> IsLeaf(nodes[i].group, OneOf(keys[..j], neighbors[..j], fks[i]))
    {
      var n := neighbors[j];
      if n.row.id !in nodeids {
        return Some(UnexpectedForeignKey(n.row.id));
      }
      GiveGroup(nodes, fks, n.row.id, nodeids[n.row.id], n);
      forall i | 0 <= i < |nodes| ensures IsLeaf(nodes[i].group, OneOf(keys[..j + 1], neighbors[..j + 1], fks[i])) {
        OneOfPrefix(keys, neighbors, fks[i], j);
      }
      j := j + 1;
    }
    assert keys[..j] == keys && neighbors[..j] == neighbors;
    return None;
  }

  method AllAccountGroups(db: Db, q: AccountGroupPlan) returns (r: Result<seq<AccountGroup>, Error>, ghost graph: set<object>)
    requires db.Columned()
    ensures fresh(graph)
    ensures WellFormedGroups(db, q) ==> r.Ok?
    ensures r.Err? ==> IsPrepareError(r.error)
    ensures r.Ok? ==> Distinct(r.value) && MemberForest(r.value, graph, BatchAccountGroups(db, q))
    ensures r.Ok? ==> MembersRead(MemberRows(r.value), db, q)
    decreases q.w, 20
  {
    graph := {};
    MembersAreRead(db, q);
    var prepared := PrepareQuery(q.s, db.accountGroups.columns);
    if prepared.Err? {
      return Err(prepared.error), graph;
    }
    var rows := Fetch(db.accountGroups.rows, prepared.value);
    var cols := AccountGroupSpecColumns(q.s.fields, db.accountGroups.columns, q.w.account.Some?, q.w.group.Some?);
    var nodes := NewMembers(cols, rows, q.w.account.Some?, q.w.group.Some?);
    assert MemberRows(nodes) == AccountGroupNodes(db, q);
    if |nodes| == 0 {
      return Ok(nodes), graph;
    }
    var err;
    err, graph := LoadMemberEdges(db, q.w, nodes);
    if err.Some? {
      return Err(err.value), graph;
    }
    SealMembers(nodes, graph);
    MemberTrees(db, q.w, nodes, graph);
    graph := graph + Members(nodes);
    return Ok(nodes), graph;
  }

  /** Everything MemberTree needs to know about a node once its edges are loaded. */
  ghost predicate MemberReady(db: Db, w: AccountGroupWith, nodes: seq<AccountGroup>, i: nat, graph: set<object>)
    requires i < |nodes|
    reads Members(nodes)`account, Members(nodes)`group, graph
  {
    var n := nodes[i];
    && n.loadedAccount == w.account.Some? && n.loadedGroup == w.group.Some?
    && AccountIs(n, graph, if w.account.Some? then BatchMemberAccount(db, w.account.value, MemberRows(nodes), i) else None)
    && (w.group.Some? ==> LeafRowOf(n.group) == BatchMemberGroup(db, w.group.value, MemberRows(nodes), i))
  }

  method LoadMemberEdges(db: Db, w: AccountGroupWith, nodes: seq<AccountGroup>) returns (err: Option<Error>, ghost graph: set<object>)
    requires Distinct(nodes) && db.Columned()
    requires forall n :: n in nodes ==> n.account == null && n.group == null && n.loadedAccount == w.account.Some? && n.loadedGroup == w.group.Some?
    modifies Members(nodes)`account, Members(nodes)`group
    ensures fresh(graph)
    ensures (w.account.Some? ==> WellFormed(db, w.account.value)) && (w.group.Some? ==> Accepted(w.group.value, db.groups.columns)) ==> err.None?
    ensures err.Some? ==> IsPrepareError(err.value)
    ensures err.None? ==> forall i :: 0 <= i < |nodes| ==> MemberReady(db, w, nodes, i, graph)
    decreases w, 12
  {
    err, graph := None, {};
    if w.account.Some? {
      err, graph := LoadMemberAccount(db, w.account.value, nodes);
      if err.Some? {
        return;
      }
    }
    if w.group.Some? {
      err := LoadMemberGroup(db, w.group.value, nodes);
    }
  }

  method AccountGroupSpecColumns(fields: seq<Column>, all: seq<Column>, account: bool, group: bool) returns (cols: seq<Column>)
    ensures cols == AccountGroupColumns(fields, all, account, group)
  {
    if fields == [] {
      return all;
    }
    cols := fields;
    if account {
      cols := AddOnce(cols, AccountId);
    }
    if group {
      cols := AddOnce(cols, GroupId);
    }
  }

  method NewMembers(cols: seq<Column>, rows: seq<AccountGroupRow>, account: bool, group: bool) returns (nodes: seq<AccountGroup>)
    ensures MemberRows(nodes) == Schema.LoadAccountGroups(cols, rows) && Distinct(nodes)
    ensures forall n :: n in nodes ==> fresh(n) && n.account == null && n.group == null && n.loadedAccount == account && n.loadedGroup == group
  {
    nodes := [];
    for i := 0 to |rows|
      invariant |nodes| == i && Distinct(nodes)
      invariant forall j :: 0 <= j < i ==> fresh(nodes[j]) && nodes[j].row == LoadAccountGroup(cols, rows[j])
      invariant forall j :: 0 <= j < i ==> nodes[j].account == null && nodes[j].group == null
      invariant forall j :: 0 <= j < i ==> nodes[j].loadedAccount == account && nodes[j].loadedGroup == group
    {
      var n := new AccountGroup(cols, rows[i], account, group);
      nodes := nodes + [n];
    }
  }

  ghost method SealMembers(nodes: seq<AccountGroup>, graph: set<object>)
    modifies Members(nodes)`Repr
    ensures forall n :: n in nodes ==> n.Repr == {n} + graph
  {
    forall n | n in Members(nodes) {
      n.Repr := {n} + graph;
    }
  }

  lemma MemberTrees(db: Db, w: AccountGroupWith, nodes: seq<AccountGroup>, graph: set<object>)
    requires forall i :: 0 <= i < |nodes| ==> MemberReady(db, w, nodes, i, graph)
    requires forall n :: n in nodes ==> n !in graph && n.Repr == {n} + graph
    ensures forall i :: 0 <= i < |nodes| ==>
      MemberRooted(nodes[i], graph + Members(nodes), BatchAccountGroup(db, w, MemberRows(nodes), i))
  {
    forall i | 0 <= i < |nodes|
      ensures MemberRooted(nodes[i], graph + Members(nodes), BatchAccountGroup(db, w, MemberRows(nodes), i))
    {
      MemberTree(db, w, nodes, i, graph);
    }
  }

  lemma MemberTree(db: Db, w: AccountGroupWith, nodes: seq<AccountGroup>, i: nat, graph: set<object>)
    requires i < |nodes| && MemberReady(db, w, nodes, i, graph)
    requires nodes[i] !in graph && nodes[i].Repr == {nodes[i]} + graph
    ensures nodes[i].Valid() && nodes[i].Tree() == BatchAccountGroup(db, w, MemberRows(nodes), i)
  {
  }

  // ----- the accounts query

  /**
   All followed by sqlAll: prepare the query, build one node per row, load the requested edges in order.
   `graph` collects every node allocated on the way.
   */
  method AllAccounts(db: Db, q: AccountPlan) returns (r: Result<seq<Account>, Error>, ghost graph: set<object>)
    requires db.Columned()
    ensures fresh(graph)
    ensures WellFormed(db, q) ==> r.Ok?
    ensures !Accepted(q.s, db.accounts.columns) ==> r.Err?
    ensures r.Err? ==> IsPrepareError(r.error)
    ensures r.Ok? ==> Distinct(r.value) && Forest(r.value, graph, BatchAccounts(db, q))
    ensures r.Ok? ==> AccountsRead(Rows(r.value), db, q)
    decreases q.w, 20
  {
    graph := {};
    var prepared := PrepareQuery(q.s, db.accounts.columns);
    if prepared.Err? {
      return Err(prepared.error), graph;
    }
    r, graph := SqlAll(db, q, prepared.value);
    AccountsAreRead(db, q);
  }

  /** sqlAll, on a prepared query. */
  method SqlAll(db: Db, q: AccountPlan, s: Settings<AccountRow>) returns (r: Result<seq<Account>, Error>, ghost graph: set<object>)
    requires db.Columned() && s == Prepared(q.s)
    ensures fresh(graph)
    ensures WellFormedWith(db, q.w) ==> r.Ok?
    ensures r.Err? ==> IsPrepareError(r.error)
    ensures r.Ok? ==> Distinct(r.value) && Forest(r.value, graph, BatchAccounts(db, q)) && Rows(r.value) == AccountNodes(db, q)
    decreases q.w, 19
  {
    graph := {};
    var rows := Fetch(db.accounts.rows, s);
    var cols := AccountSpecColumns(q.s.fields, db.accounts.columns, q.w.proxy.Some?, q.w.parent.Some?);
    var nodes := NewAccounts(cols, rows, LoadedOf(q.w));
    assert Rows(nodes) == AccountNodes(db, q);
    if |nodes| == 0 {
      return Ok(nodes), graph;
    }
    var err;
    err, graph := LoadAll(db, q.w, nodes);
    if err.Some? {
      return Err(err.value), {};
    }
    return Ok(nodes), graph;
  }

  /** `query.All(ctx)` in a loader: the graph of the neighbours. */
  method FetchAccounts(db: Db, q: AccountPlan) returns (r: Result<seq<Account>, Error>, ghost graph: set<object>)
    requires db.Columned()
    ensures fresh(graph)
    ensures WellFormed(db, q) ==> r.Ok?
    ensures r.Err? ==> IsPrepareError(r.error)
    ensures r.Ok? ==> Distinct(r.value) && Forest(r.value, graph, BatchAccounts(db, q))
    decreases q.w, 21
  {
    r, graph := AllAccounts(db, q);
  }

  /** All edges of the nodes, and the graph they make. */
  method LoadAll(db: Db, w: AccountWith, nodes: seq<Account>) returns (err: Option<Error>, ghost graph: set<object>)
    requires Distinct(nodes) && db.Columned()
    requires forall n :: n in nodes ==> n.loaded == LoadedOf(w) && n.proxy == null && n.parent == null && n.children == [] && n.accountGroups == []
    modifies Nodes(nodes)
    ensures fresh(graph - Nodes(nodes))
    ensures WellFormedWith(db, w) ==> err.None?
    ensures err.Some? ==> IsPrepareError(err.value)
    ensures err.None? ==> forall i :: 0 <= i < |nodes| ==> Rooted(nodes[i], graph, BatchNode(db, w, Rows(nodes), i))
    decreases w, 14
  {
    graph := {};
    ghost var parents, children, members;
    err, parents, children, members := LoadEdges(db, w, nodes);
    if err.Some? {
      return;
    }
    graph := parents + children + members;
    Seal(nodes, graph);
    AccountTrees(db, w, nodes, parents, children, members);
    graph := graph + Nodes(nodes);
  }

  function LoadedOf(w: AccountWith): Loaded {
    Loaded(w.groups.Some?, w.proxy.Some?, w.parent.Some?, w.children.Some?, w.usageLogs.Some?, w.accountGroups.Some?)
  }

  method NewAccounts(cols: seq<Column>, rows: seq<AccountRow>, loaded: Loaded) returns (nodes: seq<Account>)
    ensures Rows(nodes) == LoadAccounts(cols, rows) && Distinct(nodes)
    ensures forall n :: n in nodes ==> fresh(n) && n.loaded == loaded
    ensures forall n :: n in nodes ==>
      n.groups == [] && n.proxy == null && n.parent == null && n.children == [] && n.usageLogs == [] && n.accountGroups == []
  {
    nodes := [];
    for i := 0 to |rows|
      invariant |nodes| == i && Distinct(nodes)
      invariant forall j :: 0 <= j < i ==> fresh(nodes[j]) && nodes[j].row == LoadAccount(cols, rows[j]) && nodes[j].loaded == loaded
      invariant forall n :: n in nodes ==>
        n.groups == [] && n.proxy == null && n.parent == null && n.children == [] && n.usageLogs == [] && n.accountGroups == []
    {
      var n := new Account(cols, rows[i], loaded);
      nodes := nodes + [n];
    }
  }

  // The edges of node `i` are what batched evaluation says, edge by edge; an edge not asked for is empty.

  ghost predicate GroupsReady(db: Db, w: AccountWith, nodes: seq<Account>, i: nat)
    requires i < |nodes|
    reads Nodes(nodes)`groups
  {
    w.groups.Some? ==> LeafRows(nodes[i].groups) == BatchGroupList(db, w.groups.value, Rows(nodes), i)
  }

  ghost predicate ProxyReady(db: Db, w: AccountWith, nodes: seq<Account>, i: nat)
    requires i < |nodes|
    reads Nodes(nodes)`proxy
  {
    LeafRowOf(nodes[i].proxy) == if w.proxy.Some? then BatchProxy(db, w.proxy.value, Rows(nodes), i) else None
  }

  ghost predicate ParentReady(db: Db, w: AccountWith, nodes: seq<Account>, i: nat, parents: set<object>)
    requires i < |nodes|
    reads Nodes(nodes)`parent, parents
  {
    ParentIs(nodes[i], parents, if w.parent.Some? then BatchParent(db, w.parent.value, Rows(nodes), i) else None)
  }

  ghost predicate ChildrenReady(db: Db, w: AccountWith, nodes: seq<Account>, i: nat, children: set<object>)
    requires i < |nodes|
    reads Nodes(nodes)`children, children
  {
    ChildrenAre(nodes[i], children, if w.children.Some? then BatchChildren(db, w.children.value, Rows(nodes), i) else [])
  }

  ghost predicate UsageLogsReady(db: Db, w: AccountWith, nodes: seq<Account>, i: nat)
    requires i < |nodes|
    reads Nodes(nodes)`usageLogs
  {
    w.usageLogs.Some? ==> LeafRows(nodes[i].usageLogs) == BatchUsageLogs(db, w.usageLogs.value, Rows(nodes), i)
  }

  ghost predicate MembersReady(db: Db, w: AccountWith, nodes: seq<Account>, i: nat, members: set<object>)
    requires i < |nodes|
    reads Nodes(nodes)`accountGroups, members
  {
    MembersAre(nodes[i], members, if w.accountGroups.Some? then BatchMembers(db, w.accountGroups.value, Rows(nodes), i) else [])
  }

  ghost predicate FirstReady(db: Db, w: AccountWith, nodes: seq<Account>, i: nat, parents: set<object>)
    requires i < |nodes|
    reads Nodes(nodes)`groups, Nodes(nodes)`proxy, Nodes(nodes)`parent, parents
  {
    GroupsReady(db, w, nodes, i) && ProxyReady(db, w, nodes, i) && ParentReady(db, w, nodes, i, parents)
  }

  ghost predicate LastReady(db: Db, w: AccountWith, nodes: seq<Account>, i: nat, children: set<object>, members: set<object>)
    requires i < |nodes|
    reads Nodes(nodes)`children, Nodes(nodes)`usageLogs, Nodes(nodes)`accountGroups, children, members
  {
    ChildrenReady(db, w, nodes, i, children) && UsageLogsReady(db, w, nodes, i) && MembersReady(db, w, nodes, i, members)
  }

  method LoadEdges(db: Db, w: AccountWith, nodes: seq<Account>)
    returns (err: Option<Error>, ghost parents: set<object>, ghost children: set<object>, ghost members: set<object>)
    requires Distinct(nodes) && db.Columned()
    requires forall n :: n in nodes ==> n.proxy == null && n.parent == null && n.children == [] && n.accountGroups == []
    modifies Nodes(nodes)`groups, Nodes(nodes)`proxy, Nodes(nodes)`parent,
             Nodes(nodes)`children, Nodes(nodes)`usageLogs, Nodes(nodes)`accountGroups
    ensures fresh(parents) && fresh(children) && fresh(members)
    ensures WellFormedWith(db, w) ==> err.None?
    ensures err.Some? ==> IsPrepareError(err.value)
    ensures err.None? ==> forall i :: 0 <= i < |nodes| ==>
      FirstReady(db, w, nodes, i, parents) && LastReady(db, w, nodes, i, children, members)
    decreases w, 13
  {
    children, members := {}, {};
    err, parents := LoadFirst(db, w, nodes);
    if err.Some? {
      return;
    }
    err, children, members := LoadLast(db, w, nodes);
  }

  method LoadFirst(db: Db, w: AccountWith, nodes: seq<Account>) returns (err: Option<Error>, ghost parents: set<object>)
    requires Distinct(nodes) && db.Columned()
    requires forall n :: n in nodes ==> n.proxy == null && n.parent == null
    modifies Nodes(nodes)`groups, Nodes(nodes)`proxy, Nodes(nodes)`parent
    ensures fresh(parents)
    ensures WellFormedWith(db, w) ==> err.None?
    ensures err.Some? ==> IsPrepareError(err.value)
    ensures err.None? ==> forall i :: 0 <= i < |nodes| ==> FirstReady(db, w, nodes, i, parents)
    decreases w, 12
  {
    err, parents := None, {};
    if w.groups.Some? {
      err := LoadGroups(db, w.groups.value, nodes);
      if err.Some? {
        return;
      }
    }
    if w.proxy.Some? {
      err := LoadProxy(db, w.proxy.value, nodes);
      if err.Some? {
        return;
      }
    }
    if w.parent.Some? {
      err, parents := LoadParent(db, w.parent.value, nodes);
    }
  }

  method LoadLast(db: Db, w: AccountWith, nodes: seq<Account>)
    returns (err: Option<Error>, ghost children: set<object>, ghost members: set<object>)
    requires Distinct(nodes) && db.Columned()
    requires forall n :: n in nodes ==> n.children == [] && n.accountGroups == []
    modifies Nodes(nodes)`children, Nodes(nodes)`usageLogs, Nodes(nodes)`accountGroups
    ensures fresh(children) && fresh(members)
    ensures WellFormedWith(db, w) ==> err.None?
    ensures err.Some? ==> IsPrepareError(err.value)
    ensures err.None? ==> forall i :: 0 <= i < |nodes| ==> LastReady(db, w, nodes, i, children, members)
    decreases w, 12
  {
    members := {};
    err, children := ChildrenIfAsked(db, w, nodes);
    if err.Some? {
      return;
    }
    err, members := LogsAndMembers(db, w, nodes);
  }

  method ChildrenIfAsked(db: Db, w: AccountWith, nodes: seq<Account>) returns (err: Option<Error>, ghost children: set<object>)
    requires Distinct(nodes) && db.Columned()
    requires forall n :: n in nodes ==> n.children == []
    modifies Nodes(nodes)`children
    ensures fresh(children)
    ensures WellFormedWith(db, w) ==> err.None?
    ensures err.Some? ==> IsPrepareError(err.value)
    ensures err.None? ==> forall i :: 0 <= i < |nodes| ==> ChildrenReady(db, w, nodes, i, children)
    decreases w, 11
  {
    err, children := None, {};
    if w.children.Some? {
      err, children := LoadChildren(db, w.children.value, nodes);
    }
  }

  method LogsAndMembers(db: Db, w: AccountWith, nodes: seq<Account>) returns (err: Option<Error>, ghost members: set<object>)
    requires Distinct(nodes) && db.Columned()
    requires forall n :: n in nodes ==> n.accountGroups == []
    modifies Nodes(nodes)`usageLogs, Nodes(nodes)`accountGroups
    ensures fresh(members)
    ensures WellFormedWith(db, w) ==> err.None?
    ensures err.Some? ==> IsPrepareError(err.value)
    ensures err.None? ==> forall i :: 0 <= i < |nodes| ==> UsageLogsReady(db, w, nodes, i) && MembersReady(db, w, nodes, i, members)
    decreases w, 11
  {
    err, members := None, {};
    if w.usageLogs.Some? {
      err := LoadUsageLogs(db, w.usageLogs.value, nodes);
      if err.Some? {
        return;
      }
    }
    if w.accountGroups.Some? {
      err, members := LoadAccountGroups(db, w.accountGroups.value, nodes);
    }
  }

  ghost method Seal(nodes: seq<Account>, graph: set<object>)
    modifies Nodes(nodes)`Repr
    ensures forall n :: n in nodes ==> n.Repr == {n} + graph
  {
    forall n | n in Nodes(nodes) {
      n.Repr := {n} + graph;
    }
  }

  lemma AccountTrees(db: Db, w: AccountWith, nodes: seq<Account>, parents: set<object>, children: set<object>, members: set<object>)
    requires forall n :: n in nodes ==> n.loaded == LoadedOf(w)
    requires forall i :: 0 <= i < |nodes| ==> FirstReady(db, w, nodes, i, parents) && LastReady(db, w, nodes, i, children, members)
    requires var graph := parents + children + members; forall n :: n in nodes ==> n !in graph && n.Repr == {n} + graph
    ensures forall i :: 0 <= i < |nodes| ==>
      Rooted(nodes[i], parents + children + members + Nodes(nodes), BatchNode(db, w, Rows(nodes), i))
  {
    forall i | 0 <= i < |nodes|
      ensures Rooted(nodes[i], parents + children + members + Nodes(nodes), BatchNode(db, w, Rows(nodes), i))
    {
      AccountTree(db, w, nodes, i, parents, children, members);
    }
  }

  lemma AccountTree(db: Db, w: AccountWith, nodes: seq<Account>, i: nat, parents: set<object>, children: set<object>, members: set<object>)
    requires i < |nodes| && nodes[i].loaded == LoadedOf(w)
    requires FirstReady(db, w, nodes, i, parents) && LastReady(db, w, nodes, i, children, members)
    requires var graph := parents + children + members; nodes[i] !in graph && nodes[i].Repr == {nodes[i]} + graph
    ensures nodes[i].Valid() && nodes[i].Tree() == BatchNode(db, w, Rows(nodes), i)
  {
    var n := nodes[i];
    AccountValid(db, w, nodes, i, parents, children, members);
    assert n.ChildTrees() == if w.children.Some? then BatchChildren(db, w.children.value, Rows(nodes), i) else [];
    assert n.MemberTrees() == if w.accountGroups.Some? then BatchMembers(db, w.accountGroups.value, Rows(nodes), i) else [];
    GroupRows(n.groups);
  }

  lemma GroupRows(groups: seq<Leaf>)
    ensures (set g | g in groups :: g.row) == (set r | r in LeafRows(groups))
  {
  }

  lemma AccountValid(db: Db, w: AccountWith, nodes: seq<Account>, i: nat, parents: set<object>, children: set<object>, members: set<object>)
    requires i < |nodes| && nodes[i].loaded == LoadedOf(w)
    requires FirstReady(db, w, nodes, i, parents) && LastReady(db, w, nodes, i, children, members)
    requires var graph := parents + children + members; nodes[i] !in graph && nodes[i].Repr == {nodes[i]} + graph
    ensures nodes[i].Valid()
  {
  }
}

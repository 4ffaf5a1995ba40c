/**
 The relational join a plan describes, one row at a time, and the proof that batched evaluation
 computes it.
 */
module JoinTheorem {
  import opened Collections
  import opened Schema
  import opened QueryPlan
  import opened JoinSpec

  ghost function AccountIdIs(k: int): AccountRow -> bool { (r: AccountRow) => r.id == k }
  ghost function ParentIdIs(k: int): AccountRow -> bool { (r: AccountRow) => r.parentId == Some(k) }
  ghost function LeafIdIs(k: int): LeafRow -> bool { (r: LeafRow) => r.id == k }
  ghost function OwnerIdIs(k: int): LeafRow -> bool { (r: LeafRow) => r.accountId == k }
  ghost function MemberIdIs(k: int): AccountGroupRow -> bool { (r: AccountGroupRow) => r.accountId == k }

  /** The rows of one per-row join: the builder's own predicates, and the join condition for this row. */
  ghost function JoinRows<R>(table: seq<R>, s: Settings<R>, on: R -> bool): seq<R> {
    Where(s.order(table), Prepared(s).preds + [on])
  }

  ghost function LastOf<V>(s: seq<V>): Option<V> {
    if s == [] then None else Some(s[|s| - 1])
  }

  // ----- the join, row by row

  ghost function JoinTree(db: Db, fields: seq<Column>, w: AccountWith, row: AccountRow): AccountTree
    decreases w, 1
  {
    AccountTree(LoadAccount(AccountColumns(fields, db.accounts.columns, w.proxy.Some?, w.parent.Some?), row),
                if w.groups.None? then None else Some(JoinGroups(db, w.groups.value, row.id)),
                if w.proxy.None? then None else Some(JoinLeaf(db.proxies, w.proxy.value, row.proxyId)),
                if w.parent.None? then None else Some(JoinAccount(db, w.parent.value, row.parentId)),
                if w.children.None? then None else Some(JoinChildren(db, w.children.value, row.id)),
                if w.usageLogs.None? then None else Some(JoinUsageLogs(db, w.usageLogs.value, row.id)),
                if w.accountGroups.None? then None else Some(JoinMembers(db, w.accountGroups.value, row.id)))
  }

  ghost function JoinTrees(db: Db, fields: seq<Column>, w: AccountWith, rows: seq<AccountRow>): (r: seq<AccountTree>)
    ensures |r| == |rows|
    ensures forall i :: 0 <= i < |rows| ==> r[i] == JoinTree(db, fields, w, rows[i])
    decreases w, 2
  {
    seq(|rows|, i requires 0 <= i < |rows| => JoinTree(db, fields, w, rows[i]))
  }

  /** The groups related to the account that satisfy the sub-query's predicates. */
  ghost function JoinGroups(db: Db, s: Settings<LeafRow>, accountId: int): set<LeafRow> {
    set g | g in db.groups.rows && All(Prepared(s).preds, g) && Related(db.accountGroups.rows, accountId, g.id)
      :: LoadLeaf(LeafColumns(s.fields, db.groups.columns), g)
  }

  ghost function JoinLeaf(table: Table<LeafRow>, s: Settings<LeafRow>, fk: Option<int>): Option<LeafRow> {
    if fk.None? then None
    else LastOf(LoadLeaves(LeafColumns(s.fields, table.columns), JoinRows(table.rows, s, LeafIdIs(fk.value))))
  }

  ghost function JoinAccount(db: Db, q: AccountPlan, fk: Option<int>): Option<AccountTree>
    decreases q.w, 3
  {
    if fk.None? then None
    else LastOf(JoinTrees(db, q.s.fields, q.w, JoinRows(db.accounts.rows, q.s, AccountIdIs(fk.value))))
  }

  ghost function JoinChildren(db: Db, q: AccountPlan, id: int): seq<AccountTree>
    decreases q.w, 3
  {
    JoinTrees(db, WithField(q.s.fields, ParentAccountId), q.w, JoinRows(db.accounts.rows, q.s, ParentIdIs(id)))
  }

  ghost function JoinUsageLogs(db: Db, s: Settings<LeafRow>, id: int): seq<LeafRow> {
    LoadLeaves(LeafColumns(WithField(s.fields, AccountId), db.usageLogs.columns), JoinRows(db.usageLogs.rows, s, OwnerIdIs(id)))
  }

  ghost function JoinMembers(db: Db, q: AccountGroupPlan, id: int): seq<AccountGroupTree>
    decreases q.w, 3
  {
    JoinMemberTrees(db, WithField(q.s.fields, AccountId), q.w, JoinRows(db.accountGroups.rows, q.s, MemberIdIs(id)))
  }

  ghost function JoinMemberTrees(db: Db, fields: seq<Column>, w: AccountGroupWith, rows: seq<AccountGroupRow>): (r: seq<AccountGroupTree>)
    ensures |r| == |rows|
    ensures forall i :: 0 <= i < |rows| ==> r[i] == JoinMember(db, fields, w, rows[i])
    decreases w, 2
  {
    seq(|rows|, i requires 0 <= i < |rows| => JoinMember(db, fields, w, rows[i]))
  }

  ghost function JoinMember(db: Db, fields: seq<Column>, w: AccountGroupWith, row: AccountGroupRow): AccountGroupTree
    decreases w, 1
  {
    AccountGroupTree(LoadAccountGroup(AccountGroupColumns(fields, db.accountGroups.columns, w.account.Some?, w.group.Some?), row),
                     if w.account.None? then None else Some(JoinAccount(db, w.account.value, Some(row.accountId))),
                     if w.group.None? then None else Some(JoinLeaf(db.groups, w.group.value, Some(row.groupId))))
  }

  // ----- dealing out one batch is joining each row

  /** The bucket of a key in a batch is the table filtered by that key. */
  lemma {:induction false} PickWhere<R, K>(rows: seq<R>, batch: seq<R -> bool>, one: seq<R -> bool>, on: R -> bool, keys: seq<K>, k: K)
    requires forall r :: r in rows ==> (All(one, r) <==> All(batch, r) && on(r))
    requires |keys| == |Where(rows, batch)|
    requires forall i :: 0 <= i < |keys| ==> (keys[i] == k <==> on(Where(rows, batch)[i]))
    ensures Pick(keys, Where(rows, batch), k) == Where(rows, one)
  {
    if rows == [] {
      assert Positions(keys, k) == [];
    } else {
      var n := |rows| - 1;
      var all := Where(rows, batch);
      if All(batch, rows[n]) {
        var m := |all| - 1;
        assert all[..m] == Where(rows[..n], batch);
        PickWhere(rows[..n], batch, one, on, keys[..m], k);
        PickSnoc(keys, all, k);
      } else {
        PickWhere(rows[..n], batch, one, on, keys, k);
      }
    }
  }

  /** Predicates of the batched statement against those of the per-row one. */
  lemma ConstrainedPreds<R>(s: Settings<R>, wide: R -> bool, narrow: R -> bool, row: R)
    requires narrow(row) ==> wide(row)
    ensures All(Prepared(s).preds + [narrow], row) <==> All(Prepared(Constrain(s, wide)).preds, row) && narrow(row)
  {
    AllConstrained(s.preds, wide, Traversals(s.inters), row);
    AllSingle(Prepared(s).preds, narrow, row);
  }

  lemma BatchBucket<R(!new), K>(table: seq<R>, s: Settings<R>, wide: R -> bool, narrow: R -> bool, keys: seq<K>, k: K)
    requires Unpaged(s)
    requires forall r :: narrow(r) ==> wide(r)
    requires var batch := Fetch(table, Prepared(Constrain(s, wide)));
             |keys| == |batch| && forall i :: 0 <= i < |keys| ==> (keys[i] == k <==> narrow(batch[i]))
    ensures Pick(keys, Fetch(table, Prepared(Constrain(s, wide))), k) == JoinRows(table, s, narrow)
  {
    forall r | r in s.order(table)
      ensures All(Prepared(s).preds + [narrow], r) <==> All(Prepared(Constrain(s, wide)).preds, r) && narrow(r)
    {
      ConstrainedPreds(s, wide, narrow, r);
    }
    PickWhere(s.order(table), Prepared(Constrain(s, wide)).preds, Prepared(s).preds + [narrow], narrow, keys, k);
  }

  // ----- edge by edge

  lemma OneOfLeaves(table: Table<LeafRow>, s: Settings<LeafRow>, ids: seq<int>, fk: Option<int>)
    requires Unpaged(s) && Id in table.columns
    requires fk.Some? ==> fk.value in ids
    ensures var got := BatchLeaves(table, Constrain(s, LeafIdIn(ids)));
            OneOf(LeafIds(got), got, fk) == JoinLeaf(table, s, fk)
  {
    if fk.Some? {
      var got := BatchLeaves(table, Constrain(s, LeafIdIn(ids)));
      BatchBucket(table.rows, s, LeafIdIn(ids), LeafIdIs(fk.value), LeafIds(got), fk.value);
    }
  }

  lemma ProxyIsJoin(db: Db, s: Settings<LeafRow>, nodes: seq<AccountRow>, i: nat)
    requires Unpaged(s) && db.Columned() && i < |nodes|
    ensures BatchProxy(db, s, nodes, i) == JoinLeaf(db.proxies, s, nodes[i].proxyId)
  {
    assert ProxyIds(nodes)[i] == nodes[i].proxyId;
    OneOfLeaves(db.proxies, s, FirstKeys(ProxyIds(nodes)), nodes[i].proxyId);
  }

  lemma UsageLogsIsJoin(db: Db, s: Settings<LeafRow>, nodes: seq<AccountRow>, i: nat)
    requires Unpaged(s) && db.Columned() && i < |nodes| && LastOccurrence(AccountIds(nodes), i)
    ensures BatchUsageLogs(db, s, nodes, i) == JoinUsageLogs(db, s, nodes[i].id)
  {
    var ids := AccountIds(nodes);
    var s' := s.(fields := WithField(s.fields, AccountId));
    var logs := BatchLeaves(db.usageLogs, UsageLogsOf(s, ids));
    assert ids[i] in ids;
    BatchBucket(db.usageLogs.rows, s', OwnerIdIn(ids), OwnerIdIs(ids[i]), OwnerIds(logs), ids[i]);
  }

  lemma MemberGroupIsJoin(db: Db, s: Settings<LeafRow>, nodes: seq<AccountGroupRow>, i: nat)
    requires Unpaged(s) && db.Columned() && i < |nodes|
    ensures BatchMemberGroup(db, s, nodes, i) == JoinLeaf(db.groups, s, Some(nodes[i].groupId))
  {
    assert GroupKeys(nodes)[i] == Some(nodes[i].groupId);
    OneOfLeaves(db.groups, s, FirstKeys(GroupKeys(nodes)), Some(nodes[i].groupId));
  }

  /** Membership in the joined stream, whatever order it comes in. */
  lemma StreamMember(db: Db, s: Settings<LeafRow>, ids: seq<int>, p: Pair)
    requires Unpaged(s) && Rearranges(s.joined)
    ensures p in Stream(db, s, ids) <==>
            p.owner in ids && p.group in db.groups.rows && All(s.preds, p.group) && Related(db.accountGroups.rows, p.owner, p.group.id)
  {
    var pairs := JoinedPairs(db.accountGroups.rows, db.groups.rows);
    assert p in s.joined(pairs) <==> p in multiset(s.joined(pairs));
    assert Stream(db, s, ids) == WherePairs(s.joined(pairs), s.preds, ids);
  }

  /** The j-th group of the batch is linked to the account exactly when the join relates them. */
  lemma LinkedIsRelated(db: Db, s: Settings<LeafRow>, ids: seq<int>, row: LeafRow, accountId: int)
    requires Unpaged(s) && Rearranges(s.joined) && db.Valid() && accountId in ids
    requires row in db.groups.rows && All(s.preds, row)
    ensures Linked(Stream(db, s, ids), accountId, row.id) <==> Related(db.accountGroups.rows, accountId, row.id)
  {
    var stream := Stream(db, s, ids);
    if Linked(stream, accountId, row.id) {
      var p :| p in stream && p.owner == accountId && p.group.id == row.id;
      StreamMember(db, s, ids, p);
    }
    if Related(db.accountGroups.rows, accountId, row.id) {
      StreamMember(db, s, ids, Pair(accountId, row));
      assert Pair(accountId, row) in stream;
    }
  }

  lemma FirstRowsSound(db: Db, s: Settings<LeafRow>, ids: seq<int>, row: LeafRow)
    requires Unpaged(s) && Rearranges(s.joined)
    requires row in FirstRows(Stream(db, s, ids))
    ensures row in db.groups.rows && All(s.preds, row)
  {
    FirstRowsComplete(Stream(db, s, ids));
    var p :| p in Stream(db, s, ids) && p.group == row;
    StreamMember(db, s, ids, p);
  }

  lemma GroupListed(db: Db, s: Settings<LeafRow>, ids: seq<int>, row: LeafRow, accountId: int) returns (p: nat)
    requires Unpaged(s) && Rearranges(s.joined) && db.Valid() && accountId in ids
    requires row in db.groups.rows && All(s.preds, row) && Related(db.accountGroups.rows, accountId, row.id)
    ensures p < |FirstRows(Stream(db, s, ids))| && FirstRows(Stream(db, s, ids))[p] == row
  {
    var rows := FirstRows(Stream(db, s, ids));
    StreamMember(db, s, ids, Pair(accountId, row));
    FirstRowsComplete(Stream(db, s, ids));
    assert Pair(accountId, row).group.id in LeafIds(rows);
    p :| p < |rows| && LeafIds(rows)[p] == row.id;
    FirstRowsSound(db, s, ids, rows[p]);
  }

  /** The groups of one node: exactly the related ones, whatever order the stream came in. */
  lemma GroupsIsJoin(db: Db, s: Settings<LeafRow>, nodes: seq<AccountRow>, i: nat)
    requires Unpaged(s) && Lawful(s) && db.Valid() && i < |nodes| && LastOccurrence(AccountIds(nodes), i)
    ensures BatchGroups(db, s, nodes, i) == JoinGroups(db, s, nodes[i].id)
  {
    var ids := AccountIds(nodes);
    var id := nodes[i].id;
    assert ids[i] == id && id in ids;
    var cols := LeafColumns(s.fields, db.groups.columns);
    var rows := FirstRows(Stream(db, Prepared(s), ids));
    var groups := LoadLeaves(cols, rows);
    var keys := LinkedKeys(Stream(db, Prepared(s), ids), LeafIds(groups), id);
    assert BatchGroups(db, s, nodes, i) == set g | g in Pick(keys, groups, true);
    forall g | g in Pick(keys, groups, true) ensures g in JoinGroups(db, s, id) {
      PickMember(keys, groups, true, g);
      var p :| 0 <= p < |keys| && keys[p] && groups[p] == g;
      FirstRowsSound(db, Prepared(s), ids, rows[p]);
      LinkedIsRelated(db, Prepared(s), ids, rows[p], id);
    }
    forall g | g in JoinGroups(db, s, id) ensures g in Pick(keys, groups, true) {
      var row :| row in db.groups.rows && All(Prepared(s).preds, row) && Related(db.accountGroups.rows, id, row.id) && LoadLeaf(cols, row) == g;
      var p := GroupListed(db, Prepared(s), ids, row, id);
      LinkedIsRelated(db, Prepared(s), ids, row, id);
      assert keys[p] && groups[p] == g;
      PickMember(keys, groups, true, g);
    }
  }

  // ----- distinct ids

  lemma {:induction false} CountAtMostOne<T>(s: seq<T>, x: T)
    requires Distinct(s)
    ensures multiset(s)[x] <= 1
  {
    if s != [] {
      var n := |s| - 1;
      assert s == s[..n] + [s[n]];
      CountAtMostOne(s[..n], x);
      assert x == s[n] ==> x !in s[..n];
    }
  }

  ghost predicate DistinctIds(rows: seq<AccountRow>) {
    forall i, j :: 0 <= i < j < |rows| ==> rows[i].id != rows[j].id
  }

  /** A rearrangement of a table with a primary key still has distinct ids. */
  lemma RearrangedIds(a: seq<AccountRow>, b: seq<AccountRow>)
    requires multiset(a) == multiset(b)
    requires DistinctIds(a)
    ensures DistinctIds(b)
  {
    forall i, j | 0 <= i < j < |b| ensures b[i].id != b[j].id {
      assert b == b[..j] + b[j..];
      assert b[i] in b[..j] && b[j] in b[j..];
      assert b[i] in multiset(a) && b[j] in multiset(a);
      if b[i] == b[j] {
        CountAtMostOne(a, b[i]);
      }
    }
  }

  lemma {:induction false} WhereDistinctIds(rows: seq<AccountRow>, preds: seq<AccountRow -> bool>)
    requires DistinctIds(rows)
    ensures DistinctIds(Where(rows, preds))
  {
    if rows != [] {
      var n := |rows| - 1;
      WhereDistinctIds(rows[..n], preds);
      var before := Where(rows[..n], preds);
      forall i | 0 <= i < |before| ensures before[i].id != rows[n].id {
        WhereMember(rows[..n], preds, before[i]);
      }
    }
  }

  lemma FetchDistinct(db: Db, s: Settings<AccountRow>)
    requires db.Valid() && Rearranges(s.order)
    ensures DistinctIds(Fetch(db.accounts.rows, s))
  {
    var ordered := s.order(db.accounts.rows);
    RearrangedIds(db.accounts.rows, ordered);
    WhereDistinctIds(ordered, s.preds);
    var all := Where(ordered, s.preds);
    var skip := if s.offset.Some? then s.offset.value else 0;
    var rows := Page(all, s.limit, s.offset);
    forall i, j | 0 <= i < j < |rows| ensures rows[i].id != rows[j].id {
      assert rows[i] == all[skip + i];
      assert rows[j] == all[skip + j];
    }
  }

  // ----- the theorem

  lemma OneOfTrees(trees: seq<AccountTree>, db: Db, fields: seq<Column>, w: AccountWith, table: seq<AccountRow>,
                   s: Settings<AccountRow>, ids: seq<int>, fk: int)
    requires db.Columned() && Unpaged(s) && fk in ids
    requires trees == JoinTrees(db, fields, w, Fetch(table, Prepared(Constrain(s, AccountIdIn(ids)))))
    ensures OneOf(TreeIds(trees), trees, Some(fk)) == LastOf(JoinTrees(db, fields, w, JoinRows(table, s, AccountIdIs(fk))))
  {
    var rows := Fetch(table, Prepared(Constrain(s, AccountIdIn(ids))));
    BatchBucket(table, s, AccountIdIn(ids), AccountIdIs(fk), TreeIds(trees), fk);
    assert |Pick(TreeIds(trees), trees, fk)| == |Pick(TreeIds(trees), rows, fk)|;
  }

  /**
   Batched eager loading computes the join: for every snapshot, every plan whose sub-queries carry no
   limit or offset, and every page of root rows, the i-th result is the join tree of the i-th row.
   */
  lemma {:induction false} BatchIsJoin(db: Db, q: AccountPlan)
    requires db.Valid() && Lawful(q.s) && Joinable(q.w)
    ensures BatchAccounts(db, q) == JoinTrees(db, q.s.fields, q.w, Fetch(db.accounts.rows, Prepared(q.s)))
    decreases q.w, 3
  {
    var rows := Fetch(db.accounts.rows, Prepared(q.s));
    var nodes := AccountNodes(db, q);
    FetchDistinct(db, Prepared(q.s));
    forall i | 0 <= i < |rows|
      ensures BatchNode(db, q.w, nodes, i) == JoinTree(db, q.s.fields, q.w, rows[i])
    {
      NodeIsJoin(db, q, rows, nodes, i);
    }
  }

  lemma {:induction false} NodeIsJoin(db: Db, q: AccountPlan, rows: seq<AccountRow>, nodes: seq<AccountRow>, i: nat)
    requires db.Valid() && Joinable(q.w) && i < |rows|
    requires nodes == LoadAccounts(AccountColumns(q.s.fields, db.accounts.columns, q.w.proxy.Some?, q.w.parent.Some?), rows)
    requires DistinctIds(rows)
    ensures BatchNode(db, q.w, nodes, i) == JoinTree(db, q.s.fields, q.w, rows[i])
    decreases q.w, 2
  {
    assert LastOccurrence(AccountIds(nodes), i);
    if q.w.groups.Some? { GroupsIsJoin(db, q.w.groups.value, nodes, i); }
    if q.w.proxy.Some? { ProxyIsJoin(db, q.w.proxy.value, nodes, i); }
    if q.w.usageLogs.Some? { UsageLogsIsJoin(db, q.w.usageLogs.value, nodes, i); }
    AccountEdgesAreJoins(db, q.w, nodes, i);
  }

  /** The edges that lead to further accounts. */
  lemma {:induction false} AccountEdgesAreJoins(db: Db, w: AccountWith, nodes: seq<AccountRow>, i: nat)
    requires db.Valid() && Joinable(w) && i < |nodes| && LastOccurrence(AccountIds(nodes), i)
    ensures w.parent.Some? ==> BatchParent(db, w.parent.value, nodes, i) == JoinAccount(db, w.parent.value, nodes[i].parentId)
    ensures w.children.Some? ==> BatchChildren(db, w.children.value, nodes, i) == JoinChildren(db, w.children.value, nodes[i].id)
    ensures w.accountGroups.Some? ==> BatchMembers(db, w.accountGroups.value, nodes, i) == JoinMembers(db, w.accountGroups.value, nodes[i].id)
    decreases w, 1
  {
    if w.parent.Some? { ParentIsJoin(db, w.parent.value, nodes, i); }
    if w.children.Some? { ChildrenIsJoin(db, w.children.value, nodes, i); }
    if w.accountGroups.Some? { MembersIsJoin(db, w.accountGroups.value, nodes, i); }
  }

  lemma {:induction false} ParentIsJoin(db: Db, q: AccountPlan, nodes: seq<AccountRow>, i: nat)
    requires db.Valid() && Unpaged(q.s) && Lawful(q.s) && Joinable(q.w) && i < |nodes|
    ensures BatchParent(db, q, nodes, i) == JoinAccount(db, q, nodes[i].parentId)
    decreases q.w, 4
  {
    var ids := FirstKeys(ParentIds(nodes));
    var q' := q.(s := Constrain(q.s, AccountIdIn(ids)));
    BatchIsJoin(db, q');
    if nodes[i].parentId.Some? {
      assert ParentIds(nodes)[i] == nodes[i].parentId;
      OneOfTrees(BatchAccounts(db, q'), db, q.s.fields, q.w, db.accounts.rows, q.s, ids, nodes[i].parentId.value);
    }
  }

  lemma {:induction false} ChildrenIsJoin(db: Db, q: AccountPlan, nodes: seq<AccountRow>, i: nat)
    requires db.Valid() && Unpaged(q.s) && Lawful(q.s) && Joinable(q.w) && i < |nodes| && LastOccurrence(AccountIds(nodes), i)
    ensures BatchChildren(db, q, nodes, i) == JoinChildren(db, q, nodes[i].id)
    decreases q.w, 4
  {
    var ids := AccountIds(nodes);
    var fields := WithField(q.s.fields, ParentAccountId);
    var s := q.s.(fields := fields);
    var children := BatchAccounts(db, ChildrenOf(q, ids));
    BatchIsJoin(db, ChildrenOf(q, ids));
    var rows := Fetch(db.accounts.rows, Prepared(ChildrenOf(q, ids).s));
    assert ids[i] == nodes[i].id && ids[i] in ids;
    BatchBucket(db.accounts.rows, s, ParentIdIn(ids), ParentIdIs(ids[i]), TreeParents(children), Some(ids[i]));
    assert |Pick(TreeParents(children), children, Some(ids[i]))| == |Pick(TreeParents(children), rows, Some(ids[i]))|;
  }

  lemma {:induction false} MembersIsJoin(db: Db, q: AccountGroupPlan, nodes: seq<AccountRow>, i: nat)
    requires db.Valid() && i < |nodes| && LastOccurrence(AccountIds(nodes), i)
    requires Unpaged(q.s) && Lawful(q.s)
    requires q.w.account.Some? ==> var a := q.w.account.value; Unpaged(a.s) && Lawful(a.s) && Joinable(a.w)
    requires q.w.group.Some? ==> Unpaged(q.w.group.value)
    ensures BatchMembers(db, q, nodes, i) == JoinMembers(db, q, nodes[i].id)
    decreases q.w, 4
  {
    var ids := AccountIds(nodes);
    var fields := WithField(q.s.fields, AccountId);
    var q' := MembersOf(q, ids);
    var members := BatchAccountGroups(db, q');
    var rows := Fetch(db.accountGroups.rows, Prepared(q'.s));
    var loaded := AccountGroupNodes(db, q');
    forall j | 0 <= j < |rows| ensures members[j] == JoinMember(db, fields, q.w, rows[j]) {
      MemberIsJoin(db, fields, q.w, rows, loaded, j);
    }
    assert ids[i] == nodes[i].id && ids[i] in ids;
    BatchBucket(db.accountGroups.rows, q.s.(fields := fields), MemberIdIn(ids), MemberIdIs(ids[i]), TreeMembers(members), ids[i]);
    assert |Pick(TreeMembers(members), members, ids[i])| == |Pick(TreeMembers(members), rows, ids[i])|;
  }

  lemma {:induction false} MemberIsJoin(db: Db, fields: seq<Column>, w: AccountGroupWith, rows: seq<AccountGroupRow>, nodes: seq<AccountGroupRow>, j: nat)
    requires db.Valid() && j < |rows|
    requires nodes == LoadAccountGroups(AccountGroupColumns(fields, db.accountGroups.columns, w.account.Some?, w.group.Some?), rows)
    requires w.account.Some? ==> var a := w.account.value; Unpaged(a.s) && Lawful(a.s) && Joinable(a.w)
    requires w.group.Some? ==> Unpaged(w.group.value)
    ensures BatchAccountGroup(db, w, nodes, j) == JoinMember(db, fields, w, rows[j])
    decreases w, 3
  {
    if w.account.Some? {
      var q := w.account.value;
      var ids := FirstKeys(MemberKeys(nodes));
      var q' := q.(s := Constrain(q.s, AccountIdIn(ids)));
      BatchIsJoin(db, q');
      assert MemberKeys(nodes)[j] == Some(nodes[j].accountId);
      OneOfTrees(BatchAccounts(db, q'), db, q.s.fields, q.w, db.accounts.rows, q.s, ids, nodes[j].accountId);
    }
    if w.group.Some? {
      MemberGroupIsJoin(db, w.group.value, nodes, j);
    }
  }
}

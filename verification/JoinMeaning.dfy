/**
 What the graph below a row is, told from the builders' settings and the stored rows alone: which stored rows
 stand at each edge, in which order, and what their nodes hold. The join of every plan is shown to be such a graph.
 */
module JoinMeaning {
  import opened Collections
  import opened Schema
  import opened QueryPlan
  import opened JoinSpec
  import opened JoinTheorem
  import opened JoinLaws
  import opened RowReading

  // ----- the rows an edge leads to

  ghost predicate IsLinked(db: Db, accountId: int, groupId: int) {
    exists m :: m in db.accountGroups.rows && m.accountId == accountId && m.groupId == groupId
  }

  ghost function LogOf(s: Settings<LeafRow>, id: int): LeafRow -> bool {
    (r: LeafRow) => Accepts(s, r) && r.accountId == id
  }

  ghost function ChildOf(s: Settings<AccountRow>, id: int): AccountRow -> bool {
    (r: AccountRow) => Accepts(s, r) && r.parentId == Some(id)
  }

  ghost function MemberOf(s: Settings<AccountGroupRow>, id: int): AccountGroupRow -> bool {
    (r: AccountGroupRow) => Accepts(s, r) && r.accountId == id
  }

  // ----- the graph

  /** The groups: a node for every accepted group some join row links to the account, and no others. */
  ghost predicate GroupsShown(gs: set<LeafRow>, db: Db, s: Settings<LeafRow>, accountId: int) {
    && (forall g :: g in gs ==> exists r :: r in db.groups.rows && Accepts(s, r) && IsLinked(db, accountId, r.id)
                                            && LeafRead(g, r, s.fields, db.groups.columns, false))
    && (forall r :: r in db.groups.rows && Accepts(s, r) && IsLinked(db, accountId, r.id) ==>
          exists g :: g in gs && LeafRead(g, r, s.fields, db.groups.columns, false))
  }

  /** A single neighbour: a node for an accepted row the key names, or none if there is no such row. */
  ghost predicate LeafShown(n: Option<LeafRow>, table: Table<LeafRow>, s: Settings<LeafRow>, fk: Option<int>) {
    if n.None? then forall r :: r in table.rows && Accepts(s, r) ==> fk != Some(r.id)
    else exists r :: r in table.rows && Accepts(s, r) && fk == Some(r.id) && LeafRead(n.value, r, s.fields, table.columns, false)
  }

  ghost predicate LogsShown(ns: seq<LeafRow>, db: Db, s: Settings<LeafRow>, id: int) {
    exists rows :: Picked(rows, s.order(db.usageLogs.rows), LogOf(s, id)) && LogsRead(ns, rows, db, s)
  }

  ghost predicate LogsRead(ns: seq<LeafRow>, rows: seq<LeafRow>, db: Db, s: Settings<LeafRow>) {
    |ns| == |rows| && forall i :: 0 <= i < |ns| ==> LeafRead(ns[i], rows[i], s.fields, db.usageLogs.columns, true)
  }

  /** The node of a row, loaded by a query with these fields and edges; `child` if it was loaded as one. */
  ghost predicate Shown(t: AccountTree, db: Db, fields: seq<Column>, w: AccountWith, child: bool, row: AccountRow)
    decreases w, 2
  {
    && AccountRead(t.row, row, fields, db.accounts.columns, w.proxy.Some?, w.parent.Some? || child)
    && LeafEdgesShown(t, db, w, row)
    && AccountEdgesShown(t, db, w, row)
  }

  /** An edge is there exactly if it was asked for. */
  ghost predicate LeafEdgesShown(t: AccountTree, db: Db, w: AccountWith, row: AccountRow) {
    && (t.groups.Some? <==> w.groups.Some?) && (w.groups.Some? ==> GroupsShown(t.groups.value, db, w.groups.value, row.id))
    && (t.proxy.Some? <==> w.proxy.Some?) && (w.proxy.Some? ==> LeafShown(t.proxy.value, db.proxies, w.proxy.value, row.proxyId))
    && (t.usageLogs.Some? <==> w.usageLogs.Some?) && (w.usageLogs.Some? ==> LogsShown(t.usageLogs.value, db, w.usageLogs.value, row.id))
  }

  ghost predicate AccountEdgesShown(t: AccountTree, db: Db, w: AccountWith, row: AccountRow)
    decreases w, 1
  {
    && (t.parent.Some? <==> w.parent.Some?) && (w.parent.Some? ==> AccountShown(t.parent.value, db, w.parent.value, row.parentId))
    && (t.children.Some? <==> w.children.Some?) && (w.children.Some? ==> ChildrenShown(t.children.value, db, w.children.value, row.id))
    && (t.accountGroups.Some? <==> w.accountGroups.Some?)
    && (w.accountGroups.Some? ==> MembersShown(t.accountGroups.value, db, w.accountGroups.value, row.id))
  }

  ghost predicate AccountShown(t: Option<AccountTree>, db: Db, q: AccountPlan, fk: Option<int>)
    decreases q.w, 3
  {
    if t.None? then forall r :: r in db.accounts.rows && Accepts(q.s, r) ==> fk != Some(r.id)
    else exists r :: r in db.accounts.rows && Accepts(q.s, r) && fk == Some(r.id) && Shown(t.value, db, q.s.fields, q.w, false, r)
  }

  ghost predicate ChildrenShown(ts: seq<AccountTree>, db: Db, q: AccountPlan, id: int)
    decreases q.w, 4
  {
    exists rows :: Picked(rows, q.s.order(db.accounts.rows), ChildOf(q.s, id)) && AllShown(ts, db, q, true, rows)
  }

  ghost predicate AllShown(ts: seq<AccountTree>, db: Db, q: AccountPlan, child: bool, rows: seq<AccountRow>)
    decreases q.w, 3
  {
    |ts| == |rows| && forall i :: 0 <= i < |ts| ==> Shown(ts[i], db, q.s.fields, q.w, child, rows[i])
  }

  ghost predicate MembersShown(ts: seq<AccountGroupTree>, db: Db, q: AccountGroupPlan, id: int)
    decreases q.w, 6
  {
    exists rows :: Picked(rows, q.s.order(db.accountGroups.rows), MemberOf(q.s, id)) && AllMembersShown(ts, db, q, rows)
  }

  ghost predicate AllMembersShown(ts: seq<AccountGroupTree>, db: Db, q: AccountGroupPlan, rows: seq<AccountGroupRow>)
    decreases q.w, 5
  {
    |ts| == |rows| && forall i :: 0 <= i < |ts| ==> MemberShown(ts[i], db, q.s.fields, q.w, rows[i])
  }

  ghost predicate MemberShown(t: AccountGroupTree, db: Db, fields: seq<Column>, w: AccountGroupWith, row: AccountGroupRow)
    decreases w, 4
  {
    && MemberRead(t.row, row, fields, db.accountGroups.columns, true, w.group.Some?)
    && (t.account.Some? <==> w.account.Some?) && (w.account.Some? ==> AccountShown(t.account.value, db, w.account.value, Some(row.accountId)))
    && (t.group.Some? <==> w.group.Some?) && (w.group.Some? ==> LeafShown(t.group.value, db.groups, w.group.value, Some(row.groupId)))
  }

  // ----- the join is shown

  /** The rows of a per-row join, whatever the order does. */
  lemma JoinRowsPicked<R(!new)>(table: seq<R>, s: Settings<R>, on: R -> bool, keep: R -> bool)
    requires forall r :: keep(r) <==> Accepts(s, r) && on(r)
    ensures Picked(JoinRows(table, s, on), s.order(table), keep)
  {
    forall r | r in s.order(table) ensures All(Prepared(s).preds + [on], r) <==> keep(r) {
      AllSingle(Prepared(s).preds, on, r);
      PreparedAccepts(s, r);
    }
    var at := WherePicks(s.order(table), Prepared(s).preds + [on], keep);
  }

  lemma JoinRowAccepted<R(!new)>(table: seq<R>, s: Settings<R>, on: R -> bool, row: R)
    requires Rearranges(s.order)
    ensures row in JoinRows(table, s, on) <==> row in table && Accepts(s, row) && on(row)
  {
    JoinRowsMember(table, s, on, row);
    PreparedAccepts(s, row);
  }

  lemma LeafIsShown(table: Table<LeafRow>, s: Settings<LeafRow>, fk: Option<int>)
    requires Lawful(s) && Id in table.columns
    ensures LeafShown(JoinLeaf(table, s, fk), table, s, fk)
  {
    if fk.Some? {
      var rows := JoinRows(table.rows, s, LeafIdIs(fk.value));
      forall r ensures r in rows <==> r in table.rows && Accepts(s, r) && r.id == fk.value {
        JoinRowAccepted(table.rows, s, LeafIdIs(fk.value), r);
      }
      if rows != [] {
        var last := rows[|rows| - 1];
        assert last in rows;
        LoadLeafReads(last, s.fields, table.columns);
      }
    }
  }

  lemma GroupsAreShown(db: Db, s: Settings<LeafRow>, accountId: int)
    requires db.Columned()
    ensures GroupsShown(JoinGroups(db, s, accountId), db, s, accountId)
  {
    forall r ensures (All(Prepared(s).preds, r) <==> Accepts(s, r))
             && LeafRead(LoadLeaf(LeafColumns(s.fields, db.groups.columns), r), r, s.fields, db.groups.columns, false)
    {
      PreparedAccepts(s, r);
      LoadLeafReads(r, s.fields, db.groups.columns);
    }
  }

  lemma LogsAreShown(db: Db, s: Settings<LeafRow>, id: int)
    requires db.Columned()
    ensures LogsShown(JoinUsageLogs(db, s, id), db, s, id)
  {
    var rows, ns := JoinRows(db.usageLogs.rows, s, OwnerIdIs(id)), JoinUsageLogs(db, s, id);
    JoinRowsPicked(db.usageLogs.rows, s, OwnerIdIs(id), LogOf(s, id));
    forall i | 0 <= i < |rows| ensures LeafRead(ns[i], rows[i], s.fields, db.usageLogs.columns, true) {
      OwnedLeafReads(rows[i], s.fields, db.usageLogs.columns);
    }
    assert LogsRead(ns, rows, db, s);
  }

  /** The foreign key a loader selects besides does not change what else is asked for. */
  lemma OwnedLeafReads(r: LeafRow, fields: seq<Column>, columns: seq<Column>)
    requires Id in columns && AccountId in columns
    ensures LeafRead(LoadLeaf(LeafColumns(WithField(fields, AccountId), columns), r), r, fields, columns, true)
  {
    ScannedReads(r.data, LeafColumns(WithField(fields, AccountId), columns), fields, columns);
  }

  lemma ChildReads(r: AccountRow, fields: seq<Column>, columns: seq<Column>, proxy: bool, parent: bool)
    requires Id in columns && ProxyId in columns && ParentAccountId in columns
    ensures AccountRead(LoadAccount(AccountColumns(WithField(fields, ParentAccountId), columns, proxy, parent), r), r, fields, columns, proxy, true)
  {
    ScannedReads(r.data, AccountColumns(WithField(fields, ParentAccountId), columns, proxy, parent), fields, columns);
  }

  lemma OwnedMemberReads(r: AccountGroupRow, fields: seq<Column>, columns: seq<Column>, account: bool, group: bool)
    requires AccountId in columns && GroupId in columns
    ensures MemberRead(LoadAccountGroup(AccountGroupColumns(WithField(fields, AccountId), columns, account, group), r), r, fields, columns, true, group)
  {
    ScannedReads(r.data, AccountGroupColumns(WithField(fields, AccountId), columns, account, group), fields, columns);
  }

  /** The join tree of a row is the graph its builders describe. */
  lemma {:induction false} JoinIsShown(db: Db, fields: seq<Column>, w: AccountWith, child: bool, row: AccountRow)
    requires db.Valid() && Joinable(w)
    ensures Shown(JoinTree(db, if child then WithField(fields, ParentAccountId) else fields, w, row), db, fields, w, child, row)
    decreases w, 2
  {
    var t := JoinTree(db, if child then WithField(fields, ParentAccountId) else fields, w, row);
    if child {
      ChildReads(row, fields, db.accounts.columns, w.proxy.Some?, w.parent.Some?);
    } else {
      LoadAccountReads(row, fields, db.accounts.columns, w.proxy.Some?, w.parent.Some?);
    }
    LeafEdgesAreShown(db, if child then WithField(fields, ParentAccountId) else fields, w, row);
    AccountEdgesAreShown(db, if child then WithField(fields, ParentAccountId) else fields, w, row);
  }

  lemma LeafEdgesAreShown(db: Db, fields: seq<Column>, w: AccountWith, row: AccountRow)
    requires db.Valid() && Joinable(w)
    ensures LeafEdgesShown(JoinTree(db, fields, w, row), db, w, row)
  {
    if w.groups.Some? { GroupsAreShown(db, w.groups.value, row.id); }
    if w.proxy.Some? { LeafIsShown(db.proxies, w.proxy.value, row.proxyId); }
    if w.usageLogs.Some? { LogsAreShown(db, w.usageLogs.value, row.id); }
  }

  lemma {:induction false} AccountEdgesAreShown(db: Db, fields: seq<Column>, w: AccountWith, row: AccountRow)
    requires db.Valid() && Joinable(w)
    ensures AccountEdgesShown(JoinTree(db, fields, w, row), db, w, row)
    decreases w, 1
  {
    if w.parent.Some? { AccountIsShown(db, w.parent.value, row.parentId); }
    if w.children.Some? { ChildrenAreShown(db, w.children.value, row.id); }
    if w.accountGroups.Some? { MembersAreShown(db, w.accountGroups.value, row.id); }
  }

  lemma {:induction false} AccountIsShown(db: Db, q: AccountPlan, fk: Option<int>)
    requires db.Valid() && Lawful(q.s) && Joinable(q.w)
    ensures AccountShown(JoinAccount(db, q, fk), db, q, fk)
    decreases q.w, 3
  {
    if fk.Some? {
      var rows := JoinRows(db.accounts.rows, q.s, AccountIdIs(fk.value));
      forall r ensures r in rows <==> r in db.accounts.rows && Accepts(q.s, r) && r.id == fk.value {
        JoinRowAccepted(db.accounts.rows, q.s, AccountIdIs(fk.value), r);
      }
      if rows != [] {
        var last := rows[|rows| - 1];
        assert last in rows;
        JoinIsShown(db, q.s.fields, q.w, false, last);
      }
    }
  }

  lemma {:induction false} AllAreShown(db: Db, q: AccountPlan, child: bool, rows: seq<AccountRow>)
    requires db.Valid() && Joinable(q.w)
    ensures AllShown(JoinTrees(db, if child then WithField(q.s.fields, ParentAccountId) else q.s.fields, q.w, rows), db, q, child, rows)
    decreases q.w, 3
  {
    forall i | 0 <= i < |rows|
      ensures Shown(JoinTree(db, if child then WithField(q.s.fields, ParentAccountId) else q.s.fields, q.w, rows[i]), db, q.s.fields, q.w, child, rows[i])
    {
      JoinIsShown(db, q.s.fields, q.w, child, rows[i]);
    }
  }

  lemma {:induction false} ChildrenAreShown(db: Db, q: AccountPlan, id: int)
    requires db.Valid() && Joinable(q.w)
    ensures ChildrenShown(JoinChildren(db, q, id), db, q, id)
    decreases q.w, 4
  {
    JoinRowsPicked(db.accounts.rows, q.s, ParentIdIs(id), ChildOf(q.s, id));
    AllAreShown(db, q, true, JoinRows(db.accounts.rows, q.s, ParentIdIs(id)));
  }

  lemma {:induction false} MembersAreShown(db: Db, q: AccountGroupPlan, id: int)
    requires db.Valid()
    requires q.w.account.Some? ==> var a := q.w.account.value; Lawful(a.s) && Joinable(a.w)
    requires q.w.group.Some? ==> Lawful(q.w.group.value)
    ensures MembersShown(JoinMembers(db, q, id), db, q, id)
    decreases q.w, 6
  {
    var rows, ts := JoinRows(db.accountGroups.rows, q.s, MemberIdIs(id)), JoinMembers(db, q, id);
    JoinRowsPicked(db.accountGroups.rows, q.s, MemberIdIs(id), MemberOf(q.s, id));
    forall i | 0 <= i < |rows| ensures MemberShown(ts[i], db, q.s.fields, q.w, rows[i]) {
      MemberIsShown(db, q.s.fields, q.w, rows[i]);
    }
    assert AllMembersShown(ts, db, q, rows);
  }

  lemma {:induction false} MemberIsShown(db: Db, fields: seq<Column>, w: AccountGroupWith, row: AccountGroupRow)
    requires db.Valid()
    requires w.account.Some? ==> var a := w.account.value; Lawful(a.s) && Joinable(a.w)
    requires w.group.Some? ==> Lawful(w.group.value)
    ensures MemberShown(JoinMember(db, WithField(fields, AccountId), w, row), db, fields, w, row)
    decreases w, 4
  {
    OwnedMemberReads(row, fields, db.accountGroups.columns, w.account.Some?, w.group.Some?);
    if w.account.Some? { AccountIsShown(db, w.account.value, Some(row.accountId)); }
    if w.group.Some? { LeafIsShown(db.groups, w.group.value, Some(row.groupId)); }
  }

  // ----- the answer of a query

  /** The graphs of the rows the query answers with. */
  ghost predicate AnswerShown(ts: seq<AccountTree>, db: Db, q: AccountPlan) {
    exists rows :: Answers(rows, db.accounts.rows, q.s) && AllShown(ts, db, q, false, rows)
  }

  /** Batched evaluation of an unpaged plan answers with the graphs its builders describe, at every depth. */
  lemma BatchIsShown(db: Db, q: AccountPlan)
    requires db.Valid() && Lawful(q.s) && Joinable(q.w)
    ensures AnswerShown(BatchAccounts(db, q), db, q)
  {
    BatchIsJoin(db, q);
    FetchAnswers(db.accounts.rows, q.s);
    AllAreShown(db, q, false, Fetch(db.accounts.rows, Prepared(q.s)));
  }
}

/**
 What a builder's settings say about stored rows and loaded nodes, told without the functions that prepare, fetch
 and load: which rows are accepted, which part of them a page is, and what a node holds of its row.
 */
module RowReading {
  import opened Collections
  import opened Schema
  import opened QueryPlan
  import opened JoinSpec

  // ----- which rows

  /** The builder's own predicates and those of its traversers. */
  ghost predicate Accepts<R>(s: Settings<R>, row: R) {
    && (forall i :: 0 <= i < |s.preds| ==> s.preds[i](row))
    && (forall i :: 0 <= i < |s.inters| && s.inters[i].Traverser? ==> s.inters[i].pred(row))
  }

  ghost function AcceptedBy<R>(s: Settings<R>): R -> bool {
    (row: R) => Accepts(s, row)
  }

  /** `at` are the slots of the traversers, in order, and `added` their predicates. */
  ghost predicate TraverserSlots<R>(inters: seq<Inter<R>>, added: seq<R -> bool>, at: seq<nat>) {
    && |at| == |added| && Increasing(at)
    && (forall j :: 0 <= j < |at| ==> at[j] < |inters| && inters[at[j]].Traverser? && added[j] == inters[at[j]].pred)
    && (forall i :: 0 <= i < |inters| && inters[i].Traverser? ==> i in at)
  }

  /** What preparing adds: the predicate of every traverser slot, once, in slot order, behind the builder's own. */
  ghost predicate AddsTraversers<R>(s: Settings<R>, preds: seq<R -> bool>) {
    |s.preds| <= |preds| && preds[..|s.preds|] == s.preds && exists at :: TraverserSlots(s.inters, preds[|s.preds|..], at)
  }

  /** `at` are the positions of the rows in `whole` that `keep` wants, in order, and `part` those rows. */
  ghost predicate PickedAt<R>(part: seq<R>, whole: seq<R>, keep: R -> bool, at: seq<nat>) {
    && |at| == |part| && Increasing(at)
    && (forall i :: 0 <= i < |at| ==> at[i] < |whole| && part[i] == whole[at[i]])
    && (forall p :: 0 <= p < |whole| ==> (keep(whole[p]) <==> p in at))
  }

  ghost predicate Picked<R>(part: seq<R>, whole: seq<R>, keep: R -> bool) {
    exists at :: PickedAt(part, whole, keep, at)
  }

  /** What offset and limit leave of the rows; a limit of 0 is none. */
  ghost predicate PageOf<R>(rows: seq<R>, all: seq<R>, limit: Option<nat>, offset: Option<nat>) {
    var skip := if offset.Some? then offset.value else 0;
    && |rows| == (if |all| <= skip then 0 else if limit.Some? && 0 < limit.value < |all| - skip then limit.value else |all| - skip)
    && forall i :: 0 <= i < |rows| ==> rows[i] == all[skip + i]
  }

  /** The rows a statement answers with: those accepted, in the order asked for, and of them the page. */
  ghost predicate Answers<R(!new)>(rows: seq<R>, table: seq<R>, s: Settings<R>) {
    exists all :: Picked(all, s.order(table), AcceptedBy(s)) && PageOf(rows, all, s.limit, s.offset)
  }

  // ----- what a node holds of its row

  /** A column is asked for if it is selected, or, when nothing is, if the table has it. */
  predicate Asked(fields: seq<Column>, columns: seq<Column>, c: Column) {
    if fields == [] then c in columns else c in fields
  }

  /** The data columns the row has and the builder asks for, with the row's values. */
  ghost predicate DataRead(data: map<string, Cell>, stored: map<string, Cell>, fields: seq<Column>, columns: seq<Column>) {
    forall name :: (name in data <==> name in stored && Asked(fields, columns, Data(name))) && (name in data ==> data[name] == stored[name])
  }

  /** The id always, the foreign keys when an edge needs them or they are asked for. */
  ghost predicate AccountRead(n: AccountRow, r: AccountRow, fields: seq<Column>, columns: seq<Column>, proxyKey: bool, parentKey: bool) {
    && n.id == r.id
    && n.proxyId == (if proxyKey || Asked(fields, columns, ProxyId) then r.proxyId else None)
    && n.parentId == (if parentKey || Asked(fields, columns, ParentAccountId) then r.parentId else None)
    && DataRead(n.data, r.data, fields, columns)
  }

  ghost predicate LeafRead(n: LeafRow, r: LeafRow, fields: seq<Column>, columns: seq<Column>, ownerKey: bool) {
    && n.id == r.id
    && n.accountId == (if ownerKey || Asked(fields, columns, AccountId) then r.accountId else 0)
    && DataRead(n.data, r.data, fields, columns)
  }

  ghost predicate MemberRead(n: AccountGroupRow, r: AccountGroupRow, fields: seq<Column>, columns: seq<Column>, accountKey: bool, groupKey: bool) {
    && n.accountId == (if accountKey || Asked(fields, columns, AccountId) then r.accountId else 0)
    && n.groupId == (if groupKey || Asked(fields, columns, GroupId) then r.groupId else 0)
    && DataRead(n.data, r.data, fields, columns)
  }

  /** The nodes of an account query: one per row of the answer, each holding what was asked for. */
  ghost predicate AccountsRead(nodes: seq<AccountRow>, db: Db, q: AccountPlan) {
    exists rows :: Answers(rows, db.accounts.rows, q.s) && AccountsReadOf(nodes, rows, db, q)
  }

  ghost predicate AccountsReadOf(nodes: seq<AccountRow>, rows: seq<AccountRow>, db: Db, q: AccountPlan) {
    |nodes| == |rows| && forall i :: 0 <= i < |nodes| ==>
      AccountRead(nodes[i], rows[i], q.s.fields, db.accounts.columns, q.w.proxy.Some?, q.w.parent.Some?)
  }

  ghost predicate MembersRead(nodes: seq<AccountGroupRow>, db: Db, q: AccountGroupPlan) {
    exists rows :: Answers(rows, db.accountGroups.rows, q.s) && MembersReadOf(nodes, rows, db, q)
  }

  ghost predicate MembersReadOf(nodes: seq<AccountGroupRow>, rows: seq<AccountGroupRow>, db: Db, q: AccountGroupPlan) {
    |nodes| == |rows| && forall i :: 0 <= i < |nodes| ==>
      MemberRead(nodes[i], rows[i], q.s.fields, db.accountGroups.columns, q.w.account.Some?, q.w.group.Some?)
  }

  ghost predicate LeavesRead(nodes: seq<LeafRow>, table: Table<LeafRow>, s: Settings<LeafRow>) {
    exists rows :: Answers(rows, table.rows, s) && LeavesReadOf(nodes, rows, table, s)
  }

  ghost predicate LeavesReadOf(nodes: seq<LeafRow>, rows: seq<LeafRow>, table: Table<LeafRow>, s: Settings<LeafRow>) {
    |nodes| == |rows| && forall i :: 0 <= i < |nodes| ==> LeafRead(nodes[i], rows[i], s.fields, table.columns, false)
  }

  // ----- preparing adds the traversers

  lemma {:induction false} TraversalsSlots<R>(inters: seq<Inter<R>>) returns (at: seq<nat>)
    ensures TraverserSlots(inters, Traversals(inters), at)
  {
    at := [];
    if inters != [] {
      var before := TraversalsSlots(inters[..|inters| - 1]);
      at := SlotsSnoc(inters, Traversals(inters[..|inters| - 1]), before);
    }
  }

  lemma SlotsSnoc<R>(inters: seq<Inter<R>>, added: seq<R -> bool>, before: seq<nat>) returns (at: seq<nat>)
    requires inters != [] && TraverserSlots(inters[..|inters| - 1], added, before)
    ensures var last := inters[|inters| - 1];
            TraverserSlots(inters, added + (if last.Traverser? then [last.pred] else []), at)
  {
    var n := |inters| - 1;
    at := before + if inters[n].Traverser? then [n] else [];
    forall i | 0 <= i < |inters| && inters[i].Traverser? ensures i in at {
      if i < n {
        assert inters[..n][i] == inters[i] && i in before;
      } else {
        assert at[|at| - 1] == n;
      }
    }
  }

  lemma SlotsAccept<R>(inters: seq<Inter<R>>, added: seq<R -> bool>, at: seq<nat>, row: R)
    requires TraverserSlots(inters, added, at)
    ensures All(added, row) <==> forall i :: 0 <= i < |inters| && inters[i].Traverser? ==> inters[i].pred(row)
  {
    if All(added, row) {
      forall i | 0 <= i < |inters| && inters[i].Traverser? ensures inters[i].pred(row) {
        var j :| 0 <= j < |at| && at[j] == i;
        assert added[j](row);
      }
    }
  }

  lemma TraversersAdded<R>(s: Settings<R>)
    ensures AddsTraversers(s, Prepared(s).preds)
  {
    var at := TraversalsSlots(s.inters);
    assert Prepared(s).preds[|s.preds|..] == Traversals(s.inters);
  }

  /** A prepared query keeps a row exactly if its own predicates and all traversers do. */
  lemma PreparedAccepts<R>(s: Settings<R>, row: R)
    ensures All(Prepared(s).preds, row) <==> Accepts(s, row)
  {
    var at := TraversalsSlots(s.inters);
    SlotsAccept(s.inters, Traversals(s.inters), at, row);
    AllAppend(s.preds, Traversals(s.inters), row);
  }

  lemma PreparedExact<R>(s: Settings<R>)
    ensures forall row :: All(Prepared(s).preds, row) <==> Accepts(s, row)
  {
    forall row ensures All(Prepared(s).preds, row) <==> Accepts(s, row) {
      PreparedAccepts(s, row);
    }
  }

  // ----- fetching answers

  lemma {:induction false} WherePicks<R>(rows: seq<R>, preds: seq<R -> bool>, keep: R -> bool) returns (at: seq<nat>)
    requires forall r :: r in rows ==> (All(preds, r) <==> keep(r))
    ensures PickedAt(Where(rows, preds), rows, keep, at)
  {
    at := [];
    if rows != [] {
      var n := |rows| - 1;
      at := WherePicks(rows[..n], preds, keep);
      assert rows[n] in rows;
      at := PickedSnoc(Where(rows[..n], preds), rows, keep, at);
    }
  }

  lemma PickedSnoc<R>(part: seq<R>, whole: seq<R>, keep: R -> bool, before: seq<nat>) returns (at: seq<nat>)
    requires whole != [] && PickedAt(part, whole[..|whole| - 1], keep, before)
    ensures var last := whole[|whole| - 1]; PickedAt(part + (if keep(last) then [last] else []), whole, keep, at)
  {
    var n := |whole| - 1;
    at := before + if keep(whole[n]) then [n] else [];
    assert n !in before;
    forall p | 0 <= p < |whole| ensures keep(whole[p]) <==> p in at {
      if p < n {
        assert whole[..n][p] == whole[p] && (p in at <==> p in before);
      } else if keep(whole[n]) {
        assert at[|at| - 1] == n;
      }
    }
  }

  lemma FetchAnswers<R(!new)>(table: seq<R>, s: Settings<R>)
    ensures Answers(Fetch(table, Prepared(s)), table, s)
  {
    forall r | r in s.order(table) ensures All(Prepared(s).preds, r) <==> AcceptedBy(s)(r) {
      PreparedAccepts(s, r);
    }
    var at := WherePicks(s.order(table), Prepared(s).preds, AcceptedBy(s));
    assert PageOf(Fetch(table, Prepared(s)), Where(s.order(table), Prepared(s).preds), s.limit, s.offset);
  }

  // ----- loading reads

  lemma ScannedReads(data: map<string, Cell>, cols: seq<Column>, fields: seq<Column>, columns: seq<Column>)
    requires forall name :: Data(name) in cols <==> Asked(fields, columns, Data(name))
    ensures DataRead(Scanned(cols, data), data, fields, columns)
  {
  }

  lemma LoadAccountReads(r: AccountRow, fields: seq<Column>, columns: seq<Column>, proxy: bool, parent: bool)
    requires Id in columns && ProxyId in columns && ParentAccountId in columns
    ensures AccountRead(LoadAccount(AccountColumns(fields, columns, proxy, parent), r), r, fields, columns, proxy, parent)
  {
    ScannedReads(r.data, AccountColumns(fields, columns, proxy, parent), fields, columns);
  }

  lemma LoadLeafReads(r: LeafRow, fields: seq<Column>, columns: seq<Column>)
    requires Id in columns
    ensures LeafRead(LoadLeaf(LeafColumns(fields, columns), r), r, fields, columns, false)
  {
    ScannedReads(r.data, LeafColumns(fields, columns), fields, columns);
  }

  lemma LoadMemberReads(r: AccountGroupRow, fields: seq<Column>, columns: seq<Column>, account: bool, group: bool)
    requires AccountId in columns && GroupId in columns
    ensures MemberRead(LoadAccountGroup(AccountGroupColumns(fields, columns, account, group), r), r, fields, columns, account, group)
  {
    ScannedReads(r.data, AccountGroupColumns(fields, columns, account, group), fields, columns);
  }

  // ----- batches are read

  lemma LeavesAreRead(table: Table<LeafRow>, s: Settings<LeafRow>)
    requires Id in table.columns
    ensures LeavesRead(BatchLeaves(table, s), table, s)
  {
    var rows := Fetch(table.rows, Prepared(s));
    FetchAnswers(table.rows, s);
    forall i | 0 <= i < |rows| ensures LeafRead(BatchLeaves(table, s)[i], rows[i], s.fields, table.columns, false) {
      LoadLeafReads(rows[i], s.fields, table.columns);
    }
    assert LeavesReadOf(BatchLeaves(table, s), rows, table, s);
  }

  lemma AccountsAreRead(db: Db, q: AccountPlan)
    requires db.Columned()
    ensures AccountsRead(AccountNodes(db, q), db, q)
  {
    var rows, nodes := Fetch(db.accounts.rows, Prepared(q.s)), AccountNodes(db, q);
    FetchAnswers(db.accounts.rows, q.s);
    forall i | 0 <= i < |rows|
      ensures AccountRead(nodes[i], rows[i], q.s.fields, db.accounts.columns, q.w.proxy.Some?, q.w.parent.Some?)
    {
      LoadAccountReads(rows[i], q.s.fields, db.accounts.columns, q.w.proxy.Some?, q.w.parent.Some?);
    }
    assert AccountsReadOf(nodes, rows, db, q);
  }

  lemma MembersAreRead(db: Db, q: AccountGroupPlan)
    requires db.Columned()
    ensures MembersRead(AccountGroupNodes(db, q), db, q)
  {
    var rows, nodes := Fetch(db.accountGroups.rows, Prepared(q.s)), AccountGroupNodes(db, q);
    FetchAnswers(db.accountGroups.rows, q.s);
    forall i | 0 <= i < |rows|
      ensures MemberRead(nodes[i], rows[i], q.s.fields, db.accountGroups.columns, q.w.account.Some?, q.w.group.Some?)
    {
      LoadMemberReads(rows[i], q.s.fields, db.accountGroups.columns, q.w.account.Some?, q.w.group.Some?);
    }
    assert MembersReadOf(nodes, rows, db, q);
  }

  // ----- in particular

  lemma PickedMember<R>(part: seq<R>, whole: seq<R>, keep: R -> bool, row: R)
    requires Picked(part, whole, keep)
    ensures row in part <==> row in whole && keep(row)
  {
    var at :| PickedAt(part, whole, keep, at);
    if row in part {
      var i :| 0 <= i < |part| && part[i] == row;
      assert whole[at[i]] == row && at[i] in at;
    }
    if row in whole && keep(row) {
      var p :| 0 <= p < |whole| && whole[p] == row;
      assert p in at;
      var i :| 0 <= i < |at| && at[i] == p;
      assert part[i] == row;
    }
  }

  lemma PageMember<R>(rows: seq<R>, all: seq<R>, limit: Option<nat>, offset: Option<nat>, row: R)
    requires PageOf(rows, all, limit, offset)
    ensures row in rows ==> row in all
    ensures (limit.None? || limit.value == 0) && (offset.None? || offset.value == 0) ==> rows == all
  {
  }

  lemma PickedAccepted<R(!new)>(rows: seq<R>, table: seq<R>, s: Settings<R>, row: R)
    requires Rearranges(s.order) && Answers(rows, table, s)
    ensures row in rows ==> row in table && Accepts(s, row)
    ensures Unpaged(s) && row in table && Accepts(s, row) ==> row in rows
  {
    var all :| Picked(all, s.order(table), AcceptedBy(s)) && PageOf(rows, all, s.limit, s.offset);
    PickedMember(all, s.order(table), AcceptedBy(s), row);
    PageMember(rows, all, s.limit, s.offset, row);
    assert row in table <==> row in multiset(table);
    assert row in s.order(table) <==> row in multiset(s.order(table));
  }

  /**
   No node stands for a row that a predicate or a traverser of the builder refuses, such as a deleted one; without a limit and
   an offset, every other row has its node.
   */
  lemma NoneRefused(db: Db, q: AccountPlan, nodes: seq<AccountRow>)
    requires Rearranges(q.s.order) && AccountsRead(nodes, db, q)
    ensures forall n :: n in nodes ==> exists r :: r in db.accounts.rows && Accepts(q.s, r) && n.id == r.id
    ensures Unpaged(q.s) ==> forall r :: r in db.accounts.rows && Accepts(q.s, r) ==> exists n :: n in nodes && n.id == r.id
  {
    var rows :| Answers(rows, db.accounts.rows, q.s) && AccountsReadOf(nodes, rows, db, q);
    forall r ensures (r in rows ==> r in db.accounts.rows && Accepts(q.s, r))
             && (Unpaged(q.s) && r in db.accounts.rows && Accepts(q.s, r) ==> r in rows)
    {
      PickedAccepted(rows, db.accounts.rows, q.s, r);
    }
    forall n | n in nodes ensures exists r :: r in db.accounts.rows && Accepts(q.s, r) && n.id == r.id {
      var i :| 0 <= i < |nodes| && nodes[i] == n;
      assert rows[i] in rows && AccountRead(nodes[i], rows[i], q.s.fields, db.accounts.columns, q.w.proxy.Some?, q.w.parent.Some?);
    }
    if Unpaged(q.s) {
      forall r | r in db.accounts.rows && Accepts(q.s, r) ensures exists n :: n in nodes && n.id == r.id {
        var i :| 0 <= i < |rows| && rows[i] == r;
        assert nodes[i] in nodes && AccountRead(nodes[i], rows[i], q.s.fields, db.accounts.columns, q.w.proxy.Some?, q.w.parent.Some?);
      }
    }
  }
}

/**
 Column selection. Whatever columns the builders of a tree select, the rows that are loaded and the edges
 between them are those of the same plan selecting everything, with or without limits on the sub-queries.
 */
module SelectionLaws {
  import opened Collections
  import opened Schema
  import opened QueryPlan
  import opened JoinSpec

  /** A tree without its payload: which rows are where. */
  datatype Skeleton = Skeleton(
    id: int, groups: Option<set<int>>, proxy: Option<Option<int>>, parent: Option<Option<Skeleton>>,
    children: Option<seq<Skeleton>>, usageLogs: Option<seq<int>>, members: Option<seq<MemberSkeleton>>)

  datatype MemberSkeleton = MemberSkeleton(accountId: int, account: Option<Option<Skeleton>>, group: Option<Option<int>>)

  /** The skeleton of a tree loaded by a plan with sub-queries `w`. */
  ghost function Skel(w: AccountWith, t: AccountTree): Skeleton
    decreases w, 0
  {
    Skeleton(t.row.id,
             if t.groups.None? then None else Some(set g | g in t.groups.value :: g.id),
             if t.proxy.None? then None else Some(LeafId(t.proxy.value)),
             if w.parent.None? || t.parent.None? then None else Some(SkelOf(w.parent.value, t.parent.value)),
             if w.children.None? || t.children.None? then None else Some(Skels(w.children.value, t.children.value)),
             if t.usageLogs.None? then None else Some(LeafIds(t.usageLogs.value)),
             if w.accountGroups.None? || t.accountGroups.None? then None else Some(MemberSkels(w.accountGroups.value, t.accountGroups.value)))
  }

  ghost function LeafId(o: Option<LeafRow>): Option<int> {
    if o.None? then None else Some(o.value.id)
  }

  ghost function SkelOf(q: AccountPlan, o: Option<AccountTree>): Option<Skeleton>
    decreases q.w, 1
  {
    if o.None? then None else Some(Skel(q.w, o.value))
  }

  ghost function Skels(q: AccountPlan, ts: seq<AccountTree>): (r: seq<Skeleton>)
    ensures |r| == |ts| && forall i :: 0 <= i < |ts| ==> r[i] == Skel(q.w, ts[i])
    decreases q.w, 1
  {
    seq(|ts|, i requires 0 <= i < |ts| => Skel(q.w, ts[i]))
  }

  ghost function MemberSkels(q: AccountGroupPlan, ts: seq<AccountGroupTree>): (r: seq<MemberSkeleton>)
    ensures |r| == |ts| && forall i :: 0 <= i < |ts| ==> r[i] == MemberSkel(q.w, ts[i])
    decreases q.w, 1
  {
    seq(|ts|, i requires 0 <= i < |ts| => MemberSkel(q.w, ts[i]))
  }

  ghost function MemberSkel(w: AccountGroupWith, t: AccountGroupTree): MemberSkeleton
    decreases w, 0
  {
    MemberSkeleton(t.row.accountId,
                   if w.account.None? || t.account.None? then None else Some(SkelOf(w.account.value, t.account.value)),
                   if t.group.None? then None else Some(LeafId(t.group.value)))
  }

  ghost function FullLeaf(s: Settings<LeafRow>): Settings<LeafRow> {
    s.(fields := [])
  }

  /** The same plan with every column selected everywhere. */
  ghost function FullSelect(w: AccountWith): AccountWith {
    AccountWith(if w.groups.None? then None else Some(FullLeaf(w.groups.value)),
                if w.proxy.None? then None else Some(FullLeaf(w.proxy.value)),
                if w.parent.None? then None else Some(FullPlan(w.parent.value)),
                if w.children.None? then None else Some(FullPlan(w.children.value)),
                if w.usageLogs.None? then None else Some(FullLeaf(w.usageLogs.value)),
                if w.accountGroups.None? then None else Some(FullGroups(w.accountGroups.value)))
  }

  ghost function FullPlan(q: AccountPlan): AccountPlan {
    AccountPlan(q.s.(fields := []), FullSelect(q.w))
  }

  ghost function FullGroups(q: AccountGroupPlan): AccountGroupPlan {
    AccountGroupPlan(q.s.(fields := []),
                     AccountGroupWith(if q.w.account.None? then None else Some(FullPlan(q.w.account.value)),
                                      if q.w.group.None? then None else Some(FullLeaf(q.w.group.value))))
  }

  // ----- what the columns of a query keep

  /** The id, and the foreign keys the edges need, are among the columns whatever is selected. */
  lemma ColumnsKeepKeys(fields: seq<Column>, all: seq<Column>, proxy: bool, parent: bool)
    requires Id in all && ProxyId in all && ParentAccountId in all
    ensures var cols := AccountColumns(fields, all, proxy, parent);
            Id in cols && (proxy ==> ProxyId in cols) && (parent ==> ParentAccountId in cols)
            && (ParentAccountId in fields ==> ParentAccountId in cols)
  {
  }

  /** The two lists of nodes agree on the columns the edges are built on. */
  ghost predicate Alike(w: AccountWith, a: seq<AccountRow>, b: seq<AccountRow>) {
    && AccountIds(a) == AccountIds(b)
    && (w.proxy.Some? ==> ProxyIds(a) == ProxyIds(b))
    && (w.parent.Some? ==> ParentIds(a) == ParentIds(b))
  }

  lemma NodesAlike(db: Db, q: AccountPlan)
    requires db.Columned()
    ensures Alike(q.w, AccountNodes(db, q), AccountNodes(db, FullPlan(q)))
    ensures ParentAccountId in q.s.fields ==> ParentIds(AccountNodes(db, q)) == ParentIds(AccountNodes(db, FullPlan(q)))
    ensures q.s.fields == [] ==> ParentIds(AccountNodes(db, q)) == ParentIds(AccountNodes(db, FullPlan(q)))
  {
    ColumnsKeepKeys(q.s.fields, db.accounts.columns, q.w.proxy.Some?, q.w.parent.Some?);
  }

  // ----- edges without sub-queries

  /** The same rows are chosen by key, whatever columns are loaded. */
  lemma LeavesAlike(table: Table<LeafRow>, s: Settings<LeafRow>)
    requires Id in table.columns
    ensures LeafIds(BatchLeaves(table, s)) == LeafIds(BatchLeaves(table, FullLeaf(s)))
  {
  }

  lemma OneAlike(a: seq<LeafRow>, b: seq<LeafRow>, fk: Option<int>)
    requires LeafIds(a) == LeafIds(b)
    ensures LeafId(OneOf(LeafIds(a), a, fk)) == LeafId(OneOf(LeafIds(b), b, fk))
  {
  }

  lemma ProxyAlike(db: Db, s: Settings<LeafRow>, a: seq<AccountRow>, b: seq<AccountRow>, i: nat)
    requires db.Columned() && i < |a| && AccountIds(a) == AccountIds(b) && ProxyIds(a) == ProxyIds(b)
    ensures |a| == |b| && LeafId(BatchProxy(db, s, a, i)) == LeafId(BatchProxy(db, FullLeaf(s), b, i))
  {
    assert |AccountIds(a)| == |AccountIds(b)|;
    var q := Constrain(s, LeafIdIn(FirstKeys(ProxyIds(a))));
    LeavesAlike(db.proxies, q);
    assert ProxyIds(a)[i] == a[i].proxyId && ProxyIds(b)[i] == b[i].proxyId;
    OneAlike(BatchLeaves(db.proxies, q), BatchLeaves(db.proxies, FullLeaf(q)), a[i].proxyId);
  }

  lemma UsageLogsAlike(db: Db, s: Settings<LeafRow>, a: seq<AccountRow>, b: seq<AccountRow>, i: nat)
    requires db.Columned() && i < |a| && AccountIds(a) == AccountIds(b)
    ensures |a| == |b| && LeafIds(BatchUsageLogs(db, s, a, i)) == LeafIds(BatchUsageLogs(db, FullLeaf(s), b, i))
  {
    assert |AccountIds(a)| == |AccountIds(b)|;
    var part, full := BatchLeaves(db.usageLogs, UsageLogsOf(s, AccountIds(a))), BatchLeaves(db.usageLogs, UsageLogsOf(FullLeaf(s), AccountIds(a)));
    assert LeafIds(part) == LeafIds(full) && OwnerIds(part) == OwnerIds(full);
  }

  lemma GroupsAlike(db: Db, s: Settings<LeafRow>, a: seq<AccountRow>, b: seq<AccountRow>, i: nat)
    requires db.Columned() && i < |a| && AccountIds(a) == AccountIds(b)
    ensures |a| == |b|
    ensures LeafIds(BatchGroupList(db, s, a, i)) == LeafIds(BatchGroupList(db, FullLeaf(s), b, i))
    ensures (set g | g in BatchGroups(db, s, a, i) :: g.id) == (set g | g in BatchGroups(db, FullLeaf(s), b, i) :: g.id)
  {
    assert |AccountIds(a)| == |AccountIds(b)|;
    var rows := FirstRows(Stream(db, Prepared(s), AccountIds(a)));
    var part, full := LoadLeaves(LeafColumns(s.fields, db.groups.columns), rows), LoadLeaves(db.groups.columns, rows);
    assert Stream(db, Prepared(s), AccountIds(a)) == Stream(db, Prepared(FullLeaf(s)), AccountIds(a));
    assert LeafIds(part) == LeafIds(full);
    IdSet(BatchGroupList(db, s, a, i));
    IdSet(BatchGroupList(db, FullLeaf(s), b, i));
  }

  lemma IdSet(a: seq<LeafRow>)
    ensures (set g | g in a :: g.id) == set id | id in LeafIds(a)
  {
    forall id | id in LeafIds(a) ensures id in set g | g in a :: g.id {
      var i :| 0 <= i < |a| && LeafIds(a)[i] == id;
      assert a[i] in a;
    }
  }

  // ----- edges with sub-queries

  /**
   Partial column selection never changes eager loading: for every plan, with or without limits and offsets
   anywhere, batched loading builds the same skeleton whatever every builder of the tree selects.
   */
  lemma {:induction false} SelectionKeepsEdges(db: Db, q: AccountPlan)
    requires db.Columned()
    ensures Skels(q, BatchAccounts(db, q)) == Skels(q, BatchAccounts(db, FullPlan(q)))
    decreases q.w, 3
  {
    var a, b := AccountNodes(db, q), AccountNodes(db, FullPlan(q));
    NodesAlike(db, q);
    assert |AccountIds(a)| == |AccountIds(b)|;
    forall i | 0 <= i < |a| ensures Skel(q.w, BatchNode(db, q.w, a, i)) == Skel(q.w, BatchNode(db, FullSelect(q.w), b, i)) {
      SelectNode(db, q.w, a, b, i);
    }
  }

  lemma {:induction false} SelectNode(db: Db, w: AccountWith, a: seq<AccountRow>, b: seq<AccountRow>, i: nat)
    requires db.Columned() && i < |a| == |b| && Alike(w, a, b)
    ensures Skel(w, BatchNode(db, w, a, i)) == Skel(w, BatchNode(db, FullSelect(w), b, i))
    decreases w, 2
  {
    var part, full := Skel(w, BatchNode(db, w, a, i)), Skel(w, BatchNode(db, FullSelect(w), b, i));
    SelectFlatEdges(db, w, a, b, i);
    if w.parent.Some? { SelectParent(db, w.parent.value, a, b, i); }
    assert part.parent == full.parent;
    if w.children.Some? { SelectChildren(db, w.children.value, a, b, i); }
    assert part.children == full.children;
    if w.accountGroups.Some? { SelectMembers(db, w.accountGroups.value, a, b, i); }
    assert part.members == full.members;
  }

  lemma SelectFlatEdges(db: Db, w: AccountWith, a: seq<AccountRow>, b: seq<AccountRow>, i: nat)
    requires db.Columned() && i < |a| == |b| && Alike(w, a, b)
    ensures var part, full := Skel(w, BatchNode(db, w, a, i)), Skel(w, BatchNode(db, FullSelect(w), b, i));
            part.id == full.id && part.groups == full.groups && part.proxy == full.proxy && part.usageLogs == full.usageLogs
  {
    assert AccountIds(a)[i] == AccountIds(b)[i];
    if w.groups.Some? { GroupsAlike(db, w.groups.value, a, b, i); }
    if w.proxy.Some? { ProxyAlike(db, w.proxy.value, a, b, i); }
    if w.usageLogs.Some? { UsageLogsAlike(db, w.usageLogs.value, a, b, i); }
  }

  /** Choosing a tree by its id, in two lists with equal skeletons. */
  lemma OneTreeAlike(q: AccountPlan, a: seq<AccountTree>, b: seq<AccountTree>, fk: Option<int>)
    requires Skels(q, a) == Skels(q, b)
    ensures SkelOf(q, OneOf(TreeIds(a), a, fk)) == SkelOf(q, OneOf(TreeIds(b), b, fk))
  {
    assert |a| == |Skels(q, a)| == |b|;
    forall i | 0 <= i < |a| ensures TreeIds(a)[i] == TreeIds(b)[i] {
      assert Skels(q, a)[i].id == a[i].row.id && Skels(q, b)[i].id == b[i].row.id;
    }
    assert TreeIds(a) == TreeIds(b);
    if fk.Some? {
      var at := Positions(TreeIds(a), fk.value);
      if at != [] {
        assert Skels(q, a)[at[|at| - 1]] == Skels(q, b)[at[|at| - 1]];
      }
    }
  }

  lemma {:induction false} SelectParent(db: Db, q: AccountPlan, a: seq<AccountRow>, b: seq<AccountRow>, i: nat)
    requires db.Columned() && i < |a| == |b| && ParentIds(a) == ParentIds(b)
    ensures SkelOf(q, BatchParent(db, q, a, i)) == SkelOf(q, BatchParent(db, FullPlan(q), b, i))
    decreases q.w, 4
  {
    var narrowed := q.(s := Constrain(q.s, AccountIdIn(FirstKeys(ParentIds(a)))));
    SelectionKeepsEdges(db, narrowed);
    assert ParentIds(a)[i] == ParentIds(b)[i];
    OneTreeAlike(q, BatchAccounts(db, narrowed), BatchAccounts(db, FullPlan(narrowed)), a[i].parentId);
  }

  lemma {:induction false} SelectChildren(db: Db, q: AccountPlan, a: seq<AccountRow>, b: seq<AccountRow>, i: nat)
    requires db.Columned() && i < |a| == |b| && AccountIds(a) == AccountIds(b)
    ensures Skels(q, BatchChildren(db, q, a, i)) == Skels(q, BatchChildren(db, FullPlan(q), b, i))
    decreases q.w, 4
  {
    var ids := AccountIds(a);
    var narrowed := ChildrenOf(q, ids);
    assert FullPlan(narrowed) == ChildrenOf(FullPlan(q), ids);
    SelectionKeepsEdges(db, narrowed);
    var part, full := BatchAccounts(db, narrowed), BatchAccounts(db, FullPlan(narrowed));
    NodesAlike(db, narrowed);
    assert TreeParents(part) == ParentIds(AccountNodes(db, narrowed));
    assert TreeParents(full) == ParentIds(AccountNodes(db, FullPlan(narrowed)));
    DealtAlike(q, part, full, ids, i);
  }

  /** Dealing out two lists of trees with equal skeletons by the same keys. */
  lemma DealtAlike(q: AccountPlan, a: seq<AccountTree>, b: seq<AccountTree>, ids: seq<int>, i: nat)
    requires Skels(q, a) == Skels(q, b) && TreeParents(a) == TreeParents(b) && i < |ids|
    ensures Skels(q, DealtSome(TreeParents(a), a, ids, i)) == Skels(q, DealtSome(TreeParents(b), b, ids, i))
  {
    assert |a| == |Skels(q, a)| == |b|;
    var at := Positions(TreeParents(a), Some(ids[i]));
    forall j | 0 <= j < |at| ensures Skel(q.w, a[at[j]]) == Skel(q.w, b[at[j]]) {
      assert Skels(q, a)[at[j]] == Skels(q, b)[at[j]];
    }
  }

  // ----- the join rows

  lemma {:induction false} SelectMembers(db: Db, q: AccountGroupPlan, a: seq<AccountRow>, b: seq<AccountRow>, i: nat)
    requires db.Columned() && i < |a| == |b| && AccountIds(a) == AccountIds(b)
    ensures MemberSkels(q, BatchMembers(db, q, a, i)) == MemberSkels(q, BatchMembers(db, FullGroups(q), b, i))
    decreases q.w, 5
  {
    var ids := AccountIds(a);
    var narrowed := MembersOf(q, ids);
    assert FullGroups(narrowed) == MembersOf(FullGroups(q), ids);
    MemberSelectionKeepsEdges(db, narrowed);
    var part, full := BatchAccountGroups(db, narrowed), BatchAccountGroups(db, FullGroups(narrowed));
    DealtMembersAlike(q, part, full, ids, i);
  }

  /** The same for a query of join rows that loads their account ids. */
  lemma {:induction false} MemberSelectionKeepsEdges(db: Db, q: AccountGroupPlan)
    requires db.Columned() && (q.s.fields == [] || AccountId in q.s.fields)
    ensures MemberSkels(q, BatchAccountGroups(db, q)) == MemberSkels(q, BatchAccountGroups(db, FullGroups(q)))
    decreases q.w, 4
  {
    var a, b := AccountGroupNodes(db, q), AccountGroupNodes(db, FullGroups(q));
    assert MemberIds(a) == MemberIds(b) && MemberKeys(a) == MemberKeys(b);
    assert q.w.group.Some? ==> GroupKeys(a) == GroupKeys(b);
    forall j | 0 <= j < |a|
      ensures MemberSkel(q.w, BatchAccountGroup(db, q.w, a, j)) == MemberSkel(q.w, BatchAccountGroup(db, FullGroups(q).w, b, j))
    {
      SelectMember(db, q, a, b, j);
    }
  }

  lemma {:induction false} SelectMember(db: Db, q: AccountGroupPlan, a: seq<AccountGroupRow>, b: seq<AccountGroupRow>, j: nat)
    requires db.Columned() && j < |a| == |b| && MemberKeys(a) == MemberKeys(b) && (q.w.group.Some? ==> GroupKeys(a) == GroupKeys(b))
    ensures MemberSkel(q.w, BatchAccountGroup(db, q.w, a, j)) == MemberSkel(q.w, BatchAccountGroup(db, FullGroups(q).w, b, j))
    decreases q.w, 3
  {
    assert MemberKeys(a)[j] == MemberKeys(b)[j];
    if q.w.account.Some? {
      var account := q.w.account.value;
      var narrowed := account.(s := Constrain(account.s, AccountIdIn(FirstKeys(MemberKeys(a)))));
      SelectionKeepsEdges(db, narrowed);
      OneTreeAlike(account, BatchAccounts(db, narrowed), BatchAccounts(db, FullPlan(narrowed)), Some(a[j].accountId));
    }
    if q.w.group.Some? {
      var group := Constrain(q.w.group.value, LeafIdIn(FirstKeys(GroupKeys(a))));
      LeavesAlike(db.groups, group);
      assert GroupKeys(a)[j] == GroupKeys(b)[j];
      OneAlike(BatchLeaves(db.groups, group), BatchLeaves(db.groups, FullLeaf(group)), Some(a[j].groupId));
    }
  }

  lemma DealtMembersAlike(q: AccountGroupPlan, a: seq<AccountGroupTree>, b: seq<AccountGroupTree>, ids: seq<int>, i: nat)
    requires MemberSkels(q, a) == MemberSkels(q, b) && i < |ids|
    ensures MemberSkels(q, Dealt(TreeMembers(a), a, ids, i)) == MemberSkels(q, Dealt(TreeMembers(b), b, ids, i))
  {
    assert |a| == |MemberSkels(q, a)| == |b|;
    forall j | 0 <= j < |a| ensures TreeMembers(a)[j] == TreeMembers(b)[j] && MemberSkel(q.w, a[j]) == MemberSkel(q.w, b[j]) {
      assert MemberSkels(q, a)[j] == MemberSkels(q, b)[j];
    }
    assert TreeMembers(a) == TreeMembers(b);
  }
}

/**
 Laws of the join a plan describes: what the edges have to do with each other, and what they do not
 depend on. By BatchIsJoin they hold of the graphs eager loading builds.
 */
module JoinLaws {
  import opened Collections
  import opened Schema
  import opened QueryPlan
  import opened JoinSpec
  import opened JoinTheorem

  lemma JoinRowsMember<R(!new)>(table: seq<R>, s: Settings<R>, on: R -> bool, row: R)
    requires Rearranges(s.order)
    ensures row in JoinRows(table, s, on) <==> row in table && All(Prepared(s).preds, row) && on(row)
  {
    WhereMember(s.order(table), Prepared(s).preds + [on], row);
    AllSingle(Prepared(s).preds, on, row);
    assert row in s.order(table) <==> row in multiset(s.order(table));
  }

  // ----- two routes to the groups

  /** The groups reached through the join rows: account_groups, then each row's group edge. */
  ghost function GroupsThroughMembers(members: seq<AccountGroupTree>): set<LeafRow> {
    set m | m in members && m.group.Some? && m.group.value.Some? :: m.group.value.value
  }

  /** The one group a join row leads to, if the sub-query accepts it. */
  lemma MemberGroupRow(db: Db, s: Settings<LeafRow>, gid: int, g: LeafRow)
    requires db.Valid() && Rearranges(s.order)
    ensures JoinLeaf(db.groups, s, Some(gid)) == Some(g) <==>
            exists row :: row in db.groups.rows && row.id == gid && All(Prepared(s).preds, row)
              && g == LoadLeaf(LeafColumns(s.fields, db.groups.columns), row)
  {
    var cols := LeafColumns(s.fields, db.groups.columns);
    var rows := JoinRows(db.groups.rows, s, LeafIdIs(gid));
    if rows != [] {
      var last := rows[|rows| - 1];
      JoinRowsMember(db.groups.rows, s, LeafIdIs(gid), last);
      assert JoinLeaf(db.groups, s, Some(gid)) == Some(LoadLeaf(cols, last));
    }
    if row :| row in db.groups.rows && row.id == gid && All(Prepared(s).preds, row) && g == LoadLeaf(cols, row) {
      JoinRowsMember(db.groups.rows, s, LeafIdIs(gid), row);
    }
  }

  /** Some join row of the account that the join-row query accepts leads to the group. */
  ghost predicate Kept(db: Db, members: AccountGroupPlan, accountId: int, groupId: int) {
    exists m :: m in db.accountGroups.rows && m.accountId == accountId && m.groupId == groupId && All(Prepared(members.s).preds, m)
  }

  /** Walking account_groups to its group edge reaches exactly the groups behind the accepted join rows. */
  lemma WalkExact(db: Db, groups: Settings<LeafRow>, members: AccountGroupPlan, accountId: int, g: LeafRow)
    requires db.Valid() && Rearranges(groups.order) && Rearranges(members.s.order) && members.w.group == Some(groups)
    ensures g in GroupsThroughMembers(JoinMembers(db, members, accountId)) <==>
            exists row :: row in db.groups.rows && All(Prepared(groups).preds, row) && Kept(db, members, accountId, row.id)
              && g == LoadLeaf(LeafColumns(groups.fields, db.groups.columns), row)
  {
    var rows := JoinRows(db.accountGroups.rows, members.s, MemberIdIs(accountId));
    var trees, cols := JoinMembers(db, members, accountId), LeafColumns(groups.fields, db.groups.columns);
    if g in GroupsThroughMembers(trees) {
      var m :| m in trees && m.group == Some(Some(g));
      var j :| 0 <= j < |trees| && trees[j] == m;
      JoinRowsMember(db.accountGroups.rows, members.s, MemberIdIs(accountId), rows[j]);
      MemberGroupRow(db, groups, rows[j].groupId, g);
      assert Kept(db, members, accountId, rows[j].groupId);
    }
    if row :| row in db.groups.rows && All(Prepared(groups).preds, row) && Kept(db, members, accountId, row.id) && g == LoadLeaf(cols, row) {
      var m :| m in db.accountGroups.rows && m.accountId == accountId && m.groupId == row.id && All(Prepared(members.s).preds, m);
      JoinRowsMember(db.accountGroups.rows, members.s, MemberIdIs(accountId), m);
      var j :| 0 <= j < |rows| && rows[j] == m;
      MemberGroupRow(db, groups, row.id, g);
      assert trees[j].group == Some(Some(g));
    }
  }

  /**
   The walk never reaches a group that the groups edge does not have, and it reaches all of them exactly when the
   join-row query keeps, for every related group the groups query accepts, some join row that leads to it; so
   always when it filters nothing.
   */
  lemma RoutesAgree(db: Db, groups: Settings<LeafRow>, members: AccountGroupPlan, accountId: int)
    requires db.Valid() && Rearranges(groups.order) && Rearranges(members.s.order) && members.w.group == Some(groups)
    ensures GroupsThroughMembers(JoinMembers(db, members, accountId)) <= JoinGroups(db, groups, accountId)
    ensures GroupsThroughMembers(JoinMembers(db, members, accountId)) == JoinGroups(db, groups, accountId) <==> AllKept(db, groups, members, accountId)
    ensures Prepared(members.s).preds == [] ==> AllKept(db, groups, members, accountId)
  {
    var walk, edge, cols := GroupsThroughMembers(JoinMembers(db, members, accountId)), JoinGroups(db, groups, accountId), LeafColumns(groups.fields, db.groups.columns);
    forall g | g in walk ensures g in edge {
      WalkExact(db, groups, members, accountId, g);
      var row :| row in db.groups.rows && All(Prepared(groups).preds, row) && Kept(db, members, accountId, row.id) && g == LoadLeaf(cols, row);
      assert Related(db.accountGroups.rows, accountId, row.id);
    }
    if AllKept(db, groups, members, accountId) {
      forall g | g in edge ensures g in walk {
        WalkExact(db, groups, members, accountId, g);
      }
    }
    if walk == edge {
      forall row | row in db.groups.rows && All(Prepared(groups).preds, row) && Related(db.accountGroups.rows, accountId, row.id)
        ensures Kept(db, members, accountId, row.id)
      {
        EdgeIsWalked(db, groups, members, accountId, row);
      }
    }
  }

  ghost predicate AllKept(db: Db, groups: Settings<LeafRow>, members: AccountGroupPlan, accountId: int) {
    forall row :: row in db.groups.rows && All(Prepared(groups).preds, row) && Related(db.accountGroups.rows, accountId, row.id) ==>
      Kept(db, members, accountId, row.id)
  }

  lemma EdgeIsWalked(db: Db, groups: Settings<LeafRow>, members: AccountGroupPlan, accountId: int, row: LeafRow)
    requires db.Valid() && Rearranges(groups.order) && Rearranges(members.s.order) && members.w.group == Some(groups)
    requires GroupsThroughMembers(JoinMembers(db, members, accountId)) == JoinGroups(db, groups, accountId)
    requires row in db.groups.rows && All(Prepared(groups).preds, row) && Related(db.accountGroups.rows, accountId, row.id)
    ensures Kept(db, members, accountId, row.id)
  {
    var cols := LeafColumns(groups.fields, db.groups.columns);
    var g := LoadLeaf(cols, row);
    assert g in JoinGroups(db, groups, accountId);
    WalkExact(db, groups, members, accountId, g);
    var other :| other in db.groups.rows && All(Prepared(groups).preds, other) && Kept(db, members, accountId, other.id) && g == LoadLeaf(cols, other);
    assert other.id == g.id == row.id;
  }

  // ----- parent and children

  ghost predicate IsChild(db: Db, children: Settings<AccountRow>, p: AccountRow, c: AccountRow) {
    c in JoinRows(db.accounts.rows, children, ParentIdIs(p.id))
  }

  ghost predicate IsParent(db: Db, parent: Settings<AccountRow>, p: AccountRow, c: AccountRow) {
    c.parentId.Some? && LastOf(JoinRows(db.accounts.rows, parent, AccountIdIs(c.parentId.value))) == Some(p)
  }

  /** Who is listed as a child, and who is chosen as the parent, with arbitrary predicates on either query. */
  lemma ParentAndChildRows(db: Db, parent: Settings<AccountRow>, children: Settings<AccountRow>, p: AccountRow, c: AccountRow)
    requires db.Valid() && Rearranges(parent.order) && Rearranges(children.order)
    requires p in db.accounts.rows && c in db.accounts.rows
    ensures IsChild(db, children, p, c) <==> c.parentId == Some(p.id) && All(Prepared(children).preds, c)
    ensures IsParent(db, parent, p, c) <==> c.parentId == Some(p.id) && All(Prepared(parent).preds, p)
  {
    JoinRowsMember(db.accounts.rows, children, ParentIdIs(p.id), c);
    if c.parentId.Some? {
      var fk := c.parentId.value;
      var rows := JoinRows(db.accounts.rows, parent, AccountIdIs(fk));
      JoinRowsMember(db.accounts.rows, parent, AccountIdIs(fk), p);
      if rows != [] {
        JoinRowsMember(db.accounts.rows, parent, AccountIdIs(fk), rows[|rows| - 1]);
      }
    }
  }

  /**
   The two loaders are inverse to each other on a linked pair exactly when the children query accepts the
   child just in case the parent query accepts the parent; in particular when neither filters.
   */
  lemma ParentChildrenInverse(db: Db, parent: Settings<AccountRow>, children: Settings<AccountRow>, p: AccountRow, c: AccountRow)
    requires db.Valid() && Rearranges(parent.order) && Rearranges(children.order)
    requires p in db.accounts.rows && c in db.accounts.rows
    ensures (IsChild(db, children, p, c) <==> IsParent(db, parent, p, c)) <==>
            (c.parentId == Some(p.id) ==> (All(Prepared(children).preds, c) <==> All(Prepared(parent).preds, p)))
  {
    ParentAndChildRows(db, parent, children, p, c);
  }

  /** A child is listed under one parent only. */
  lemma OneParent(db: Db, children: Settings<AccountRow>, p: AccountRow, p': AccountRow, c: AccountRow)
    requires db.Valid() && Rearranges(children.order)
    requires p in db.accounts.rows && p' in db.accounts.rows && c in db.accounts.rows
    requires IsChild(db, children, p, c) && IsChild(db, children, p', c)
    ensures p == p'
  {
    ParentAndChildRows(db, children, children, p, c);
    ParentAndChildRows(db, children, children, p', c);
  }
}

/**
 A limit or an offset on the other sub-queries: proxies, parents and the edges of join rows, which give each node at
 most one neighbour, the join rows themselves, and the groups.
 */
module PagedEdges {
  import opened Collections
  import opened Schema
  import opened QueryPlan
  import opened JoinSpec
  import opened JoinTheorem
  import opened DealingLaws
  import opened PagingLaws
  import opened GroupOrder

  // ----- at most one neighbour per key

  /** The page skips everything, or skips and cuts off nothing. */
  predicate AllOrNone(n: nat, limit: Option<nat>, offset: Option<nat>) {
    n <= Skip(offset) || (Skip(offset) == 0 && End(n, limit, offset) == n)
  }

  lemma {:induction false} OnePosition<K>(keys: seq<K>, i: nat)
    requires Distinct(keys) && i < |keys|
    ensures |Positions(keys, keys[i])| == 1
  {
    var n := |keys| - 1;
    if i < n {
      OnePosition(keys[..n], i);
    } else {
      PickAbsent(keys[..n], keys[..n], keys[n]);
    }
  }

  /** A key that does not repeat leads only if it is the only one. */
  lemma NoLeader<K(!new)>(keys: seq<K>, limit: Option<nat>, offset: Option<nat>, k: K)
    requires Distinct(keys) && Skip(offset) < |keys| && |keys| > 1
    ensures !Leading(keys, limit, offset, k)
  {
    assert End(|keys|, limit, offset) > Skip(offset) && keys[0] != keys[1];
    OnePosition(keys, 1);
  }

  /** Among keys that do not repeat none can lead others. */
  lemma SinglesHarmless<K(!new)>(keys: seq<K>, limit: Option<nat>, offset: Option<nat>)
    requires Distinct(keys)
    ensures Harmless(keys, limit, offset) <==> AllOrNone(|keys|, limit, offset)
  {
    if Skip(offset) < |keys| && |keys| > 1 {
      forall k ensures !Leading(keys, limit, offset, k) {
        NoLeader(keys, limit, offset, k);
      }
    }
  }

  lemma OnlyKey<K>(a: seq<K>, b: seq<K>, k: K)
    requires AllAre(a, k) && AllAre(b, k) && Apart(a, b)
    ensures a == [] <==> b != []
  {
    assert (a != [] ==> a[0] in a) && (b != [] ==> b[0] in b);
  }

  /** A page that is not harmless takes away a key's only row, or gives a row to a key whose own page is empty. */
  lemma SingleCut<K(!new), V>(keys: seq<K>, vals: seq<V>, limit: Option<nat>, offset: Option<nat>) returns (k: K)
    requires |keys| == |vals| && Distinct(keys) && !Harmless(keys, limit, offset)
    ensures |Page(keys, limit, offset)| == |Page(vals, limit, offset)| && k in keys
    ensures Pick(Page(keys, limit, offset), Page(vals, limit, offset), k) == [] <==> Page(Pick(keys, vals, k), limit, offset) != []
  {
    SameLength(keys, vals, limit, offset);
    k := PageCuts(keys, keys, limit, offset);
    var cut := Page(keys, limit, offset);
    PageIs(Pick(keys, keys, k), limit, offset);
    SameLength(Pick(keys, keys, k), Pick(keys, vals, k), limit, offset);
    assert Page(Pick(keys, keys, k), limit, offset) == [] <==> Page(Pick(keys, vals, k), limit, offset) == [];
    assert |Pick(cut, cut, k)| == |Pick(cut, Page(vals, limit, offset), k)|;
    OnlyKey(Pick(cut, cut, k), Page(Pick(keys, keys, k), limit, offset), k);
  }

  /** Every row any of the keys names, before the page is cut. */
  ghost function NamedLeaves(table: Table<LeafRow>, s: Settings<LeafRow>, fks: seq<Option<int>>): seq<LeafRow> {
    Where(s.order(table.rows), Prepared(Constrain(s, LeafIdIn(FirstKeys(fks)))).preds)
  }

  /** What the batch gives the i-th key. */
  ghost function BatchLeaf(table: Table<LeafRow>, s: Settings<LeafRow>, fks: seq<Option<int>>, i: nat): Option<LeafRow>
    requires i < |fks|
  {
    var got := BatchLeaves(table, Constrain(s, LeafIdIn(FirstKeys(fks))));
    OneOf(LeafIds(got), got, fks[i])
  }

  /** What a statement for this key alone would give. */
  ghost function OwnLeaf(table: Table<LeafRow>, s: Settings<LeafRow>, fk: Option<int>): Option<LeafRow> {
    if fk.None? then None
    else LastOf(LoadLeaves(LeafColumns(s.fields, table.columns), Page(JoinRows(table.rows, s, LeafIdIs(fk.value)), s.limit, s.offset)))
  }

  lemma NamedKeys(table: Table<LeafRow>, s: Settings<LeafRow>, fks: seq<Option<int>>)
    requires Rearranges(s.order) && Distinct(LeafIds(table.rows))
    ensures Distinct(LeafIds(NamedLeaves(table, s, fks)))
    ensures forall k :: k in LeafIds(NamedLeaves(table, s, fks)) ==> Some(k) in fks
  {
    var all := NamedLeaves(table, s, fks);
    var preds := Prepared(Constrain(s, LeafIdIn(FirstKeys(fks)))).preds;
    DistinctKeys(table.rows);
    DistinctMatches(table.rows, s, preds);
    forall i, j | 0 <= i < j < |all| ensures all[i].id != all[j].id {
      assert all[i] in all && all[j] in all && all[i] != all[j];
      var p :| 0 <= p < |table.rows| && table.rows[p] == all[i];
      var r :| 0 <= r < |table.rows| && table.rows[r] == all[j];
      assert LeafIds(table.rows)[p] != LeafIds(table.rows)[r];
    }
    forall j | 0 <= j < |all| ensures Some(all[j].id) in fks {
      FetchedHolds(table.rows, s.(limit := None, offset := None), LeafIdIn(FirstKeys(fks)), j);
    }
  }

  lemma OwnLeafIs(table: Table<LeafRow>, s: Settings<LeafRow>, fks: seq<Option<int>>, i: nat)
    requires i < |fks| && fks[i].Some?
    ensures var all := NamedLeaves(table, s, fks);
            OwnLeaf(table, s, fks[i]) == LastOf(LoadLeaves(LeafColumns(s.fields, table.columns), Page(Pick(LeafIds(all), all, fks[i].value), s.limit, s.offset)))
  {
    var all, unpaged, k := NamedLeaves(table, s, fks), s.(limit := None, offset := None), fks[i].value;
    assert fks[i] in fks;
    BatchBucket(table.rows, unpaged, LeafIdIn(FirstKeys(fks)), LeafIdIs(k), LeafIds(all), k);
  }

  lemma BatchLeafIs(table: Table<LeafRow>, s: Settings<LeafRow>, fks: seq<Option<int>>, i: nat)
    requires Id in table.columns && i < |fks| && fks[i].Some?
    ensures var all := NamedLeaves(table, s, fks);
            |Page(LeafIds(all), s.limit, s.offset)| == |Page(all, s.limit, s.offset)|
            && BatchLeaf(table, s, fks, i) ==
               LastOf(LoadLeaves(LeafColumns(s.fields, table.columns), Pick(Page(LeafIds(all), s.limit, s.offset), Page(all, s.limit, s.offset), fks[i].value)))
  {
    var all := NamedLeaves(table, s, fks);
    SameLength(LeafIds(all), all, s.limit, s.offset);
    var got := BatchLeaves(table, Constrain(s, LeafIdIn(FirstKeys(fks))));
    assert got == LoadLeaves(LeafColumns(s.fields, table.columns), Page(all, s.limit, s.offset));
    assert LeafIds(got) == Page(LeafIds(all), s.limit, s.offset);
  }

  /** Every key gets what it would get alone exactly when the page leaves all rows named by the keys, or none. */
  lemma LeafPageExact(table: Table<LeafRow>, s: Settings<LeafRow>, fks: seq<Option<int>>)
    requires Id in table.columns && Rearranges(s.order) && Distinct(LeafIds(table.rows))
    ensures (forall i :: 0 <= i < |fks| ==> BatchLeaf(table, s, fks, i) == OwnLeaf(table, s, fks[i]))
      <==> AllOrNone(|NamedLeaves(table, s, fks)|, s.limit, s.offset)
  {
    var all := NamedLeaves(table, s, fks);
    var keys := LeafIds(all);
    NamedKeys(table, s, fks);
    SinglesHarmless(keys, s.limit, s.offset);
    if Harmless(keys, s.limit, s.offset) {
      forall i | 0 <= i < |fks| ensures BatchLeaf(table, s, fks, i) == OwnLeaf(table, s, fks[i]) {
        if fks[i].Some? {
          OwnLeafIs(table, s, fks, i);
          BatchLeafIs(table, s, fks, i);
          BucketOfPage(keys, all, s.limit, s.offset, fks[i].value);
        }
      }
    } else {
      var k := SingleCut(keys, all, s.limit, s.offset);
      var i :| 0 <= i < |fks| && fks[i] == Some(k);
      OwnLeafIs(table, s, fks, i);
      BatchLeafIs(table, s, fks, i);
    }
  }

  /** Whatever the limit and the offset on the proxies. */
  lemma ProxyPageExact(db: Db, s: Settings<LeafRow>, nodes: seq<AccountRow>)
    requires db.Columned() && Rearranges(s.order) && Distinct(LeafIds(db.proxies.rows))
    ensures (forall i :: 0 <= i < |nodes| ==> BatchProxy(db, s, nodes, i) == OwnLeaf(db.proxies, s, nodes[i].proxyId))
      <==> AllOrNone(|NamedLeaves(db.proxies, s, ProxyIds(nodes))|, s.limit, s.offset)
  {
    LeafPageExact(db.proxies, s, ProxyIds(nodes));
    assert forall i :: 0 <= i < |nodes| ==> ProxyIds(nodes)[i] == nodes[i].proxyId;
    assert forall i :: 0 <= i < |nodes| ==> BatchProxy(db, s, nodes, i) == BatchLeaf(db.proxies, s, ProxyIds(nodes), i);
  }

  /** The same for the groups of join rows. */
  lemma MemberGroupPageExact(db: Db, s: Settings<LeafRow>, nodes: seq<AccountGroupRow>)
    requires db.Valid() && Rearranges(s.order)
    ensures (forall i :: 0 <= i < |nodes| ==> BatchMemberGroup(db, s, nodes, i) == OwnLeaf(db.groups, s, Some(nodes[i].groupId)))
      <==> AllOrNone(|NamedLeaves(db.groups, s, GroupKeys(nodes))|, s.limit, s.offset)
  {
    assert Distinct(LeafIds(db.groups.rows));
    LeafPageExact(db.groups, s, GroupKeys(nodes));
    assert forall i :: 0 <= i < |nodes| ==> GroupKeys(nodes)[i] == Some(nodes[i].groupId);
    assert forall i :: 0 <= i < |nodes| ==> BatchMemberGroup(db, s, nodes, i) == BatchLeaf(db.groups, s, GroupKeys(nodes), i);
  }

  // ----- the same where the neighbour is an account with its own subtree

  ghost function NamedAccounts(db: Db, q: AccountPlan, fks: seq<Option<int>>): seq<AccountRow> {
    Where(q.s.order(db.accounts.rows), Prepared(Constrain(q.s, AccountIdIn(FirstKeys(fks)))).preds)
  }

  ghost function BatchAccount(db: Db, q: AccountPlan, fks: seq<Option<int>>, i: nat): Option<AccountTree>
    requires i < |fks|
  {
    var got := BatchAccounts(db, q.(s := Constrain(q.s, AccountIdIn(FirstKeys(fks)))));
    OneOf(TreeIds(got), got, fks[i])
  }

  ghost function OwnAccount(db: Db, q: AccountPlan, fk: Option<int>): Option<AccountTree> {
    if fk.None? then None
    else LastOf(JoinTrees(db, q.s.fields, q.w, Page(JoinRows(db.accounts.rows, q.s, AccountIdIs(fk.value)), q.s.limit, q.s.offset)))
  }

  lemma NamedAccountKeys(db: Db, q: AccountPlan, fks: seq<Option<int>>)
    requires db.Valid() && Lawful(q.s)
    ensures Distinct(AccountIds(NamedAccounts(db, q, fks)))
    ensures forall k :: k in AccountIds(NamedAccounts(db, q, fks)) ==> Some(k) in fks
  {
    var all, unpaged := NamedAccounts(db, q, fks), q.s.(limit := None, offset := None);
    FetchDistinct(db, Prepared(Constrain(unpaged, AccountIdIn(FirstKeys(fks)))));
    assert all == Fetch(db.accounts.rows, Prepared(Constrain(unpaged, AccountIdIn(FirstKeys(fks)))));
    forall j | 0 <= j < |all| ensures Some(all[j].id) in fks {
      FetchedHolds(db.accounts.rows, unpaged, AccountIdIn(FirstKeys(fks)), j);
    }
  }

  lemma OwnAccountIs(db: Db, q: AccountPlan, fks: seq<Option<int>>, i: nat)
    requires i < |fks| && fks[i].Some?
    ensures var all := NamedAccounts(db, q, fks);
            OwnAccount(db, q, fks[i]) == LastOf(JoinTrees(db, q.s.fields, q.w, Page(Pick(AccountIds(all), all, fks[i].value), q.s.limit, q.s.offset)))
  {
    var all, unpaged, k := NamedAccounts(db, q, fks), q.s.(limit := None, offset := None), fks[i].value;
    assert fks[i] in fks;
    BatchBucket(db.accounts.rows, unpaged, AccountIdIn(FirstKeys(fks)), AccountIdIs(k), AccountIds(all), k);
  }

  lemma BatchAccountIs(db: Db, q: AccountPlan, fks: seq<Option<int>>, i: nat)
    requires db.Valid() && Lawful(q.s) && Joinable(q.w) && i < |fks| && fks[i].Some?
    ensures var all := NamedAccounts(db, q, fks);
            |Page(AccountIds(all), q.s.limit, q.s.offset)| == |Page(all, q.s.limit, q.s.offset)|
            && BatchAccount(db, q, fks, i) ==
               LastOf(JoinTrees(db, q.s.fields, q.w, Pick(Page(AccountIds(all), q.s.limit, q.s.offset), Page(all, q.s.limit, q.s.offset), fks[i].value)))
  {
    var all := NamedAccounts(db, q, fks);
    SameLength(AccountIds(all), all, q.s.limit, q.s.offset);
    var got := BatchAccounts(db, q.(s := Constrain(q.s, AccountIdIn(FirstKeys(fks)))));
    NamedTrees(db, q, fks);
    LastOfBucket(db, q.s.fields, q.w, Page(AccountIds(all), q.s.limit, q.s.offset), Page(all, q.s.limit, q.s.offset), got, fks[i].value);
  }

  lemma NamedTrees(db: Db, q: AccountPlan, fks: seq<Option<int>>)
    requires db.Valid() && Lawful(q.s) && Joinable(q.w)
    ensures var got := BatchAccounts(db, q.(s := Constrain(q.s, AccountIdIn(FirstKeys(fks)))));
            var all := NamedAccounts(db, q, fks);
            got == JoinTrees(db, q.s.fields, q.w, Page(all, q.s.limit, q.s.offset)) && TreeIds(got) == Page(AccountIds(all), q.s.limit, q.s.offset)
  {
    BatchIsJoin(db, q.(s := Constrain(q.s, AccountIdIn(FirstKeys(fks)))));
    var all := NamedAccounts(db, q, fks);
    SameLength(AccountIds(all), all, q.s.limit, q.s.offset);
    assert TreeIds(JoinTrees(db, q.s.fields, q.w, Page(all, q.s.limit, q.s.offset))) == Page(AccountIds(all), q.s.limit, q.s.offset);
  }

  /** The last tree of a bucket is the tree of the bucket's last row. */
  lemma LastOfBucket(db: Db, fields: seq<Column>, w: AccountWith, keys: seq<int>, rows: seq<AccountRow>, trees: seq<AccountTree>, k: int)
    requires db.Columned() && |keys| == |rows| && trees == JoinTrees(db, fields, w, rows)
    ensures OneOf(keys, trees, Some(k)) == LastOf(JoinTrees(db, fields, w, Pick(keys, rows, k)))
  {
  }

  lemma AccountPageExact(db: Db, q: AccountPlan, fks: seq<Option<int>>)
    requires db.Valid() && Lawful(q.s) && Joinable(q.w)
    ensures (forall i :: 0 <= i < |fks| ==> BatchAccount(db, q, fks, i) == OwnAccount(db, q, fks[i]))
      <==> AllOrNone(|NamedAccounts(db, q, fks)|, q.s.limit, q.s.offset)
  {
    var all := NamedAccounts(db, q, fks);
    var keys := AccountIds(all);
    NamedAccountKeys(db, q, fks);
    SinglesHarmless(keys, q.s.limit, q.s.offset);
    if Harmless(keys, q.s.limit, q.s.offset) {
      forall i | 0 <= i < |fks| ensures BatchAccount(db, q, fks, i) == OwnAccount(db, q, fks[i]) {
        if fks[i].Some? {
          OwnAccountIs(db, q, fks, i);
          BatchAccountIs(db, q, fks, i);
          BucketOfPage(keys, all, q.s.limit, q.s.offset, fks[i].value);
        }
      }
    } else {
      var k := SingleCut(keys, all, q.s.limit, q.s.offset);
      var i :| 0 <= i < |fks| && fks[i] == Some(k);
      OwnAccountIs(db, q, fks, i);
      BatchAccountIs(db, q, fks, i);
    }
  }

  /** Whatever the limit and the offset on the parents. */
  lemma ParentPageExact(db: Db, q: AccountPlan, nodes: seq<AccountRow>)
    requires db.Valid() && Lawful(q.s) && Joinable(q.w)
    ensures (forall i :: 0 <= i < |nodes| ==> BatchParent(db, q, nodes, i) == OwnAccount(db, q, nodes[i].parentId))
      <==> AllOrNone(|NamedAccounts(db, q, ParentIds(nodes))|, q.s.limit, q.s.offset)
  {
    AccountPageExact(db, q, ParentIds(nodes));
    assert forall i :: 0 <= i < |nodes| ==> ParentIds(nodes)[i] == nodes[i].parentId;
    assert forall i :: 0 <= i < |nodes| ==> BatchParent(db, q, nodes, i) == BatchAccount(db, q, ParentIds(nodes), i);
  }

  /** The same for the accounts of join rows. */
  lemma MemberAccountPageExact(db: Db, q: AccountPlan, nodes: seq<AccountGroupRow>)
    requires db.Valid() && Lawful(q.s) && Joinable(q.w)
    ensures (forall i :: 0 <= i < |nodes| ==> BatchMemberAccount(db, q, nodes, i) == OwnAccount(db, q, Some(nodes[i].accountId)))
      <==> AllOrNone(|NamedAccounts(db, q, MemberKeys(nodes))|, q.s.limit, q.s.offset)
  {
    AccountPageExact(db, q, MemberKeys(nodes));
    assert forall i :: 0 <= i < |nodes| ==> MemberKeys(nodes)[i] == Some(nodes[i].accountId);
    assert forall i :: 0 <= i < |nodes| ==> BatchMemberAccount(db, q, nodes, i) == BatchAccount(db, q, MemberKeys(nodes), i);
  }

  // ----- join rows

  /** Every join row of any of the nodes, before the page is cut. */
  ghost function MatchingMembers(db: Db, q: AccountGroupPlan, nodes: seq<AccountRow>): seq<AccountGroupRow> {
    Where(q.s.order(db.accountGroups.rows), Prepared(MembersOf(q, AccountIds(nodes)).s).preds)
  }

  ghost function OwnMembers(db: Db, q: AccountGroupPlan, n: AccountRow): seq<AccountGroupTree> {
    JoinMemberTrees(db, WithField(q.s.fields, AccountId), q.w,
                    Page(JoinRows(db.accountGroups.rows, q.s, MemberIdIs(n.id)), q.s.limit, q.s.offset))
  }

  /** The sub-queries of the join rows are unpaged. */
  ghost predicate JoinableMembers(w: AccountGroupWith) {
    && (w.account.Some? ==> var a := w.account.value; Unpaged(a.s) && Lawful(a.s) && Joinable(a.w))
    && (w.group.Some? ==> Unpaged(w.group.value))
  }

  /** The columns of the join rows that are loaded. */
  ghost function MemberColumns(db: Db, q: AccountGroupPlan): seq<Column> {
    AccountGroupColumns(WithField(q.s.fields, AccountId), db.accountGroups.columns, q.w.account.Some?, q.w.group.Some?)
  }

  lemma MatchingMemberOwner(db: Db, q: AccountGroupPlan, nodes: seq<AccountRow>, j: nat)
    requires j < |MatchingMembers(db, q, nodes)|
    ensures MemberIds(MatchingMembers(db, q, nodes))[j] in AccountIds(nodes)
  {
    var unpaged := q.s.(fields := WithField(q.s.fields, AccountId), limit := None, offset := None);
    FetchedHolds(db.accountGroups.rows, unpaged, MemberIdIn(AccountIds(nodes)), j);
  }

  lemma MembersOfNode(db: Db, q: AccountGroupPlan, nodes: seq<AccountRow>, i: nat)
    requires i < |nodes|
    ensures var all := MatchingMembers(db, q, nodes);
            Pick(MemberIds(all), all, nodes[i].id) == JoinRows(db.accountGroups.rows, q.s, MemberIdIs(nodes[i].id))
  {
    var ids, all := AccountIds(nodes), MatchingMembers(db, q, nodes);
    var unpaged := q.s.(fields := WithField(q.s.fields, AccountId), limit := None, offset := None);
    assert ids[i] == nodes[i].id && ids[i] in ids;
    BatchBucket(db.accountGroups.rows, unpaged, MemberIdIn(ids), MemberIdIs(ids[i]), MemberIds(all), ids[i]);
  }

  lemma BatchMemberTrees(db: Db, q: AccountGroupPlan, nodes: seq<AccountRow>)
    requires db.Valid() && JoinableMembers(q.w)
    ensures BatchAccountGroups(db, MembersOf(q, AccountIds(nodes))) ==
            JoinMemberTrees(db, WithField(q.s.fields, AccountId), q.w, Page(MatchingMembers(db, q, nodes), q.s.limit, q.s.offset))
  {
    var asked, fields := MembersOf(q, AccountIds(nodes)), WithField(q.s.fields, AccountId);
    var rows, loaded := Page(MatchingMembers(db, q, nodes), q.s.limit, q.s.offset), AccountGroupNodes(db, asked);
    forall j | 0 <= j < |rows| ensures BatchAccountGroup(db, q.w, loaded, j) == JoinMember(db, fields, q.w, rows[j]) {
      MemberIsJoin(db, fields, q.w, rows, loaded, j);
    }
  }

  lemma MembersOfBatch(db: Db, q: AccountGroupPlan, nodes: seq<AccountRow>, i: nat)
    requires db.Valid() && JoinableMembers(q.w) && i < |nodes| && LastOccurrence(AccountIds(nodes), i)
    ensures var all := MatchingMembers(db, q, nodes);
            |Page(MemberIds(all), q.s.limit, q.s.offset)| == |Page(all, q.s.limit, q.s.offset)|
            && BatchMembers(db, q, nodes, i) ==
               JoinMemberTrees(db, WithField(q.s.fields, AccountId), q.w,
                               Pick(Page(MemberIds(all), q.s.limit, q.s.offset), Page(all, q.s.limit, q.s.offset), nodes[i].id))
  {
    var all, ids := MatchingMembers(db, q, nodes), AccountIds(nodes);
    SameLength(MemberIds(all), all, q.s.limit, q.s.offset);
    BatchMemberTrees(db, q, nodes);
    assert TreeMembers(BatchAccountGroups(db, MembersOf(q, ids))) == Page(MemberIds(all), q.s.limit, q.s.offset);
  }

  /** The key of the table of join rows. */
  ghost predicate KeyedMembers(rows: seq<AccountGroupRow>) {
    forall i, j :: 0 <= i < j < |rows| ==> rows[i].accountId != rows[j].accountId || rows[i].groupId != rows[j].groupId
  }

  /** Join trees of different join rows differ, once both columns of their key are loaded. */
  lemma MemberTreesApart(db: Db, q: AccountGroupPlan, a: seq<AccountGroupRow>, b: seq<AccountGroupRow>)
    requires db.Columned() && KeyedMembers(db.accountGroups.rows) && GroupId in MemberColumns(db, q) && a != b
    requires (forall r :: r in a ==> r in db.accountGroups.rows) && forall r :: r in b ==> r in db.accountGroups.rows
    ensures JoinMemberTrees(db, WithField(q.s.fields, AccountId), q.w, a) != JoinMemberTrees(db, WithField(q.s.fields, AccountId), q.w, b)
  {
    var fields := WithField(q.s.fields, AccountId);
    var ta, tb := JoinMemberTrees(db, fields, q.w, a), JoinMemberTrees(db, fields, q.w, b);
    if |a| == |b| {
      var i :| 0 <= i < |a| && a[i] != b[i];
      assert a[i] in a && b[i] in b;
      assert ta[i].row == LoadAccountGroup(MemberColumns(db, q), a[i]) && tb[i].row == LoadAccountGroup(MemberColumns(db, q), b[i]);
    }
  }

  /**
   Whatever the limit and the offset on the join rows: a harmless page gives every node its own page, and only a harmless
   page does, as long as the group ids, by which one node's rows differ, are loaded.
   */
  lemma MemberPageExact(db: Db, q: AccountGroupPlan, nodes: seq<AccountRow>)
    requires db.Valid() && Rearranges(q.s.order) && JoinableMembers(q.w) && DistinctIds(nodes) && KeyedMembers(db.accountGroups.rows)
    ensures Harmless(MemberIds(MatchingMembers(db, q, nodes)), q.s.limit, q.s.offset) ==>
              forall i :: 0 <= i < |nodes| ==> BatchMembers(db, q, nodes, i) == OwnMembers(db, q, nodes[i])
    ensures GroupId in MemberColumns(db, q) && (forall i :: 0 <= i < |nodes| ==> BatchMembers(db, q, nodes, i) == OwnMembers(db, q, nodes[i])) ==>
              Harmless(MemberIds(MatchingMembers(db, q, nodes)), q.s.limit, q.s.offset)
  {
    var all := MatchingMembers(db, q, nodes);
    var keys := MemberIds(all);
    forall i | 0 <= i < |nodes| ensures LastOccurrence(AccountIds(nodes), i) { }
    if Harmless(keys, q.s.limit, q.s.offset) {
      forall i | 0 <= i < |nodes| ensures BatchMembers(db, q, nodes, i) == OwnMembers(db, q, nodes[i]) {
        MembersOfNode(db, q, nodes, i);
        MembersOfBatch(db, q, nodes, i);
        BucketOfPage(keys, all, q.s.limit, q.s.offset, nodes[i].id);
      }
    } else if GroupId in MemberColumns(db, q) {
      var i := MemberPageCuts(db, q, nodes);
    }
  }

  lemma MemberPageCuts(db: Db, q: AccountGroupPlan, nodes: seq<AccountRow>) returns (i: nat)
    requires db.Valid() && Rearranges(q.s.order) && JoinableMembers(q.w) && DistinctIds(nodes) && KeyedMembers(db.accountGroups.rows)
    requires GroupId in MemberColumns(db, q)
    requires !Harmless(MemberIds(MatchingMembers(db, q, nodes)), q.s.limit, q.s.offset)
    ensures i < |nodes| && BatchMembers(db, q, nodes, i) != OwnMembers(db, q, nodes[i])
  {
    var all := MatchingMembers(db, q, nodes);
    var keys := MemberIds(all);
    DistinctMatches(db.accountGroups.rows, q.s, Prepared(MembersOf(q, AccountIds(nodes)).s).preds);
    var k := PageCuts(keys, all, q.s.limit, q.s.offset);
    var j :| 0 <= j < |keys| && keys[j] == k;
    MatchingMemberOwner(db, q, nodes, j);
    i :| 0 <= i < |nodes| && AccountIds(nodes)[i] == k;
    MembersOfNode(db, q, nodes, i);
    MembersOfBatch(db, q, nodes, i);
    PartOf(keys, all, q.s.limit, q.s.offset, k);
    MemberTreesApart(db, q, Pick(Page(keys, q.s.limit, q.s.offset), Page(all, q.s.limit, q.s.offset), k),
                     Page(Pick(keys, all, k), q.s.limit, q.s.offset));
  }

  // ----- why the group ids matter

  /** One row of the second account among the rows of the first. */
  function FourMembers(): seq<AccountGroupRow> {
    [AccountGroupRow(1, 1, map[]), AccountGroupRow(2, 1, map[]), AccountGroupRow(1, 2, map[]), AccountGroupRow(1, 3, map[])]
  }

  function FourMembersDb(): Db {
    Db(Table(TwoAccounts(), [Id, ProxyId, ParentAccountId]), Table(FourMembers(), [AccountId, GroupId]), Table([], [Id]), Table([], [Id]),
       Table([], [Id, AccountId]))
  }

  /** The third row only, without its group id. */
  function ThirdOnly(): AccountGroupPlan {
    AccountGroupPlan(Settings([AccountId], [], (t: seq<AccountGroupRow>) => t, (t: seq<Pair>) => t, Some(1), Some(2), []),
                     AccountGroupWith(None, None))
  }

  lemma FourMatch()
    ensures MatchingMembers(FourMembersDb(), ThirdOnly(), TwoAccounts()) == FourMembers()
    ensures MemberIds(FourMembers()) == [1, 2, 1, 1]
  {
    var ids, rows := AccountIds(TwoAccounts()), FourMembers();
    assert ids[0] == 1 && ids[1] == 2;
    var p := MemberIdIn(ids);
    var preds := Prepared(MembersOf(ThirdOnly(), ids).s).preds;
    assert preds == [p];
    forall r | r in rows ensures All(preds, r) {
      AllSingle([], p, r);
      assert [] + [p] == preds;
    }
    WhereAll(rows, preds);
  }

  lemma PickOfFour<V>(vals: seq<V>)
    requires |vals| == 4
    ensures Pick([1, 2, 1, 1], vals, 1) == [vals[0], vals[2], vals[3]] && Pick([1, 2, 1, 1], vals, 2) == [vals[1]]
  {
    forall k ensures Pick([1, 2, 1, 1], vals, k) ==
      (if k == 1 then [vals[0]] else []) + (if k == 2 then [vals[1]] else []) + if k == 1 then [vals[2], vals[3]] else []
    {
      var keys := [1, 2, 1, 1];
      assert keys[..4] == keys && vals[..4] == vals && keys[..0] == [] && vals[..0] == [];
      PickPrefix(keys, vals, k, 3);
      PickPrefix(keys, vals, k, 2);
      PickPrefix(keys, vals, k, 1);
      PickPrefix(keys, vals, k, 0);
    }
  }

  /** The third row of all is the first account's second; on its own page it finds its third. */
  lemma PageOfFour<V>(vals: seq<V>)
    requires |vals| == 4
    ensures Page([1, 2, 1, 1], Some(1), Some(2)) == [1] && Page(vals, Some(1), Some(2)) == [vals[2]]
    ensures Pick([1], [vals[2]], 1) == [vals[2]] && Page(Pick([1, 2, 1, 1], vals, 1), Some(1), Some(2)) == [vals[3]]
    ensures Pick([1], [vals[2]], 2) == [] && Page(Pick([1, 2, 1, 1], vals, 2), Some(1), Some(2)) == []
  {
    PickOfFour(vals);
    PickSnoc([1], [vals[2]], 1);
    PickSnoc([1], [vals[2]], 2);
    assert [1][..0] == [] && [vals[2]][..0] == [];
  }

  lemma FourNotHarmless()
    ensures !Harmless([1, 2, 1, 1], Some(1), Some(2))
  {
    assert [1, 2, 1, 1][0] != [1, 2, 1, 1][1];
  }

  /** The first account gets its second row instead of its third, but without group ids nobody can tell. */
  lemma GroupIdsTellRowsApart()
    ensures !Harmless(MemberIds(MatchingMembers(FourMembersDb(), ThirdOnly(), TwoAccounts())), ThirdOnly().s.limit, ThirdOnly().s.offset)
    ensures forall i :: 0 <= i < 2 ==> BatchMembers(FourMembersDb(), ThirdOnly(), TwoAccounts(), i) == OwnMembers(FourMembersDb(), ThirdOnly(), TwoAccounts()[i])
  {
    FourMatch();
    FourNotHarmless();
    forall i | 0 <= i < 2 ensures BatchMembers(FourMembersDb(), ThirdOnly(), TwoAccounts(), i) == OwnMembers(FourMembersDb(), ThirdOnly(), TwoAccounts()[i]) {
      FourAlike(i);
    }
  }

  lemma FourAlike(i: nat)
    requires i < 2
    ensures BatchMembers(FourMembersDb(), ThirdOnly(), TwoAccounts(), i) == OwnMembers(FourMembersDb(), ThirdOnly(), TwoAccounts()[i])
  {
    FourMatch();
    LoadAlike(FourMembersDb(), FourMembers()[2], FourMembers()[3]);
    ThirdForFourth(FourMembersDb(), ThirdOnly(), TwoAccounts(), i);
  }

  lemma ThirdForFourth(db: Db, q: AccountGroupPlan, nodes: seq<AccountRow>, i: nat)
    requires db.Valid() && JoinableMembers(q.w) && q.s.limit == Some(1) && q.s.offset == Some(2)
    requires i < |nodes| && LastOccurrence(AccountIds(nodes), i) && (nodes[i].id == 1 || nodes[i].id == 2)
    requires MemberIds(MatchingMembers(db, q, nodes)) == [1, 2, 1, 1]
    requires |MatchingMembers(db, q, nodes)| == 4
    requires JoinMemberTrees(db, WithField(q.s.fields, AccountId), q.w, [MatchingMembers(db, q, nodes)[2]])
          == JoinMemberTrees(db, WithField(q.s.fields, AccountId), q.w, [MatchingMembers(db, q, nodes)[3]])
    ensures BatchMembers(db, q, nodes, i) == OwnMembers(db, q, nodes[i])
  {
    PageOfFour(MatchingMembers(db, q, nodes));
    MembersOfBatch(db, q, nodes, i);
    MembersOfNode(db, q, nodes, i);
  }

  lemma LoadAlike(db: Db, a: AccountGroupRow, b: AccountGroupRow)
    requires a.accountId == b.accountId && a.data == b.data == map[]
    ensures JoinMemberTrees(db, [AccountId], AccountGroupWith(None, None), [a]) == JoinMemberTrees(db, [AccountId], AccountGroupWith(None, None), [b])
  {
  }

  // ----- groups

  ghost function Owners(pairs: seq<Pair>): (r: seq<int>)
    ensures |r| == |pairs|
    ensures forall i :: 0 <= i < |pairs| ==> r[i] == pairs[i].owner
  {
    seq(|pairs|, i requires 0 <= i < |pairs| => pairs[i].owner)
  }

  /** Every (node, group) pair of any of the nodes, before the page is cut. */
  ghost function MatchingPairs(db: Db, s: Settings<LeafRow>, ids: seq<int>): seq<Pair> {
    WherePairs(s.joined(JoinedPairs(db.accountGroups.rows, db.groups.rows)), Prepared(s).preds, ids)
  }

  ghost function GroupsOf(cols: seq<Column>, pairs: seq<Pair>): set<LeafRow> {
    set p | p in pairs :: LoadLeaf(cols, p.group)
  }

  lemma {:induction false} OfOwnerIsPick(pairs: seq<Pair>, accountId: int)
    ensures OfOwner(pairs, accountId) == Pick(Owners(pairs), pairs, accountId)
  {
    if pairs != [] {
      var n := |pairs| - 1;
      OfOwnerIsPick(pairs[..n], accountId);
      PickSnoc(Owners(pairs), pairs, accountId);
      assert Owners(pairs)[..n] == Owners(pairs[..n]);
    }
  }

  // ----- the pairs do not repeat

  lemma {:induction false} PairsForDistinct(accountId: int, groupId: int, groups: seq<LeafRow>)
    requires Distinct(groups)
    ensures Distinct(PairsFor(accountId, groupId, groups))
  {
    if groups != [] {
      var n := |groups| - 1;
      PairsForDistinct(accountId, groupId, groups[..n]);
      assert groups == groups[..n] + [groups[n]];
    }
  }

  lemma {:induction false} JoinedDistinct(members: seq<AccountGroupRow>, groups: seq<LeafRow>)
    requires KeyedMembers(members) && Distinct(groups)
    ensures Distinct(JoinedPairs(members, groups))
  {
    if members != [] {
      var n := |members| - 1;
      JoinedDistinct(members[..n], groups);
      PairsForDistinct(members[n].accountId, members[n].groupId, groups);
      var before, more := JoinedPairs(members[..n], groups), PairsFor(members[n].accountId, members[n].groupId, groups);
      forall p | p in before ensures p !in more {
        var m :| m in members[..n] && m.accountId == p.owner && m.groupId == p.group.id;
      }
      DistinctAppend(before, more);
    }
  }

  lemma DistinctAppend<T>(a: seq<T>, b: seq<T>)
    requires Distinct(a) && Distinct(b) && forall x :: x in a ==> x !in b
    ensures Distinct(a + b)
  {
    forall i, j | 0 <= i < j < |a + b| ensures (a + b)[i] != (a + b)[j] {
      assert i < |a| ==> a[i] in a;
      assert j >= |a| ==> b[j - |a|] in b;
    }
  }

  lemma {:induction false} WherePairsDistinct(pairs: seq<Pair>, preds: seq<LeafRow -> bool>, ids: seq<int>)
    requires Distinct(pairs)
    ensures Distinct(WherePairs(pairs, preds, ids))
  {
    if pairs != [] {
      var n := |pairs| - 1;
      WherePairsDistinct(pairs[..n], preds, ids);
      assert pairs[n] !in pairs[..n];
    }
  }

  lemma MatchingPairsAre(db: Db, s: Settings<LeafRow>, ids: seq<int>)
    requires db.Valid() && Rearranges(s.joined)
    ensures forall p :: p in MatchingPairs(db, s, ids) ==> p.owner in ids && p.group in db.groups.rows
    ensures KeyedMembers(db.accountGroups.rows) ==> Distinct(MatchingPairs(db, s, ids))
  {
    var joined := JoinedPairs(db.accountGroups.rows, db.groups.rows);
    assert forall p :: p in s.joined(joined) ==> p in multiset(s.joined(joined));
    if KeyedMembers(db.accountGroups.rows) {
      JoinedDistinct(db.accountGroups.rows, db.groups.rows);
      DistinctRearranged(joined, s.joined(joined));
      WherePairsDistinct(s.joined(joined), Prepared(s).preds, ids);
    }
  }

  // ----- a node's groups are those of its pairs on the page

  lemma RowsOfMembers(db: Db, stream: seq<Pair>, accountId: int, g: LeafRow)
    requires db.Valid() && forall p :: p in stream ==> p.group in db.groups.rows
    ensures g in RowsOf(stream, accountId) <==> Pair(accountId, g) in stream
  {
    var rows, linked := FirstRows(stream), LinkedKeys(stream, FirstIds(stream), accountId);
    FirstRowsComplete(stream);
    PickMember(linked, rows, true, g);
    if g in RowsOf(stream, accountId) {
      var at :| 0 <= at < |rows| && linked[at] && rows[at] == g;
      assert g in rows && FirstIds(stream)[at] == g.id;
      var p :| p in stream && p.owner == accountId && p.group.id == g.id;
      assert p.group == g;
    }
    if Pair(accountId, g) in stream {
      assert Pair(accountId, g).group.id in FirstIds(stream);
      var at :| 0 <= at < |rows| && FirstIds(stream)[at] == g.id;
      assert rows[at] in rows && linked[at];
    }
  }

  lemma LoadedGroups(db: Db, cols: seq<Column>, stream: seq<Pair>, accountId: int, g: LeafRow)
    requires db.Valid() && forall p :: p in stream ==> p.group in db.groups.rows
    ensures g in LoadLeaves(cols, RowsOf(stream, accountId)) <==> g in GroupsOf(cols, OfOwner(stream, accountId))
  {
    var rows := RowsOf(stream, accountId);
    OfOwnerMembers(stream, accountId);
    if g in LoadLeaves(cols, rows) {
      var j :| 0 <= j < |rows| && LoadLeaf(cols, rows[j]) == g;
      RowsOfMembers(db, stream, accountId, rows[j]);
      assert Pair(accountId, rows[j]) in OfOwner(stream, accountId);
    }
    if g in GroupsOf(cols, OfOwner(stream, accountId)) {
      var p :| p in OfOwner(stream, accountId) && LoadLeaf(cols, p.group) == g;
      RowsOfMembers(db, stream, accountId, p.group);
      var j :| 0 <= j < |rows| && rows[j] == p.group;
      assert LoadLeaves(cols, rows)[j] == g;
    }
  }

  lemma StreamInTable(db: Db, s: Settings<LeafRow>, ids: seq<int>)
    requires db.Valid() && Rearranges(s.joined)
    ensures forall p :: p in Stream(db, Prepared(s), ids) ==> p.owner in ids && p.group in db.groups.rows
  {
    MatchingPairsAre(db, s, ids);
    PageIs(MatchingPairs(db, s, ids), s.limit, s.offset);
  }

  lemma BatchGroupsAre(db: Db, s: Settings<LeafRow>, nodes: seq<AccountRow>, i: nat)
    requires db.Valid() && Rearranges(s.joined) && i < |nodes| && LastOccurrence(AccountIds(nodes), i)
    ensures BatchGroups(db, s, nodes, i) ==
            GroupsOf(LeafColumns(s.fields, db.groups.columns), OfOwner(Stream(db, Prepared(s), AccountIds(nodes)), nodes[i].id))
  {
    var stream, cols := Stream(db, Prepared(s), AccountIds(nodes)), LeafColumns(s.fields, db.groups.columns);
    StreamInTable(db, s, AccountIds(nodes));
    BatchList(db, s, nodes, i);
    forall g ensures g in LoadLeaves(cols, RowsOf(stream, nodes[i].id)) <==> g in GroupsOf(cols, OfOwner(stream, nodes[i].id)) {
      LoadedGroups(db, cols, stream, nodes[i].id, g);
    }
  }

  /** In the batch: the bucket of the page. */
  lemma GroupsInBatch(db: Db, s: Settings<LeafRow>, nodes: seq<AccountRow>, i: nat)
    requires db.Valid() && Rearranges(s.joined) && i < |nodes| && LastOccurrence(AccountIds(nodes), i)
    ensures var all := MatchingPairs(db, s, AccountIds(nodes));
            |Page(Owners(all), s.limit, s.offset)| == |Page(all, s.limit, s.offset)|
            && BatchGroups(db, s, nodes, i) ==
               GroupsOf(LeafColumns(s.fields, db.groups.columns), Pick(Page(Owners(all), s.limit, s.offset), Page(all, s.limit, s.offset), nodes[i].id))
  {
    var all := MatchingPairs(db, s, AccountIds(nodes));
    BatchGroupsAre(db, s, nodes, i);
    PageOfOwner(all, s.limit, s.offset, nodes[i].id);
  }

  lemma PageOfOwner(all: seq<Pair>, limit: Option<nat>, offset: Option<nat>, k: int)
    ensures |Page(Owners(all), limit, offset)| == |Page(all, limit, offset)|
    ensures OfOwner(Page(all, limit, offset), k) == Pick(Page(Owners(all), limit, offset), Page(all, limit, offset), k)
  {
    SameLength(Owners(all), all, limit, offset);
    OfOwnerIsPick(Page(all, limit, offset), k);
    assert Owners(Page(all, limit, offset)) == Page(Owners(all), limit, offset);
  }

  /** Alone: the page of the bucket. */
  lemma GroupsAlone(db: Db, s: Settings<LeafRow>, nodes: seq<AccountRow>, i: nat)
    requires db.Valid() && Rearranges(s.joined) && i < |nodes|
    ensures var all := MatchingPairs(db, s, AccountIds(nodes));
            BatchGroups(db, s, [nodes[i]], 0) ==
            GroupsOf(LeafColumns(s.fields, db.groups.columns), Page(Pick(Owners(all), all, nodes[i].id), s.limit, s.offset))
  {
    var ids, id := AccountIds(nodes), nodes[i].id;
    assert ids[i] in ids;
    assert AccountIds([nodes[i]]) == [id];
    BatchGroupsAre(db, s, [nodes[i]], 0);
    AloneStream(db, s, ids, id);
    StreamInTable(db, s, [id]);
    AllOwned(Stream(db, Prepared(s), [id]), id);
  }

  lemma AloneStream(db: Db, s: Settings<LeafRow>, ids: seq<int>, id: int)
    requires id in ids
    ensures var all := MatchingPairs(db, s, ids);
            Stream(db, Prepared(s), [id]) == Page(Pick(Owners(all), all, id), s.limit, s.offset)
  {
    OwnPairs(s.joined(JoinedPairs(db.accountGroups.rows, db.groups.rows)), Prepared(s).preds, ids, id);
    OfOwnerIsPick(MatchingPairs(db, s, ids), id);
  }

  lemma {:induction false} AllOwned(pairs: seq<Pair>, accountId: int)
    ensures (forall p :: p in pairs ==> p.owner == accountId) ==> OfOwner(pairs, accountId) == pairs
  {
    if pairs != [] {
      var n := |pairs| - 1;
      AllOwned(pairs[..n], accountId);
      assert pairs == pairs[..n] + [pairs[n]];
    }
  }

  /** One account's pairs are told apart by the loaded ids of their groups. */
  lemma GroupsApart(db: Db, cols: seq<Column>, a: seq<Pair>, b: seq<Pair>, accountId: int)
    requires db.Valid() && Id in cols && Apart(a, b)
    requires forall p :: p in a || p in b ==> p.owner == accountId && p.group in db.groups.rows
    ensures GroupsOf(cols, a) != GroupsOf(cols, b)
  {
    if p :| p in a && p !in b {
      NotAmong(db, cols, b, p);
    } else {
      var p :| p in b && p !in a;
      NotAmong(db, cols, a, p);
    }
  }

  lemma NotAmong(db: Db, cols: seq<Column>, pairs: seq<Pair>, p: Pair)
    requires db.Valid() && Id in cols && p !in pairs && p.group in db.groups.rows
    requires forall q :: q in pairs ==> q.owner == p.owner && q.group in db.groups.rows
    ensures LoadLeaf(cols, p.group) !in GroupsOf(cols, pairs)
  {
    forall q | q in pairs ensures LoadLeaf(cols, q.group) != LoadLeaf(cols, p.group) {
      assert q.group != p.group;
    }
  }

  /**
   Whatever the limit and the offset on the groups: every node gets the groups it would get alone exactly when the page of
   the joined rows is harmless.
   */
  lemma GroupPageExact(db: Db, s: Settings<LeafRow>, nodes: seq<AccountRow>)
    requires db.Valid() && Rearranges(s.joined) && DistinctIds(nodes) && KeyedMembers(db.accountGroups.rows)
    ensures (forall i :: 0 <= i < |nodes| ==> BatchGroups(db, s, nodes, i) == BatchGroups(db, s, [nodes[i]], 0))
      <==> Harmless(Owners(MatchingPairs(db, s, AccountIds(nodes))), s.limit, s.offset)
  {
    var all := MatchingPairs(db, s, AccountIds(nodes));
    forall i | 0 <= i < |nodes| ensures LastOccurrence(AccountIds(nodes), i) { }
    if Harmless(Owners(all), s.limit, s.offset) {
      forall i | 0 <= i < |nodes| ensures BatchGroups(db, s, nodes, i) == BatchGroups(db, s, [nodes[i]], 0) {
        GroupsInBatch(db, s, nodes, i);
        GroupsAlone(db, s, nodes, i);
        BucketOfPage(Owners(all), all, s.limit, s.offset, nodes[i].id);
      }
    } else {
      var i := GroupPageCuts(db, s, nodes);
    }
  }

  lemma GroupPageCuts(db: Db, s: Settings<LeafRow>, nodes: seq<AccountRow>) returns (i: nat)
    requires db.Valid() && Rearranges(s.joined) && DistinctIds(nodes) && KeyedMembers(db.accountGroups.rows)
    requires !Harmless(Owners(MatchingPairs(db, s, AccountIds(nodes))), s.limit, s.offset)
    ensures i < |nodes| && BatchGroups(db, s, nodes, i) != BatchGroups(db, s, [nodes[i]], 0)
  {
    var all := MatchingPairs(db, s, AccountIds(nodes));
    var keys := Owners(all);
    MatchingPairsAre(db, s, AccountIds(nodes));
    var k := PageCuts(keys, all, s.limit, s.offset);
    var j :| 0 <= j < |keys| && keys[j] == k;
    assert all[j] in all;
    i :| 0 <= i < |nodes| && AccountIds(nodes)[i] == k;
    GroupsInBatch(db, s, nodes, i);
    GroupsAlone(db, s, nodes, i);
    PartsOwned(db, all, s.limit, s.offset, k);
    GroupsApart(db, LeafColumns(s.fields, db.groups.columns), Pick(Page(keys, s.limit, s.offset), Page(all, s.limit, s.offset), k),
                Page(Pick(keys, all, k), s.limit, s.offset), k);
  }

  lemma PartsOwned(db: Db, all: seq<Pair>, limit: Option<nat>, offset: Option<nat>, k: int)
    requires |Page(Owners(all), limit, offset)| == |Page(all, limit, offset)|
    requires forall p :: p in all ==> p.group in db.groups.rows
    ensures forall p :: p in Pick(Page(Owners(all), limit, offset), Page(all, limit, offset), k) ==> p.owner == k && p.group in db.groups.rows
    ensures forall p :: p in Page(Pick(Owners(all), all, k), limit, offset) ==> p.owner == k && p.group in db.groups.rows
  {
    PartOf(Owners(all), all, limit, offset, k);
    PageOfOwner(all, limit, offset, k);
    OfOwnerMembers(Page(all, limit, offset), k);
    OfOwnerIsPick(all, k);
    OfOwnerMembers(all, k);
    PageMembers(OfOwner(all, k), limit, offset);
  }
}

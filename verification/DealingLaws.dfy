/**
 One-to-many edges: the neighbours of a batch are dealt out to the nodes without loss or duplication, whatever
 limit and offset the sub-query carries.
 */
module DealingLaws {
  import opened Collections
  import opened Schema
  import opened QueryPlan
  import opened JoinSpec

  // ----- dealing out by id

  function Sum(s: seq<nat>, n: nat): nat
    requires n <= |s|
  {
    if n == 0 then 0 else Sum(s, n - 1) + s[n - 1]
  }

  lemma {:induction false} SumAdd(s: seq<nat>, t: seq<nat>, u: seq<nat>, n: nat)
    requires n <= |s| == |t| == |u| && forall i :: 0 <= i < n ==> s[i] == t[i] + u[i]
    ensures Sum(s, n) == Sum(t, n) + Sum(u, n)
  {
    if n > 0 {
      SumAdd(s, t, u, n - 1);
    }
  }

  ghost function Sizes<V>(keys: seq<int>, vals: seq<V>, ids: seq<int>): (r: seq<nat>)
    requires |keys| == |vals|
    ensures |r| == |ids| && forall i :: 0 <= i < |r| ==> r[i] == |Dealt(keys, vals, ids, i)|
  {
    seq(|ids|, i requires 0 <= i < |ids| => |Dealt(keys, vals, ids, i)|)
  }

  /** The bucket sizes of all nodes together. */
  ghost function Total<V>(keys: seq<int>, vals: seq<V>, ids: seq<int>): nat
    requires |keys| == |vals|
  {
    Sum(Sizes(keys, vals, ids), |ids|)
  }

  /** 1 for the node the id leads to, 0 for the others. */
  ghost function Holders(ids: seq<int>, id: int): (r: seq<nat>)
    ensures |r| == |ids| && forall i :: 0 <= i < |r| ==> r[i] == if LastOccurrence(ids, i) && ids[i] == id then 1 else 0
  {
    seq(|ids|, i requires 0 <= i < |ids| => if LastOccurrence(ids, i) && ids[i] == id then 1 else 0)
  }

  lemma {:induction false} NoHolderBefore(ids: seq<int>, id: int, n: nat, last: nat)
    requires n <= last < |ids| && ids[last] == id
    ensures Sum(Holders(ids, id), n) == 0
  {
    if n > 0 {
      NoHolderBefore(ids, id, n - 1, last);
    }
  }

  /** Every id present leads to exactly one node. */
  lemma {:induction false} OneHolder(ids: seq<int>, id: int, n: nat)
    requires n <= |ids| && id in ids && forall j :: n <= j < |ids| ==> ids[j] != id
    ensures Sum(Holders(ids, id), n) == 1
  {
    if ids[n - 1] == id {
      NoHolderBefore(ids, id, n - 1, n - 1);
    } else {
      OneHolder(ids, id, n - 1);
    }
  }

  lemma DealtSnoc<V>(keys: seq<int>, vals: seq<V>, k: int, v: V, ids: seq<int>, i: nat)
    requires |keys| == |vals| && i < |ids|
    ensures |Dealt(keys + [k], vals + [v], ids, i)| == |Dealt(keys, vals, ids, i)| + (if LastOccurrence(ids, i) && ids[i] == k then 1 else 0)
  {
    assert (keys + [k])[..|keys|] == keys && (vals + [v])[..|vals|] == vals;
    PickSnoc(keys + [k], vals + [v], ids[i]);
  }

  lemma TotalSnoc<V>(keys: seq<int>, vals: seq<V>, k: int, v: V, ids: seq<int>)
    requires |keys| == |vals|
    ensures Total(keys + [k], vals + [v], ids) == Total(keys, vals, ids) + Sum(Holders(ids, k), |ids|)
  {
    forall i | 0 <= i < |ids| ensures Sizes(keys + [k], vals + [v], ids)[i] == Sizes(keys, vals, ids)[i] + Holders(ids, k)[i] {
      DealtSnoc(keys, vals, k, v, ids, i);
    }
    SumAdd(Sizes(keys + [k], vals + [v], ids), Sizes(keys, vals, ids), Holders(ids, k), |ids|);
  }

  lemma {:induction false} NothingDealt<V>(ids: seq<int>, n: nat)
    requires n <= |ids|
    ensures Sum(Sizes<V>([], [], ids), n) == 0
  {
    if n > 0 {
      NothingDealt<V>(ids, n - 1);
    }
  }

  /**
   Dealing neighbours out to nodes by id is a partition: when every neighbour's key is some node's id, the
   lists together hold exactly as many neighbours as there are, even when node ids repeat.
   */
  lemma {:induction false} DealtIsPartition<V>(keys: seq<int>, vals: seq<V>, ids: seq<int>)
    requires |keys| == |vals| && forall j :: 0 <= j < |keys| ==> keys[j] in ids
    ensures Total(keys, vals, ids) == |vals|
  {
    if keys == [] {
      NothingDealt<V>(ids, |ids|);
    } else {
      var m := |keys| - 1;
      var k, v, key, val := keys[..m], vals[..m], keys[m], vals[m];
      assert keys == k + [key] && vals == v + [val];
      DealtIsPartition(k, v, ids);
      OneHolder(ids, key, |ids|);
      TotalSnoc(k, v, key, val, ids);
    }
  }

  /** The same for a nullable key, when no neighbour's key is null. */
  lemma DealtSomeIsDealt<V>(keys: seq<Option<int>>, plain: seq<int>, vals: seq<V>, ids: seq<int>, i: nat)
    requires |keys| == |plain| == |vals| && i < |ids|
    requires forall j :: 0 <= j < |keys| ==> keys[j] == Some(plain[j])
    ensures DealtSome(keys, vals, ids, i) == Dealt(plain, vals, ids, i)
  {
    SamePositions(keys, plain, ids[i]);
  }

  lemma {:induction false} SamePositions(keys: seq<Option<int>>, plain: seq<int>, k: int)
    requires |keys| == |plain| && forall j :: 0 <= j < |keys| ==> keys[j] == Some(plain[j])
    ensures Positions(keys, Some(k)) == Positions(plain, k)
  {
    if keys != [] {
      SamePositions(keys[..|keys| - 1], plain[..|plain| - 1], k);
    }
  }

  // ----- the batches of the loaders

  /** Every row a constrained query returns satisfies the constraint, on any page. */
  lemma FetchedHolds<R>(table: seq<R>, s: Settings<R>, p: R -> bool, j: nat)
    requires j < |Fetch(table, Prepared(Constrain(s, p)))|
    ensures p(Fetch(table, Prepared(Constrain(s, p)))[j])
  {
    var preds := Prepared(Constrain(s, p)).preds;
    var all := Where(s.order(table), preds);
    var skip := if s.offset.Some? then s.offset.value else 0;
    var row := Fetch(table, Prepared(Constrain(s, p)))[j];
    assert row == all[skip + j];
    WhereMember(s.order(table), preds, row);
    assert preds[|s.preds|] == p;
  }

  ghost function LogCounts(db: Db, s: Settings<LeafRow>, nodes: seq<AccountRow>): (r: seq<nat>)
    ensures |r| == |nodes| && forall i :: 0 <= i < |r| ==> r[i] == |BatchUsageLogs(db, s, nodes, i)|
  {
    seq(|nodes|, i requires 0 <= i < |nodes| => |BatchUsageLogs(db, s, nodes, i)|)
  }

  ghost function ChildCounts(db: Db, q: AccountPlan, nodes: seq<AccountRow>): (r: seq<nat>)
    ensures |r| == |nodes| && forall i :: 0 <= i < |r| ==> r[i] == |BatchChildren(db, q, nodes, i)|
  {
    seq(|nodes|, i requires 0 <= i < |nodes| => |BatchChildren(db, q, nodes, i)|)
  }

  ghost function MemberCounts(db: Db, q: AccountGroupPlan, nodes: seq<AccountRow>): (r: seq<nat>)
    ensures |r| == |nodes| && forall i :: 0 <= i < |r| ==> r[i] == |BatchMembers(db, q, nodes, i)|
  {
    seq(|nodes|, i requires 0 <= i < |nodes| => |BatchMembers(db, q, nodes, i)|)
  }

  /** Every usage log a batch returns is on exactly one node, whatever the page and however node ids repeat. */
  lemma UsageLogsArePartitioned(db: Db, s: Settings<LeafRow>, nodes: seq<AccountRow>)
    requires db.Columned()
    ensures Sum(LogCounts(db, s, nodes), |nodes|) == |BatchLeaves(db.usageLogs, UsageLogsOf(s, AccountIds(nodes)))|
  {
    var ids := AccountIds(nodes);
    var logs := BatchLeaves(db.usageLogs, UsageLogsOf(s, ids));
    forall j | 0 <= j < |logs| ensures OwnerIds(logs)[j] in ids {
      FetchedHolds(db.usageLogs.rows, s.(fields := WithField(s.fields, AccountId)), OwnerIdIn(ids), j);
    }
    DealtIsPartition(OwnerIds(logs), logs, ids);
    assert LogCounts(db, s, nodes) == Sizes(OwnerIds(logs), logs, ids);
  }

  /** Every child a batch returns is on exactly one node. */
  lemma ChildrenArePartitioned(db: Db, q: AccountPlan, nodes: seq<AccountRow>)
    requires db.Columned()
    ensures Sum(ChildCounts(db, q, nodes), |nodes|) == |BatchAccounts(db, ChildrenOf(q, AccountIds(nodes)))|
  {
    var ids := AccountIds(nodes);
    var children := BatchAccounts(db, ChildrenOf(q, ids));
    var rows := Fetch(db.accounts.rows, Prepared(ChildrenOf(q, ids).s));
    forall j | 0 <= j < |children| ensures TreeParents(children)[j] == rows[j].parentId && rows[j].parentId.Some? && rows[j].parentId.value in ids {
      FetchedHolds(db.accounts.rows, q.s.(fields := WithField(q.s.fields, ParentAccountId)), ParentIdIn(ids), j);
    }
    var plain := seq(|children|, j requires 0 <= j < |children| => rows[j].parentId.value);
    DealtIsPartition(plain, children, ids);
    forall i | 0 <= i < |ids| ensures ChildCounts(db, q, nodes)[i] == Sizes(plain, children, ids)[i] {
      DealtSomeIsDealt(TreeParents(children), plain, children, ids, i);
    }
    assert ChildCounts(db, q, nodes) == Sizes(plain, children, ids);
  }

  /** Every join row a batch returns is on exactly one node. */
  lemma MembersArePartitioned(db: Db, q: AccountGroupPlan, nodes: seq<AccountRow>)
    requires db.Columned()
    ensures Sum(MemberCounts(db, q, nodes), |nodes|) == |BatchAccountGroups(db, MembersOf(q, AccountIds(nodes)))|
  {
    var ids := AccountIds(nodes);
    var members := BatchAccountGroups(db, MembersOf(q, ids));
    forall j | 0 <= j < |members| ensures TreeMembers(members)[j] in ids {
      FetchedHolds(db.accountGroups.rows, q.s.(fields := WithField(q.s.fields, AccountId)), MemberIdIn(ids), j);
    }
    DealtIsPartition(TreeMembers(members), members, ids);
    assert MemberCounts(db, q, nodes) == Sizes(TreeMembers(members), members, ids);
  }
}

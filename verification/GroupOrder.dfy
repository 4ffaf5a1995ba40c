/**
 The groups edge as a list: each group once, in the order in which the stream of the whole batch first shows it.
 The laws here say exactly when that is the order the node would have got on its own.
 */
module GroupOrder {
  import opened Collections
  import opened Schema
  import opened QueryPlan
  import opened JoinSpec
  import opened JoinTheorem

  ghost function FirstIds(stream: seq<Pair>): seq<int> {
    LeafIds(FirstRows(stream))
  }

  /** The first row of every group linked to the account, in order of first appearance in the stream. */
  ghost function RowsOf(stream: seq<Pair>, accountId: int): seq<LeafRow> {
    Pick(LinkedKeys(stream, FirstIds(stream), accountId), FirstRows(stream), true)
  }

  /** Some row of group `g` comes before every row of group `h`. */
  ghost predicate Before(stream: seq<Pair>, g: int, h: int) {
    exists p :: 0 <= p < |stream| && FirstAt(stream, g, h, p)
  }

  ghost predicate FirstAt(stream: seq<Pair>, g: int, h: int, p: nat)
    requires p < |stream|
  {
    stream[p].group.id == g && forall r :: 0 <= r <= p ==> stream[r].group.id != h
  }

  lemma BeforeIsStrict(stream: seq<Pair>, g: int, h: int)
    ensures !(Before(stream, g, h) && Before(stream, h, g))
  {
  }

  // ----- first appearance

  lemma BeforeSnoc(stream: seq<Pair>, g: int, h: int)
    requires stream != [] && Before(stream[..|stream| - 1], g, h)
    ensures Before(stream, g, h)
  {
    var before := stream[..|stream| - 1];
    var p :| 0 <= p < |before| && FirstAt(before, g, h, p);
    assert forall r :: 0 <= r <= p ==> before[r] == stream[r];
    assert FirstAt(stream, g, h, p);
  }

  /** The groups are listed in the order in which the stream shows them first. */
  lemma {:induction false} FirstIdsInOrder(stream: seq<Pair>)
    ensures forall i, j :: 0 <= i < j < |FirstIds(stream)| ==> Before(stream, FirstIds(stream)[i], FirstIds(stream)[j])
  {
    if stream != [] {
      var n := |stream| - 1;
      FirstIdsInOrder(stream[..n]);
      FirstRowsStep(stream, n);
      assert stream[..n + 1] == stream;
      var was, now, id := FirstIds(stream[..n]), FirstIds(stream), stream[n].group.id;
      forall i, j | 0 <= i < j < |now| ensures Before(stream, now[i], now[j]) {
        if j < |was| {
          BeforeSnoc(stream, now[i], now[j]);
        } else {
          NewGroup(stream, was[i]);
        }
      }
    }
  }

  /** A group that has been listed comes before one that shows up last. */
  lemma NewGroup(stream: seq<Pair>, g: int)
    requires stream != [] && g in FirstIds(stream[..|stream| - 1])
    requires stream[|stream| - 1].group.id !in FirstIds(stream[..|stream| - 1])
    ensures Before(stream, g, stream[|stream| - 1].group.id)
  {
    var n := |stream| - 1;
    var was := stream[..n];
    FirstRowsComplete(was);
    var i :| 0 <= i < |FirstIds(was)| && FirstIds(was)[i] == g;
    assert FirstRows(was)[i] in FirstRows(was);
    var p :| p in was && p.group == FirstRows(was)[i];
    var at :| 0 <= at < |was| && was[at] == p;
    forall r | 0 <= r <= at ensures stream[r].group.id != stream[n].group.id {
      assert was[r] in was;
    }
    assert FirstAt(stream, g, stream[n].group.id, at);
  }

  /** A list without repetition is determined by its members and their order. */
  lemma {:induction false} OneOrder(a: seq<int>, b: seq<int>, stream: seq<Pair>)
    requires Distinct(a) && Distinct(b) && Within(a, b) && Within(b, a) && |a| == |b|
    requires forall i, j :: 0 <= i < j < |a| ==> Before(stream, a[i], a[j])
    requires forall i, j :: 0 <= i < j < |b| ==> Before(stream, b[i], b[j])
    ensures a == b
    decreases |a|
  {
    if a != [] {
      SameHead(a, b, stream);
      TailWithin(a, b);
      TailWithin(b, a);
      OneOrder(a[1..], b[1..], stream);
    }
  }

  lemma SameHead(a: seq<int>, b: seq<int>, stream: seq<Pair>)
    requires a != [] && b != [] && Within(a, b) && Within(b, a)
    requires forall i, j :: 0 <= i < j < |a| ==> Before(stream, a[i], a[j])
    requires forall i, j :: 0 <= i < j < |b| ==> Before(stream, b[i], b[j])
    ensures a[0] == b[0]
  {
    var i :| 0 <= i < |a| && a[i] == b[0];
    var j :| 0 <= j < |b| && b[j] == a[0];
    BeforeIsStrict(stream, a[0], b[0]);
  }

  lemma {:induction false} DistinctSize(s: seq<int>)
    requires Distinct(s)
    ensures |set x | x in s| == |s|
  {
    if s != [] {
      var n := |s| - 1;
      DistinctSize(s[..n]);
      assert s == s[..n] + [s[n]];
      assert (set x | x in s) == (set x | x in s[..n]) + {s[n]};
    }
  }

  lemma SameSize(a: seq<int>, b: seq<int>)
    requires Distinct(a) && Distinct(b) && Within(a, b) && Within(b, a)
    ensures |a| == |b|
  {
    DistinctSize(a);
    DistinctSize(b);
    assert (set x | x in a) == (set x | x in b);
  }

  ghost predicate Within(a: seq<int>, b: seq<int>) {
    forall i :: 0 <= i < |a| ==> a[i] in b
  }

  lemma TailWithin(a: seq<int>, b: seq<int>)
    requires a != [] && b != [] && a[0] == b[0] && Distinct(a) && Within(a, b)
    ensures Within(a[1..], b[1..])
  {
    forall i | 0 <= i < |a[1..]| ensures a[1..][i] in b[1..] {
      assert a[i + 1] in b && a[i + 1] != a[0];
      var j :| 0 <= j < |b| && b[j] == a[i + 1];
      assert b[1..][j - 1] == a[1..][i];
    }
  }

  // ----- one node's part of the stream

  /** The rows of one account. */
  ghost function OfOwner(stream: seq<Pair>, accountId: int): seq<Pair> {
    if stream == [] then []
    else
      var n := |stream| - 1;
      OfOwner(stream[..n], accountId) + (if stream[n].owner == accountId then [stream[n]] else [])
  }

  lemma {:induction false} OfOwnerMembers(stream: seq<Pair>, accountId: int)
    ensures forall p :: p in OfOwner(stream, accountId) <==> p in stream && p.owner == accountId
  {
    if stream != [] {
      var n := |stream| - 1;
      OfOwnerMembers(stream[..n], accountId);
      assert stream == stream[..n] + [stream[n]];
    }
  }

  lemma {:induction false} OwnPairs(pairs: seq<Pair>, preds: seq<LeafRow -> bool>, ids: seq<int>, accountId: int)
    requires accountId in ids
    ensures WherePairs(pairs, preds, [accountId]) == OfOwner(WherePairs(pairs, preds, ids), accountId)
  {
    if pairs != [] {
      var n := |pairs| - 1;
      OwnPairs(pairs[..n], preds, ids, accountId);
      var before := WherePairs(pairs[..n], preds, ids);
      var all := WherePairs(pairs, preds, ids);
      if all != before {
        assert all[..|all| - 1] == before && all[|all| - 1] == pairs[n];
      }
    }
  }

  /** Without a limit, the node's own statement returns its part of the batch's stream. */
  lemma OwnStream(db: Db, s: Settings<LeafRow>, ids: seq<int>, accountId: int)
    requires Unpaged(s) && accountId in ids
    ensures Stream(db, s, [accountId]) == OfOwner(Stream(db, s, ids), accountId)
  {
    OwnPairs(s.joined(JoinedPairs(db.accountGroups.rows, db.groups.rows)), s.preds, ids, accountId);
  }

  /** The groups of one account among the stream's: in order, each once, and exactly the linked ones. */
  lemma RowsOfInOrder(stream: seq<Pair>, accountId: int)
    ensures var ids := LeafIds(RowsOf(stream, accountId));
            && Distinct(ids) && (forall g :: g in ids <==> Linked(stream, accountId, g))
            && forall i, j :: 0 <= i < j < |ids| ==> Before(stream, ids[i], ids[j])
  {
    var all, linked := FirstIds(stream), LinkedKeys(stream, FirstIds(stream), accountId);
    var rows, ids := RowsOf(stream, accountId), LeafIds(RowsOf(stream, accountId));
    var at := Positions(linked, true);
    FirstRowsDistinct(stream);
    FirstIdsInOrder(stream);
    assert forall i :: 0 <= i < |ids| ==> ids[i] == all[at[i]];
    forall g ensures g in ids <==> Linked(stream, accountId, g) {
      if Linked(stream, accountId, g) {
        var p :| p in stream && p.owner == accountId && p.group.id == g;
        FirstRowsComplete(stream);
        var k :| 0 <= k < |all| && all[k] == g;
        PositionsComplete(linked, true, k);
        var i :| 0 <= i < |at| && at[i] == k;
        assert ids[i] == g;
      }
    }
  }

  /** The account's own rows show its groups as the whole stream does. */
  ghost predicate SameOrder(stream: seq<Pair>, accountId: int) {
    forall g, h :: g != h && Linked(stream, accountId, g) && Linked(stream, accountId, h) ==>
      (Before(stream, g, h) <==> Before(OfOwner(stream, accountId), g, h))
  }

  /** The list in the batch. */
  lemma BatchList(db: Db, s: Settings<LeafRow>, nodes: seq<AccountRow>, i: nat)
    requires db.Columned() && i < |nodes| && LastOccurrence(AccountIds(nodes), i)
    ensures BatchGroupList(db, s, nodes, i) ==
            LoadLeaves(LeafColumns(s.fields, db.groups.columns), RowsOf(Stream(db, Prepared(s), AccountIds(nodes)), nodes[i].id))
  {
    var ids := AccountIds(nodes);
    var stream := Stream(db, Prepared(s), ids);
    var groups := LoadLeaves(LeafColumns(s.fields, db.groups.columns), FirstRows(stream));
    assert LeafIds(groups) == FirstIds(stream);
    assert ids[i] == nodes[i].id;
  }

  /** Lists of rows of the groups table are equal, loaded with any columns, exactly if their ids are. */
  lemma SameIds(db: Db, cols: seq<Column>, a: seq<LeafRow>, b: seq<LeafRow>)
    requires db.Valid() && Id in cols
    requires (forall r :: r in a ==> r in db.groups.rows) && forall r :: r in b ==> r in db.groups.rows
    ensures LoadLeaves(cols, a) == LoadLeaves(cols, b) <==> LeafIds(a) == LeafIds(b)
  {
    if LoadLeaves(cols, a) == LoadLeaves(cols, b) {
      assert |a| == |LoadLeaves(cols, a)| == |b|;
      assert forall i :: 0 <= i < |a| ==> LoadLeaves(cols, a)[i].id == a[i].id && LoadLeaves(cols, b)[i].id == b[i].id;
    }
    if LeafIds(a) == LeafIds(b) {
      assert |a| == |LeafIds(a)| == |b|;
      forall i | 0 <= i < |a| ensures a[i] == b[i] {
        assert LeafIds(a)[i] == LeafIds(b)[i];
        assert a[i] in a && b[i] in b;
      }
    }
  }

  lemma RowsOfTable(db: Db, s: Settings<LeafRow>, ids: seq<int>, accountId: int)
    requires Unpaged(s) && Rearranges(s.joined)
    ensures forall r :: r in RowsOf(Stream(db, s, ids), accountId) ==> r in db.groups.rows
  {
    forall r | r in RowsOf(Stream(db, s, ids), accountId) ensures r in db.groups.rows {
      FirstRowsSound(db, s, ids, r);
    }
  }

  /**
   A node's list of groups in a batch is the list it gets alone exactly when, for every two of its groups, the whole
   stream shows them first in the order in which the node's own rows do.
   */
  lemma GroupOrderExact(db: Db, s: Settings<LeafRow>, nodes: seq<AccountRow>, i: nat)
    requires db.Valid() && Unpaged(s) && Lawful(s) && i < |nodes| && LastOccurrence(AccountIds(nodes), i)
    ensures BatchGroupList(db, s, nodes, i) == BatchGroupList(db, s, [nodes[i]], 0)
      <==> SameOrder(Stream(db, Prepared(s), AccountIds(nodes)), nodes[i].id)
  {
    var id, stream := nodes[i].id, Stream(db, Prepared(s), AccountIds(nodes));
    var own, cols := OfOwner(stream, id), LeafColumns(s.fields, db.groups.columns);
    assert AccountIds(nodes)[i] == id && AccountIds([nodes[i]]) == [id];
    OwnStream(db, Prepared(s), AccountIds(nodes), id);
    BatchList(db, s, nodes, i);
    BatchList(db, s, [nodes[i]], 0);
    RowsOfTable(db, Prepared(s), AccountIds(nodes), id);
    RowsOfTable(db, Prepared(s), [id], id);
    SameIds(db, cols, RowsOf(stream, id), RowsOf(own, id));
    OrdersAgree(stream, id);
  }

  lemma OrdersAgree(stream: seq<Pair>, id: int)
    ensures LeafIds(RowsOf(stream, id)) == LeafIds(RowsOf(OfOwner(stream, id), id)) <==> SameOrder(stream, id)
  {
    if LeafIds(RowsOf(stream, id)) == LeafIds(RowsOf(OfOwner(stream, id), id)) {
      SameListSameOrder(stream, id);
    }
    if SameOrder(stream, id) {
      SameOrderSameList(stream, id);
    }
  }

  lemma SameListSameOrder(stream: seq<Pair>, id: int)
    requires LeafIds(RowsOf(stream, id)) == LeafIds(RowsOf(OfOwner(stream, id), id))
    ensures SameOrder(stream, id)
  {
    var own, ids := OfOwner(stream, id), LeafIds(RowsOf(stream, id));
    RowsOfInOrder(stream, id);
    RowsOfInOrder(own, id);
    forall g, h | g != h && Linked(stream, id, g) && Linked(stream, id, h) ensures Before(stream, g, h) <==> Before(own, g, h) {
      BeforeIsStrict(stream, g, h);
      BeforeIsStrict(own, g, h);
      var i :| 0 <= i < |ids| && ids[i] == g;
      var j :| 0 <= j < |ids| && ids[j] == h;
    }
  }

  lemma SameOrderSameList(stream: seq<Pair>, id: int)
    requires SameOrder(stream, id)
    ensures LeafIds(RowsOf(stream, id)) == LeafIds(RowsOf(OfOwner(stream, id), id))
  {
    var own := OfOwner(stream, id);
    var a, b := LeafIds(RowsOf(stream, id)), LeafIds(RowsOf(own, id));
    RowsOfInOrder(stream, id);
    RowsOfInOrder(own, id);
    OwnLinks(stream, id);
    forall i | 0 <= i < |a| ensures a[i] in b {
      assert Linked(stream, id, a[i]);
    }
    forall j | 0 <= j < |b| ensures b[j] in a {
      assert Linked(own, id, b[j]);
    }
    forall i, j | 0 <= i < j < |b| ensures Before(stream, b[i], b[j]) {
      assert Linked(own, id, b[i]) && Linked(own, id, b[j]);
      assert b[i] != b[j];
    }
    SameSize(a, b);
    OneOrder(a, b, stream);
  }

  lemma OwnLinks(stream: seq<Pair>, id: int)
    ensures forall g :: Linked(OfOwner(stream, id), id, g) <==> Linked(stream, id, g)
  {
    OfOwnerMembers(stream, id);
    forall g ensures Linked(OfOwner(stream, id), id, g) <==> Linked(stream, id, g) {
      if Linked(stream, id, g) {
        var p :| p in stream && p.owner == id && p.group.id == g;
        assert p in OfOwner(stream, id);
      }
    }
  }

  // ----- a stream ordered by group

  ghost predicate Ranked(stream: seq<Pair>, rank: int -> int) {
    forall p, q :: 0 <= p < q < |stream| ==> rank(stream[p].group.id) <= rank(stream[q].group.id)
  }

  /** In a stream ordered by a key of the group, one group comes before another exactly if its key is smaller. */
  lemma RankIsOrder(stream: seq<Pair>, rank: int -> int, g: int, h: int)
    requires Ranked(stream, rank) && rank(g) != rank(h)
    requires (exists p :: p in stream && p.group.id == g) && exists p :: p in stream && p.group.id == h
    ensures Before(stream, g, h) <==> rank(g) < rank(h)
  {
    var p :| p in stream && p.group.id == g;
    var i :| 0 <= i < |stream| && stream[i] == p;
    var q :| q in stream && q.group.id == h;
    var j :| 0 <= j < |stream| && stream[j] == q;
    if rank(g) < rank(h) {
      assert FirstAt(stream, g, h, i);
    } else {
      assert FirstAt(stream, h, g, j);
      BeforeIsStrict(stream, g, h);
    }
  }

  lemma {:induction false} RankedPart(stream: seq<Pair>, rank: int -> int, id: int)
    requires Ranked(stream, rank)
    ensures Ranked(OfOwner(stream, id), rank)
  {
    if stream != [] {
      var n := |stream| - 1;
      RankedPart(stream[..n], rank, id);
      OfOwnerMembers(stream[..n], id);
      var before := OfOwner(stream[..n], id);
      forall p | 0 <= p < |before| ensures rank(before[p].group.id) <= rank(stream[n].group.id) {
        assert before[p] in stream[..n];
      }
    }
  }

  /** Ordering the groups query by a key that tells groups apart makes every node's list independent of the batch. */
  lemma OrderedKeepsOrder(db: Db, s: Settings<LeafRow>, nodes: seq<AccountRow>, i: nat, rank: int -> int)
    requires db.Valid() && Unpaged(s) && Lawful(s) && i < |nodes| && LastOccurrence(AccountIds(nodes), i)
    requires Ranked(s.joined(JoinedPairs(db.accountGroups.rows, db.groups.rows)), rank)
    requires forall g, h :: rank(g) == rank(h) ==> g == h
    ensures BatchGroupList(db, s, nodes, i) == BatchGroupList(db, s, [nodes[i]], 0)
  {
    var stream, id := Stream(db, Prepared(s), AccountIds(nodes)), nodes[i].id;
    RankedWhere(s.joined(JoinedPairs(db.accountGroups.rows, db.groups.rows)), Prepared(s).preds, AccountIds(nodes), rank);
    RankedPart(stream, rank, id);
    OwnLinks(stream, id);
    forall g, h | g != h && Linked(stream, id, g) && Linked(stream, id, h)
      ensures Before(stream, g, h) <==> Before(OfOwner(stream, id), g, h)
    {
      assert rank(g) != rank(h);
      assert Linked(OfOwner(stream, id), id, g) && Linked(OfOwner(stream, id), id, h);
      RankIsOrder(stream, rank, g, h);
      RankIsOrder(OfOwner(stream, id), rank, g, h);
    }
    GroupOrderExact(db, s, nodes, i);
  }

  lemma {:induction false} RankedWhere(pairs: seq<Pair>, preds: seq<LeafRow -> bool>, ids: seq<int>, rank: int -> int)
    requires Ranked(pairs, rank)
    ensures Ranked(WherePairs(pairs, preds, ids), rank)
  {
    if pairs != [] {
      var n := |pairs| - 1;
      RankedWhere(pairs[..n], preds, ids, rank);
      var before := WherePairs(pairs[..n], preds, ids);
      forall p | 0 <= p < |before| ensures rank(before[p].group.id) <= rank(pairs[n].group.id) {
        assert before[p] in pairs[..n];
      }
    }
  }

  /** Each related group is listed once, however often the stream repeats it. */
  lemma GroupsListedOnce(db: Db, s: Settings<LeafRow>, nodes: seq<AccountRow>, i: nat)
    requires db.Columned() && i < |nodes|
    ensures Distinct(LeafIds(BatchGroupList(db, s, nodes, i)))
  {
    var ids := AccountIds(nodes);
    var stream := Stream(db, Prepared(s), ids);
    var rows := FirstRows(stream);
    var groups := LoadLeaves(LeafColumns(s.fields, db.groups.columns), rows);
    FirstRowsDistinct(stream);
    assert LeafIds(groups) == LeafIds(rows);
    var list := Pick(LinkedKeys(stream, LeafIds(groups), ids[i]), groups, true);
    var at := Positions(LinkedKeys(stream, LeafIds(groups), ids[i]), true);
    assert forall k :: 0 <= k < |list| ==> LeafIds(list)[k] == LeafIds(groups)[at[k]];
  }

  // ----- a failing case

  function Group(id: int): LeafRow {
    LeafRow(id, 0, map[])
  }

  /** Account 1 is in group 10, account 2 in groups 20 and 10, in this order. */
  function TwoMembers(): Db {
    Db(Table([AccountRow(1, None, None, map[]), AccountRow(2, None, None, map[])], [Id, ProxyId, ParentAccountId]),
       Table([AccountGroupRow(1, 10, map[]), AccountGroupRow(2, 20, map[]), AccountGroupRow(2, 10, map[])], [AccountId, GroupId]),
       Table([Group(10), Group(20)], [Id]), Table([], [Id]), Table([], [Id, AccountId]))
  }

  function Plain(): Settings<LeafRow> {
    Settings([], [], (t: seq<LeafRow>) => t, (t: seq<Pair>) => t, None, None, [])
  }

  lemma {:induction false} OnePairFor(accountId: int, groups: seq<LeafRow>, g: nat)
    requires g < |groups| && forall i :: 0 <= i < |groups| && i != g ==> groups[i].id != groups[g].id
    ensures PairsFor(accountId, groups[g].id, groups) == [Pair(accountId, groups[g])]
  {
    var n := |groups| - 1;
    if g < n {
      OnePairFor(accountId, groups[..n], g);
    } else {
      NoPairFor(accountId, groups[g].id, groups[..n]);
    }
  }

  lemma {:induction false} NoPairFor(accountId: int, groupId: int, groups: seq<LeafRow>)
    requires forall i :: 0 <= i < |groups| ==> groups[i].id != groupId
    ensures PairsFor(accountId, groupId, groups) == []
  {
    if groups != [] {
      NoPairFor(accountId, groupId, groups[..|groups| - 1]);
    }
  }

  lemma JoinedSnoc(members: seq<AccountGroupRow>, m: AccountGroupRow, groups: seq<LeafRow>, g: nat)
    requires g < |groups| && m.groupId == groups[g].id && Distinct(LeafIds(groups))
    ensures JoinedPairs(members + [m], groups) == JoinedPairs(members, groups) + [Pair(m.accountId, groups[g])]
  {
    assert (members + [m])[..|members|] == members;
    forall i | 0 <= i < |groups| && i != g ensures groups[i].id != groups[g].id {
      assert LeafIds(groups)[i] != LeafIds(groups)[g];
    }
    OnePairFor(m.accountId, groups, g);
  }

  lemma JoinedThree(a: AccountGroupRow, b: AccountGroupRow, c: AccountGroupRow, groups: seq<LeafRow>, i: nat, j: nat, k: nat)
    requires i < |groups| && j < |groups| && k < |groups| && Distinct(LeafIds(groups))
    requires a.groupId == groups[i].id && b.groupId == groups[j].id && c.groupId == groups[k].id
    ensures JoinedPairs([a, b, c], groups) == [Pair(a.accountId, groups[i]), Pair(b.accountId, groups[j]), Pair(c.accountId, groups[k])]
  {
    var x, y, z := Pair(a.accountId, groups[i]), Pair(b.accountId, groups[j]), Pair(c.accountId, groups[k]);
    var none: seq<AccountGroupRow> := [];
    JoinedSnoc(none, a, groups, i);
    JoinedSnoc(none + [a], b, groups, j);
    JoinedSnoc(none + [a] + [b], c, groups, k);
    assert JoinedPairs(none, groups) == [];
    JoinedLists(none, a, b, c);
    JoinedLists([], x, y, z);
  }

  lemma JoinedLists<T>(none: seq<T>, a: T, b: T, c: T)
    requires none == []
    ensures none + [a] + [b] + [c] == [a, b, c]
  {
  }

  lemma TwoMembersJoined()
    ensures JoinedPairs(TwoMembers().accountGroups.rows, TwoMembers().groups.rows) == [Pair(1, Group(10)), Pair(2, Group(20)), Pair(2, Group(10))]
  {
    var groups := [Group(10), Group(20)];
    assert LeafIds(groups)[0] == 10 && LeafIds(groups)[1] == 20;
    JoinedThree(AccountGroupRow(1, 10, map[]), AccountGroupRow(2, 20, map[]), AccountGroupRow(2, 10, map[]), groups, 0, 1, 0);
  }

  lemma {:induction false} WherePairsAll(pairs: seq<Pair>, ids: seq<int>)
    requires forall p :: p in pairs ==> p.owner in ids
    ensures WherePairs(pairs, [], ids) == pairs
  {
    if pairs != [] {
      var n := |pairs| - 1;
      assert pairs == pairs[..n] + [pairs[n]];
      WherePairsAll(pairs[..n], ids);
    }
  }

  /** Without predicates or a page, in table order, the stream of the owners of all pairs is all pairs. */
  lemma WholeStream(db: Db, s: Settings<LeafRow>, ids: seq<int>)
    requires s.preds == [] && s.inters == [] && s.limit == None && s.offset == None
    requires var pairs := JoinedPairs(db.accountGroups.rows, db.groups.rows);
             s.joined(pairs) == pairs && forall p :: p in pairs ==> p.owner in ids
    ensures Stream(db, Prepared(s), ids) == JoinedPairs(db.accountGroups.rows, db.groups.rows)
  {
    var pairs := JoinedPairs(db.accountGroups.rows, db.groups.rows);
    assert Prepared(s).preds == [];
    WherePairsAll(pairs, ids);
    assert pairs[0..] == pairs;
  }

  lemma TwoMembersValid()
    ensures TwoMembers().Valid() && Unpaged(Plain()) && Lawful(Plain())
  {
  }

  /** Two accounts whose joined pairs show the second one's groups in another order than its own pairs do. */
  lemma OrderDiffers(db: Db, s: Settings<LeafRow>, nodes: seq<AccountRow>)
    requires db.Valid() && Unpaged(s) && Lawful(s) && |nodes| == 2 && nodes[0].id != nodes[1].id
    requires s.preds == [] && s.inters == [] && s.limit == None && s.offset == None
    requires var pairs := JoinedPairs(db.accountGroups.rows, db.groups.rows);
             && s.joined(pairs) == pairs && (forall p :: p in pairs ==> p.owner == nodes[0].id || p.owner == nodes[1].id)
             && !SameOrder(pairs, nodes[1].id)
    ensures BatchGroupList(db, s, nodes, 1) != BatchGroupList(db, s, [nodes[1]], 0)
  {
    assert AccountIds(nodes)[0] == nodes[0].id && AccountIds(nodes)[1] == nodes[1].id;
    WholeStream(db, s, AccountIds(nodes));
    GroupOrderExact(db, s, nodes, 1);
  }

  /** Account 2's groups come in another order when account 1 is loaded with it than when it is loaded alone. */
  lemma GroupOrderDependsOnBatch()
    ensures BatchGroupList(TwoMembers(), Plain(), TwoMembers().accounts.rows, 1)
         != BatchGroupList(TwoMembers(), Plain(), [TwoMembers().accounts.rows[1]], 0)
  {
    TwoMembersValid();
    TwoMembersJoined();
    OwnOrder();
    OrderDiffers(TwoMembers(), Plain(), TwoMembers().accounts.rows);
  }

  lemma OwnOrder()
    ensures !SameOrder([Pair(1, Group(10)), Pair(2, Group(20)), Pair(2, Group(10))], 2)
  {
    var pairs := [Pair(1, Group(10)), Pair(2, Group(20)), Pair(2, Group(10))];
    var own := [Pair(2, Group(20)), Pair(2, Group(10))];
    assert pairs[..2][..1] == pairs[..1] && pairs[..1][..0] == [];
    assert OfOwner(pairs[..1], 2) == [];
    assert OfOwner(pairs[..2], 2) == [pairs[1]];
    assert OfOwner(pairs, 2) == own;
    assert pairs[1] in pairs && pairs[2] in pairs;
    assert Linked(pairs, 2, 20) && Linked(pairs, 2, 10);
    assert FirstAt(own, 20, 10, 0);
    assert FirstAt(pairs, 10, 20, 0);
    BeforeIsStrict(pairs, 10, 20);
  }
}

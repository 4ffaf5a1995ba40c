/**
 A limit or an offset on a sub-query. The batched statement applies it once, to the rows of all nodes together;
 the laws here say exactly when that is what every node would have got on its own.
 */
module PagingLaws {
  import opened Collections
  import opened Schema
  import opened QueryPlan
  import opened JoinSpec
  import opened JoinTheorem
  import opened DealingLaws

  // ----- buckets of a page, pages of a bucket

  lemma {:induction false} PickAppend<K, V>(a: seq<K>, va: seq<V>, b: seq<K>, vb: seq<V>, k: K)
    requires |a| == |va| && |b| == |vb|
    ensures Pick(a + b, va + vb, k) == Pick(a, va, k) + Pick(b, vb, k)
  {
    if b == [] {
      assert a + b == a && va + vb == va;
    } else {
      var n := |b| - 1;
      assert (a + b)[..|a + b| - 1] == a + b[..n] && (va + vb)[..|a + b| - 1] == va + vb[..n];
      PickAppend(a, va, b[..n], vb[..n], k);
      PickSnoc(a + b, va + vb, k);
      PickSnoc(b, vb, k);
    }
  }

  /** No bucket is longer than the list, and one as long is the list. */
  lemma {:induction false} PickBound<K, V>(keys: seq<K>, vals: seq<V>, k: K)
    requires |keys| == |vals|
    ensures |Pick(keys, vals, k)| <= |keys|
    ensures |Pick(keys, vals, k)| == |keys| ==> forall j :: 0 <= j < |keys| ==> keys[j] == k
    ensures (forall j :: 0 <= j < |keys| ==> keys[j] == k) ==> Pick(keys, vals, k) == vals
  {
    if keys != [] {
      var n := |keys| - 1;
      PickBound(keys[..n], vals[..n], k);
      PickSnoc(keys, vals, k);
      assert vals == vals[..n] + [vals[n]];
    }
  }

  function Skip(offset: Option<nat>): nat {
    if offset.Some? then offset.value else 0
  }

  /** A limit of 0 is none. */
  predicate Bounded(limit: Option<nat>) {
    limit.Some? && limit.value != 0
  }

  /** Where the page ends. */
  function End(n: nat, limit: Option<nat>, offset: Option<nat>): nat {
    if Bounded(limit) && Skip(offset) + limit.value < n then Skip(offset) + limit.value else n
  }

  /** Everything up to the end of the page has key `k`, and no other key has more rows than are skipped. */
  ghost predicate Leading<K(!new)>(keys: seq<K>, limit: Option<nat>, offset: Option<nat>, k: K) {
    && (forall j :: 0 <= j < End(|keys|, limit, offset) ==> keys[j] == k)
    && (forall other :: other != k ==> |Positions(keys, other)| <= Skip(offset))
  }

  /** The page does not cut between the keys: everything is skipped, or nothing is cut off, or one key leads. */
  ghost predicate Harmless<K(!new)>(keys: seq<K>, limit: Option<nat>, offset: Option<nat>) {
    || |keys| <= Skip(offset)
    || (Skip(offset) == 0 && End(|keys|, limit, offset) == |keys|)
    || (exists k :: Leading(keys, limit, offset, k))
  }

  lemma PageIs<V>(rows: seq<V>, limit: Option<nat>, offset: Option<nat>)
    ensures Page(rows, limit, offset) == if |rows| <= Skip(offset) then [] else rows[Skip(offset)..End(|rows|, limit, offset)]
  {
  }

  lemma PageAll<V>(rows: seq<V>, limit: Option<nat>, offset: Option<nat>)
    requires Skip(offset) == 0 && End(|rows|, limit, offset) == |rows|
    ensures Page(rows, limit, offset) == rows
  {
    PageIs(rows, limit, offset);
    assert |rows| > 0 ==> rows[0..|rows|] == rows;
  }

  lemma SameLength<K, V>(keys: seq<K>, vals: seq<V>, limit: Option<nat>, offset: Option<nat>)
    requires |keys| == |vals|
    ensures |Page(keys, limit, offset)| == |Page(vals, limit, offset)|
  {
  }

  /** Then every node's part of the page is the page of its part. */
  lemma BucketOfPage<K(!new), V>(keys: seq<K>, vals: seq<V>, limit: Option<nat>, offset: Option<nat>, k: K)
    requires |keys| == |vals| && Harmless(keys, limit, offset)
    ensures |Page(keys, limit, offset)| == |Page(vals, limit, offset)|
    ensures Pick(Page(keys, limit, offset), Page(vals, limit, offset), k) == Page(Pick(keys, vals, k), limit, offset)
  {
    SameLength(keys, vals, limit, offset);
    PickBound(keys, vals, k);
    if |keys| <= Skip(offset) {
      PageIs(keys, limit, offset);
      PageIs(vals, limit, offset);
      PageIs(Pick(keys, vals, k), limit, offset);
    } else if Skip(offset) == 0 && End(|keys|, limit, offset) == |keys| {
      PageAll(keys, limit, offset);
      PageAll(vals, limit, offset);
      PageAll(Pick(keys, vals, k), limit, offset);
    } else {
      var lead :| Leading(keys, limit, offset, lead);
      LeadingBucket(keys, vals, limit, offset, lead, k);
    }
  }

  /** Keys that are all equal up to `e` make the bucket start with the values up to `e`. */
  lemma LeadPrefix<K, V>(keys: seq<K>, vals: seq<V>, e: nat, k: K)
    requires e <= |keys| == |vals| && forall j :: 0 <= j < e ==> keys[j] == k
    ensures e <= |Pick(keys, vals, k)| <= |keys| && Pick(keys, vals, k)[..e] == vals[..e]
  {
    assert keys == keys[..e] + keys[e..] && vals == vals[..e] + vals[e..];
    PickAppend(keys[..e], vals[..e], keys[e..], vals[e..], k);
    PickBound(keys[..e], vals[..e], k);
    PickBound(keys, vals, k);
  }

  lemma SubSlice<V>(rows: seq<V>, e: nat, o: nat)
    requires o <= e <= |rows|
    ensures rows[o..e] == rows[..e][o..]
  {
  }

  lemma LeadingBucket<K(!new), V>(keys: seq<K>, vals: seq<V>, limit: Option<nat>, offset: Option<nat>, lead: K, k: K)
    requires |keys| == |vals| && Skip(offset) < |keys| && Leading(keys, limit, offset, lead)
    ensures |Page(keys, limit, offset)| == |Page(vals, limit, offset)|
    ensures Pick(Page(keys, limit, offset), Page(vals, limit, offset), k) == Page(Pick(keys, vals, k), limit, offset)
  {
    var o, e := Skip(offset), End(|keys|, limit, offset);
    var whole := Pick(keys, vals, k);
    PageIs(keys, limit, offset);
    PageIs(vals, limit, offset);
    PageIs(whole, limit, offset);
    if k == lead {
      LeadPrefix(keys, vals, e, k);
      PickBound(keys[o..e], vals[o..e], k);
      assert End(|whole|, limit, offset) == e;
      SubSlice(whole, e, o);
      SubSlice(vals, e, o);
    } else {
      PickAbsent(keys[o..e], vals[o..e], k);
    }
  }

  // ----- otherwise some node gets something else

  /** Some value is in one of the lists only. */
  ghost predicate Apart<V>(a: seq<V>, b: seq<V>) {
    (exists v :: v in a && v !in b) || (exists v :: v in b && v !in a)
  }

  lemma {:induction false} DistinctMembers<V>(a: seq<V>)
    requires Distinct(a)
    ensures |set v | v in a| == |a|
  {
    if a != [] {
      var n := |a| - 1;
      DistinctMembers(a[..n]);
      assert a == a[..n] + [a[n]];
      assert (set v | v in a) == (set v | v in a[..n]) + {a[n]};
    }
  }

  lemma LengthsApart<V>(a: seq<V>, b: seq<V>)
    requires Distinct(a) && Distinct(b) && |a| != |b|
    ensures Apart(a, b)
  {
    DistinctMembers(a);
    DistinctMembers(b);
    var va, vb := set v | v in a, set v | v in b;
    assert va != vb;
    if v :| v in va && v !in vb {
      assert v in a && v !in b;
    } else {
      var v :| v in vb && v !in va;
      assert v in b && v !in a;
    }
  }

  ghost predicate AllAre<K>(keys: seq<K>, k: K) {
    forall j :: 0 <= j < |keys| ==> keys[j] == k
  }

  /** With a limit only: the list of some key has another length. */
  lemma LimitCuts<K(!new), V>(keys: seq<K>, vals: seq<V>, limit: nat) returns (k: K)
    requires |keys| == |vals| && 0 < limit < |keys| && forall k :: !AllAre(keys, k)
    ensures k in keys && |Pick(keys[..limit], vals[..limit], k)| != |Page(Pick(keys, vals, k), Some(limit), None)|
  {
    var a, b := keys[..limit], keys[limit..];
    var va, vb := vals[..limit], vals[limit..];
    assert keys == a + b && vals == va + vb;
    k := b[0];
    assert k == keys[limit];
    PickAppend(a, va, b, vb, k);
    PickBound(a, va, k);
    PickMember(b, vb, k, vb[0]);
    assert |Pick(keys, vals, k)| > |Pick(a, va, k)|;
    if |Pick(a, va, k)| == limit {
      assert !AllAre(keys, k);
      var j :| 0 <= j < |keys| && keys[j] != k;
      k := keys[j];
      PickAbsent(a, va, k);
      PickMember(keys, vals, k, vals[j]);
      assert |Pick(keys, vals, k)| > 0 == |Pick(a, va, k)|;
    }
    FirstPage(Pick(keys, vals, k), limit);
  }

  lemma FirstPage<V>(rows: seq<V>, limit: nat)
    requires limit > 0
    ensures |Page(rows, Some(limit), None)| == if |rows| <= limit then |rows| else limit
  {
  }

  /** The row at position `j` is the one after its key's earlier rows in its bucket. */
  lemma RowInBucket<K, V>(keys: seq<K>, vals: seq<V>, j: nat)
    requires j < |keys| == |vals|
    ensures var whole := Pick(keys, vals, keys[j]); var before := |Pick(keys[..j], vals[..j], keys[j])|;
            before <= j && before < |whole| && whole[before] == vals[j]
            && (before == j ==> forall i :: 0 <= i < j ==> keys[i] == keys[j])
  {
    var k := keys[j];
    assert keys == keys[..j + 1] + keys[j + 1..] && vals == vals[..j + 1] + vals[j + 1..];
    PickAppend(keys[..j + 1], vals[..j + 1], keys[j + 1..], vals[j + 1..], k);
    PickPrefix(keys, vals, k, j);
    PickBound(keys[..j], vals[..j], k);
  }

  lemma DistinctPick<K, V>(keys: seq<K>, vals: seq<V>, k: K)
    requires |keys| == |vals| && Distinct(vals)
    ensures Distinct(Pick(keys, vals, k))
  {
  }

  /** A row whose key has fewer earlier rows than are skipped is not on its node's own page. */
  lemma NotOwn<K, V>(keys: seq<K>, vals: seq<V>, limit: Option<nat>, offset: Option<nat>, j: nat)
    requires j < |keys| == |vals| && Distinct(vals) && |Pick(keys[..j], vals[..j], keys[j])| < Skip(offset)
    ensures vals[j] !in Page(Pick(keys, vals, keys[j]), limit, offset)
  {
    var whole := Pick(keys, vals, keys[j]);
    var before := |Pick(keys[..j], vals[..j], keys[j])|;
    RowInBucket(keys, vals, j);
    DistinctPick(keys, vals, keys[j]);
    PageIs(whole, limit, offset);
  }

  /** A row on the page is dealt to its key. */
  lemma OnPage<K, V>(keys: seq<K>, vals: seq<V>, limit: Option<nat>, offset: Option<nat>, j: nat)
    requires |keys| == |vals| && Skip(offset) <= j < End(|keys|, limit, offset)
    ensures |Page(keys, limit, offset)| == |Page(vals, limit, offset)|
    ensures vals[j] in Pick(Page(keys, limit, offset), Page(vals, limit, offset), keys[j])
  {
    PageIs(keys, limit, offset);
    PageIs(vals, limit, offset);
    var cut, own := Page(keys, limit, offset), Page(vals, limit, offset);
    assert cut[j - Skip(offset)] == keys[j] && own[j - Skip(offset)] == vals[j];
    PickMember(cut, own, keys[j], vals[j]);
  }

  /** With an offset: some key's list has a row that is not on its own page, or lacks one that is. */
  lemma OffsetCuts<K(!new), V>(keys: seq<K>, vals: seq<V>, limit: Option<nat>, offset: Option<nat>) returns (k: K)
    requires |keys| == |vals| && Distinct(vals) && 0 < Skip(offset) < |keys| && forall k :: !Leading(keys, limit, offset, k)
    ensures |Page(keys, limit, offset)| == |Page(vals, limit, offset)| && k in keys
    ensures Apart(Pick(Page(keys, limit, offset), Page(vals, limit, offset), k), Page(Pick(keys, vals, k), limit, offset))
  {
    var o, e := Skip(offset), End(|keys|, limit, offset);
    SameLength(keys, vals, limit, offset);
    k := keys[o];
    RowInBucket(keys, vals, o);
    if |Pick(keys[..o], vals[..o], k)| < o {
      OnPage(keys, vals, limit, offset, o);
      NotOwn(keys, vals, limit, offset, o);
    } else if j :| o < j < e && keys[j] != k {
      var first := FirstOther(keys, k, o, j);
      k := keys[first];
      PickAbsent(keys[..first], vals[..first], k);
      OnPage(keys, vals, limit, offset, first);
      NotOwn(keys, vals, limit, offset, first);
    } else {
      k := LateKey(keys, vals, limit, offset, k);
    }
  }

  /** The first position after `o` whose key is another. */
  lemma {:induction false} FirstOther<K>(keys: seq<K>, k: K, o: nat, j: nat) returns (first: nat)
    requires o < j < |keys| && keys[j] != k && forall i :: 0 <= i <= o ==> keys[i] == k
    ensures o < first <= j && keys[first] != k && keys[first] !in keys[..first]
    decreases j
  {
    if i :| o < i < j && keys[i] != k {
      first := FirstOther(keys, k, o, i);
    } else {
      first := j;
    }
  }

  /** All rows up to the end of the page are of one key, and another key has enough rows for a page of its own. */
  lemma LateKey<K(!new), V>(keys: seq<K>, vals: seq<V>, limit: Option<nat>, offset: Option<nat>, lead: K) returns (k: K)
    requires |keys| == |vals| && Skip(offset) < |keys| && !Leading(keys, limit, offset, lead)
    requires forall j :: 0 <= j < End(|keys|, limit, offset) ==> keys[j] == lead
    ensures |Page(keys, limit, offset)| == |Page(vals, limit, offset)| && k in keys
    ensures Apart(Pick(Page(keys, limit, offset), Page(vals, limit, offset), k), Page(Pick(keys, vals, k), limit, offset))
  {
    SameLength(keys, vals, limit, offset);
    PageIs(keys, limit, offset);
    PageIs(vals, limit, offset);
    k :| k != lead && |Positions(keys, k)| > Skip(offset);
    assert keys[Positions(keys, k)[0]] == k;
    var own := Page(Pick(keys, vals, k), limit, offset);
    PageIs(Pick(keys, vals, k), limit, offset);
    PickAbsent(Page(keys, limit, offset), Page(vals, limit, offset), k);
    assert own[0] in own;
  }

  /** Whatever the limit and the offset: a page that is not harmless gives some node a row that is not on its own page, or lacks one. */
  lemma PageCuts<K(!new), V>(keys: seq<K>, vals: seq<V>, limit: Option<nat>, offset: Option<nat>) returns (k: K)
    requires |keys| == |vals| && Distinct(vals) && !Harmless(keys, limit, offset)
    ensures |Page(keys, limit, offset)| == |Page(vals, limit, offset)| && k in keys
    ensures Apart(Pick(Page(keys, limit, offset), Page(vals, limit, offset), k), Page(Pick(keys, vals, k), limit, offset))
  {
    if Skip(offset) > 0 {
      k := OffsetCuts(keys, vals, limit, offset);
    } else {
      forall k ensures !AllAre(keys, k) {
        if AllAre(keys, k) {
          OnlyKeyLeads(keys, limit, offset, k);
        }
      }
      SameLength(keys, vals, limit, offset);
      k := LimitCuts(keys, vals, limit.value);
      NoOffset(keys, limit, offset);
      NoOffset(vals, limit, offset);
      NoOffset(Pick(keys, vals, k), limit, offset);
      PartsDistinct(keys, vals, limit, offset, k);
      LengthsApart(Pick(Page(keys, limit, offset), Page(vals, limit, offset), k), Page(Pick(keys, vals, k), limit, offset));
    }
  }

  lemma PartsDistinct<K, V>(keys: seq<K>, vals: seq<V>, limit: Option<nat>, offset: Option<nat>, k: K)
    requires |keys| == |vals| && |Page(keys, limit, offset)| == |Page(vals, limit, offset)| && Distinct(vals)
    ensures Distinct(Pick(Page(keys, limit, offset), Page(vals, limit, offset), k))
    ensures Distinct(Page(Pick(keys, vals, k), limit, offset))
  {
    PageDistinct(vals, limit, offset);
    DistinctPick(Page(keys, limit, offset), Page(vals, limit, offset), k);
    DistinctPick(keys, vals, k);
    PageDistinct(Pick(keys, vals, k), limit, offset);
  }

  lemma PageDistinct<V>(rows: seq<V>, limit: Option<nat>, offset: Option<nat>)
    requires Distinct(rows)
    ensures Distinct(Page(rows, limit, offset))
  {
    PageIs(rows, limit, offset);
  }

  lemma OnlyKeyLeads<K(!new)>(keys: seq<K>, limit: Option<nat>, offset: Option<nat>, k: K)
    requires AllAre(keys, k)
    ensures Leading(keys, limit, offset, k)
  {
    forall other | other != k ensures Positions(keys, other) == [] {
      PickAbsent(keys, keys, other);
    }
  }

  lemma NoOffset<V>(rows: seq<V>, limit: Option<nat>, offset: Option<nat>)
    requires Skip(offset) == 0 && Bounded(limit)
    ensures Page(rows, limit, offset) == Page(rows, limit, None) == if limit.value < |rows| then rows[..limit.value] else rows
  {
    assert rows[0..] == rows;
  }

  // ----- usage logs

  /** Every usage log of any of the nodes, before the page is cut. */
  ghost function MatchingLogs(db: Db, s: Settings<LeafRow>, nodes: seq<AccountRow>): seq<LeafRow> {
    Where(s.order(db.usageLogs.rows), Prepared(UsageLogsOf(s, AccountIds(nodes))).preds)
  }

  ghost function LogColumns(db: Db, s: Settings<LeafRow>): seq<Column> {
    LeafColumns(WithField(s.fields, AccountId), db.usageLogs.columns)
  }

  /** What the node would get from a statement of its own. */
  ghost function OwnLogs(db: Db, s: Settings<LeafRow>, n: AccountRow): seq<LeafRow> {
    LoadLeaves(LogColumns(db, s), Page(JoinRows(db.usageLogs.rows, s, OwnerIdIs(n.id)), s.limit, s.offset))
  }

  lemma MatchingOwner(db: Db, s: Settings<LeafRow>, nodes: seq<AccountRow>, j: nat)
    requires j < |MatchingLogs(db, s, nodes)|
    ensures OwnerIds(MatchingLogs(db, s, nodes))[j] in AccountIds(nodes)
  {
    var unpaged := s.(fields := WithField(s.fields, AccountId), limit := None, offset := None);
    FetchedHolds(db.usageLogs.rows, unpaged, OwnerIdIn(AccountIds(nodes)), j);
  }

  /** One node's rows among the matching ones are its join. */
  lemma LogsOfNode(db: Db, s: Settings<LeafRow>, nodes: seq<AccountRow>, i: nat)
    requires i < |nodes|
    ensures var all := MatchingLogs(db, s, nodes);
            Pick(OwnerIds(all), all, nodes[i].id) == JoinRows(db.usageLogs.rows, s, OwnerIdIs(nodes[i].id))
  {
    var ids, all := AccountIds(nodes), MatchingLogs(db, s, nodes);
    var unpaged := s.(fields := WithField(s.fields, AccountId), limit := None, offset := None);
    assert ids[i] == nodes[i].id && ids[i] in ids;
    BatchBucket(db.usageLogs.rows, unpaged, OwnerIdIn(ids), OwnerIdIs(ids[i]), OwnerIds(all), ids[i]);
  }

  /** The batch deals out the page of the matching rows. */
  lemma LogsOfBatch(db: Db, s: Settings<LeafRow>, nodes: seq<AccountRow>, i: nat)
    requires db.Columned() && i < |nodes| && LastOccurrence(AccountIds(nodes), i)
    ensures var all := MatchingLogs(db, s, nodes);
            |Page(OwnerIds(all), s.limit, s.offset)| == |Page(all, s.limit, s.offset)|
            && BatchUsageLogs(db, s, nodes, i) ==
               LoadLeaves(LogColumns(db, s), Pick(Page(OwnerIds(all), s.limit, s.offset), Page(all, s.limit, s.offset), nodes[i].id))
  {
    var all, ids := MatchingLogs(db, s, nodes), AccountIds(nodes);
    SameLength(OwnerIds(all), all, s.limit, s.offset);
    var logs := BatchLeaves(db.usageLogs, UsageLogsOf(s, ids));
    var rows := Page(all, s.limit, s.offset);
    assert logs == LoadLeaves(LogColumns(db, s), rows);
    assert OwnerIds(logs) == Page(OwnerIds(all), s.limit, s.offset);
  }

  /** Rows of a table with a primary key are told apart by their loaded ids. */
  lemma LoadedApart(table: seq<LeafRow>, cols: seq<Column>, a: seq<LeafRow>, b: seq<LeafRow>)
    requires Id in cols && Distinct(LeafIds(table)) && a != b
    requires (forall r :: r in a ==> r in table) && forall r :: r in b ==> r in table
    ensures LoadLeaves(cols, a) != LoadLeaves(cols, b)
  {
    var la, lb := LoadLeaves(cols, a), LoadLeaves(cols, b);
    if |a| == |b| {
      var i :| 0 <= i < |a| && a[i] != b[i];
      assert a[i] in a && b[i] in b;
      var p :| 0 <= p < |table| && table[p] == a[i];
      var r :| 0 <= r < |table| && table[r] == b[i];
      assert LeafIds(table)[p] != LeafIds(table)[r];
      assert la[i].id == a[i].id && lb[i].id == b[i].id;
    }
  }

  lemma DistinctMatches<R(!new)>(table: seq<R>, s: Settings<R>, preds: seq<R -> bool>)
    requires Rearranges(s.order) && Distinct(table)
    ensures Distinct(Where(s.order(table), preds))
    ensures forall r :: r in Where(s.order(table), preds) ==> r in table
  {
    var ordered := s.order(table);
    assert multiset(ordered) == multiset(table);
    DistinctRearranged(table, ordered);
    DistinctWhere(ordered, preds);
    forall r | r in Where(ordered, preds) ensures r in table {
      WhereMember(ordered, preds, r);
      assert r in multiset(ordered);
    }
  }

  lemma DistinctRearranged<T>(a: seq<T>, b: seq<T>)
    requires multiset(a) == multiset(b) && Distinct(a)
    ensures Distinct(b)
  {
    forall i, j | 0 <= i < j < |b| ensures b[i] != b[j] {
      assert b == b[..j] + b[j..];
      assert b[i] in b[..j] && b[j] in b[j..];
      CountAtMostOne(a, b[i]);
      assert multiset(b)[b[i]] <= 1;
    }
  }

  lemma {:induction false} DistinctWhere<R>(rows: seq<R>, preds: seq<R -> bool>)
    requires Distinct(rows)
    ensures Distinct(Where(rows, preds))
  {
    if rows != [] {
      var n := |rows| - 1;
      DistinctWhere(rows[..n], preds);
      WhereMember(rows[..n], preds, rows[n]);
    }
  }

  /** Any part of the page, and of a bucket, is part of the table. */
  lemma PartOf<K, V>(keys: seq<K>, vals: seq<V>, limit: Option<nat>, offset: Option<nat>, k: K)
    requires |keys| == |vals| && |Page(keys, limit, offset)| == |Page(vals, limit, offset)|
    ensures forall v :: v in Pick(Page(keys, limit, offset), Page(vals, limit, offset), k) ==> v in vals
    ensures forall v :: v in Page(Pick(keys, vals, k), limit, offset) ==> v in vals
  {
    PageMembers(vals, limit, offset);
    PageMembers(Pick(keys, vals, k), limit, offset);
    PickMembers(Page(keys, limit, offset), Page(vals, limit, offset), k);
    PickMembers(keys, vals, k);
  }

  lemma PageMembers<V>(rows: seq<V>, limit: Option<nat>, offset: Option<nat>)
    ensures forall v :: v in Page(rows, limit, offset) ==> v in rows
  {
    PageIs(rows, limit, offset);
  }

  lemma PickMembers<K, V>(keys: seq<K>, vals: seq<V>, k: K)
    requires |keys| == |vals|
    ensures forall v :: v in Pick(keys, vals, k) ==> v in vals
  {
  }

  /**
   Whatever the limit and the offset on the usage logs: every node's list is the page of its own logs exactly when the
   page is harmless, that is, when it skips everything, cuts off nothing, or one node's logs lead all others.
   */
  lemma LogPageExact(db: Db, s: Settings<LeafRow>, nodes: seq<AccountRow>)
    requires db.Columned() && DistinctIds(nodes) && Rearranges(s.order) && Distinct(LeafIds(db.usageLogs.rows))
    ensures (forall i :: 0 <= i < |nodes| ==> BatchUsageLogs(db, s, nodes, i) == OwnLogs(db, s, nodes[i]))
      <==> Harmless(OwnerIds(MatchingLogs(db, s, nodes)), s.limit, s.offset)
  {
    var all := MatchingLogs(db, s, nodes);
    var keys := OwnerIds(all);
    forall i | 0 <= i < |nodes| ensures LastOccurrence(AccountIds(nodes), i) { }
    if Harmless(keys, s.limit, s.offset) {
      forall i | 0 <= i < |nodes| ensures BatchUsageLogs(db, s, nodes, i) == OwnLogs(db, s, nodes[i]) {
        LogsOfNode(db, s, nodes, i);
        LogsOfBatch(db, s, nodes, i);
        BucketOfPage(keys, all, s.limit, s.offset, nodes[i].id);
      }
    } else {
      var i := LogPageCuts(db, s, nodes);
    }
  }

  /** A single node always gets its own page. */
  lemma SingleNodePage(db: Db, s: Settings<LeafRow>, n: AccountRow)
    requires db.Columned()
    ensures BatchUsageLogs(db, s, [n], 0) == OwnLogs(db, s, n)
  {
    var all := MatchingLogs(db, s, [n]);
    var keys := OwnerIds(all);
    forall j | 0 <= j < |keys| ensures keys[j] == n.id {
      MatchingOwner(db, s, [n], j);
    }
    OnlyKeyLeads(keys, s.limit, s.offset, n.id);
    LogsOfNode(db, s, [n], 0);
    LogsOfBatch(db, s, [n], 0);
    BucketOfPage(keys, all, s.limit, s.offset, n.id);
  }

  lemma LogPageCuts(db: Db, s: Settings<LeafRow>, nodes: seq<AccountRow>) returns (i: nat)
    requires db.Columned() && DistinctIds(nodes) && Rearranges(s.order) && Distinct(LeafIds(db.usageLogs.rows))
    requires !Harmless(OwnerIds(MatchingLogs(db, s, nodes)), s.limit, s.offset)
    ensures i < |nodes| && BatchUsageLogs(db, s, nodes, i) != OwnLogs(db, s, nodes[i])
  {
    var all := MatchingLogs(db, s, nodes);
    var keys := OwnerIds(all);
    DistinctKeys(db.usageLogs.rows);
    DistinctMatches(db.usageLogs.rows, s, Prepared(UsageLogsOf(s, AccountIds(nodes))).preds);
    var k := PageCuts(keys, all, s.limit, s.offset);
    var j :| 0 <= j < |keys| && keys[j] == k;
    MatchingOwner(db, s, nodes, j);
    i :| 0 <= i < |nodes| && AccountIds(nodes)[i] == k;
    LogsOfNode(db, s, nodes, i);
    LogsOfBatch(db, s, nodes, i);
    PartOf(keys, all, s.limit, s.offset, k);
    LoadedApart(db.usageLogs.rows, LogColumns(db, s), Pick(Page(keys, s.limit, s.offset), Page(all, s.limit, s.offset), k),
                Page(Pick(keys, all, k), s.limit, s.offset));
  }

  lemma DistinctKeys(table: seq<LeafRow>)
    requires Distinct(LeafIds(table))
    ensures Distinct(table)
  {
    assert forall i :: 0 <= i < |table| ==> LeafIds(table)[i] == table[i].id;
  }

  // ----- children

  /** Every child of any of the nodes, before the page is cut. */
  ghost function MatchingChildren(db: Db, q: AccountPlan, nodes: seq<AccountRow>): seq<AccountRow> {
    Where(q.s.order(db.accounts.rows), Prepared(ChildrenOf(q, AccountIds(nodes)).s).preds)
  }

  /** What the node would get from a statement of its own, each child with its subtree. */
  ghost function OwnChildren(db: Db, q: AccountPlan, n: AccountRow): seq<AccountTree> {
    JoinTrees(db, WithField(q.s.fields, ParentAccountId), q.w,
              Page(JoinRows(db.accounts.rows, q.s, ParentIdIs(n.id)), q.s.limit, q.s.offset))
  }

  lemma MatchingParent(db: Db, q: AccountPlan, nodes: seq<AccountRow>, j: nat)
    requires j < |MatchingChildren(db, q, nodes)|
    ensures ParentIds(MatchingChildren(db, q, nodes))[j].Some? && ParentIds(MatchingChildren(db, q, nodes))[j].value in AccountIds(nodes)
  {
    var unpaged := q.s.(fields := WithField(q.s.fields, ParentAccountId), limit := None, offset := None);
    FetchedHolds(db.accounts.rows, unpaged, ParentIdIn(AccountIds(nodes)), j);
  }

  lemma ChildrenOfNode(db: Db, q: AccountPlan, nodes: seq<AccountRow>, i: nat)
    requires i < |nodes|
    ensures var all := MatchingChildren(db, q, nodes);
            Pick(ParentIds(all), all, Some(nodes[i].id)) == JoinRows(db.accounts.rows, q.s, ParentIdIs(nodes[i].id))
  {
    var ids, all := AccountIds(nodes), MatchingChildren(db, q, nodes);
    var unpaged := q.s.(fields := WithField(q.s.fields, ParentAccountId), limit := None, offset := None);
    assert ids[i] == nodes[i].id && ids[i] in ids;
    BatchBucket(db.accounts.rows, unpaged, ParentIdIn(ids), ParentIdIs(ids[i]), ParentIds(all), Some(ids[i]));
  }

  lemma ChildrenOfBatch(db: Db, q: AccountPlan, nodes: seq<AccountRow>, i: nat)
    requires db.Valid() && Lawful(q.s) && Joinable(q.w) && i < |nodes| && LastOccurrence(AccountIds(nodes), i)
    ensures var all := MatchingChildren(db, q, nodes);
            |Page(ParentIds(all), q.s.limit, q.s.offset)| == |Page(all, q.s.limit, q.s.offset)|
            && BatchChildren(db, q, nodes, i) ==
               JoinTrees(db, WithField(q.s.fields, ParentAccountId), q.w,
                         Pick(Page(ParentIds(all), q.s.limit, q.s.offset), Page(all, q.s.limit, q.s.offset), Some(nodes[i].id)))
  {
    var all, ids := MatchingChildren(db, q, nodes), AccountIds(nodes);
    SameLength(ParentIds(all), all, q.s.limit, q.s.offset);
    var rows := Page(all, q.s.limit, q.s.offset);
    var children := BatchAccounts(db, ChildrenOf(q, ids));
    BatchIsJoin(db, ChildrenOf(q, ids));
    assert children == JoinTrees(db, WithField(q.s.fields, ParentAccountId), q.w, rows);
    assert TreeParents(children) == Page(ParentIds(all), q.s.limit, q.s.offset);
  }

  /** The same for children, each with its subtree. */
  lemma ChildPageExact(db: Db, q: AccountPlan, nodes: seq<AccountRow>)
    requires db.Valid() && Lawful(q.s) && Joinable(q.w) && DistinctIds(nodes)
    ensures (forall i :: 0 <= i < |nodes| ==> BatchChildren(db, q, nodes, i) == OwnChildren(db, q, nodes[i]))
      <==> Harmless(ParentIds(MatchingChildren(db, q, nodes)), q.s.limit, q.s.offset)
  {
    var all := MatchingChildren(db, q, nodes);
    var keys := ParentIds(all);
    forall i | 0 <= i < |nodes| ensures LastOccurrence(AccountIds(nodes), i) { }
    if Harmless(keys, q.s.limit, q.s.offset) {
      forall i | 0 <= i < |nodes| ensures BatchChildren(db, q, nodes, i) == OwnChildren(db, q, nodes[i]) {
        ChildrenOfNode(db, q, nodes, i);
        ChildrenOfBatch(db, q, nodes, i);
        BucketOfPage(keys, all, q.s.limit, q.s.offset, Some(nodes[i].id));
      }
    } else {
      var i := ChildPageCuts(db, q, nodes);
    }
  }

  lemma ChildPageCuts(db: Db, q: AccountPlan, nodes: seq<AccountRow>) returns (i: nat)
    requires db.Valid() && Lawful(q.s) && Joinable(q.w) && DistinctIds(nodes)
    requires !Harmless(ParentIds(MatchingChildren(db, q, nodes)), q.s.limit, q.s.offset)
    ensures i < |nodes| && BatchChildren(db, q, nodes, i) != OwnChildren(db, q, nodes[i])
  {
    var all := MatchingChildren(db, q, nodes);
    var keys := ParentIds(all);
    DistinctMatches(db.accounts.rows, q.s, Prepared(ChildrenOf(q, AccountIds(nodes)).s).preds);
    var k := PageCuts(keys, all, q.s.limit, q.s.offset);
    var j :| 0 <= j < |keys| && keys[j] == k;
    MatchingParent(db, q, nodes, j);
    i :| 0 <= i < |nodes| && AccountIds(nodes)[i] == k.value;
    ChildrenOfNode(db, q, nodes, i);
    ChildrenOfBatch(db, q, nodes, i);
    PartOf(keys, all, q.s.limit, q.s.offset, k);
    TreesApart(db, WithField(q.s.fields, ParentAccountId), q.w, Pick(Page(keys, q.s.limit, q.s.offset), Page(all, q.s.limit, q.s.offset), k),
               Page(Pick(keys, all, k), q.s.limit, q.s.offset));
  }

  /** Join trees of different account rows differ, in their loaded ids. */
  lemma TreesApart(db: Db, fields: seq<Column>, w: AccountWith, a: seq<AccountRow>, b: seq<AccountRow>)
    requires db.Valid() && a != b
    requires (forall r :: r in a ==> r in db.accounts.rows) && forall r :: r in b ==> r in db.accounts.rows
    ensures JoinTrees(db, fields, w, a) != JoinTrees(db, fields, w, b)
  {
    var ta, tb := JoinTrees(db, fields, w, a), JoinTrees(db, fields, w, b);
    if |a| == |b| {
      var i :| 0 <= i < |a| && a[i] != b[i];
      assert ta[i].row.id == a[i].id && tb[i].row.id == b[i].id;
      assert a[i] in a && b[i] in b;
      var p :| 0 <= p < |db.accounts.rows| && db.accounts.rows[p] == a[i];
      var r :| 0 <= r < |db.accounts.rows| && db.accounts.rows[r] == b[i];
      assert p != r;
    }
  }

  // ----- a failing case

  function Log(id: int, owner: int): LeafRow {
    LeafRow(id, owner, map[])
  }

  /** Two accounts, the first with two logs and the second with one, and a limit of two. */
  function TwoAccounts(): seq<AccountRow> {
    [AccountRow(1, None, None, map[]), AccountRow(2, None, None, map[])]
  }

  function ThreeLogs(): Db {
    Db(Table(TwoAccounts(), [Id, ProxyId, ParentAccountId]), Table([], [AccountId, GroupId]), Table([], [Id]), Table([], [Id]),
       Table([Log(11, 1), Log(12, 1), Log(13, 2)], [Id, AccountId]))
  }

  function FirstTwo(): Settings<LeafRow> {
    Settings([], [], (t: seq<LeafRow>) => t, (t: seq<Pair>) => t, Some(2), None, [])
  }

  lemma {:induction false} WhereAll<R>(rows: seq<R>, preds: seq<R -> bool>)
    requires forall r :: r in rows ==> All(preds, r)
    ensures Where(rows, preds) == rows
  {
    if rows != [] {
      var n := |rows| - 1;
      WhereAll(rows[..n], preds);
      assert rows == rows[..n] + [rows[n]];
    }
  }

  /** Without predicates of its own, in table order, a query of the owners of all logs matches all logs. */
  lemma AllLogsMatch(db: Db, s: Settings<LeafRow>, nodes: seq<AccountRow>)
    requires s.preds == [] && s.inters == [] && s.order(db.usageLogs.rows) == db.usageLogs.rows
    requires forall r :: r in db.usageLogs.rows ==> r.accountId in AccountIds(nodes)
    ensures MatchingLogs(db, s, nodes) == db.usageLogs.rows
  {
    var p := OwnerIdIn(AccountIds(nodes));
    var preds := Prepared(UsageLogsOf(s, AccountIds(nodes))).preds;
    assert preds == [p];
    forall r | r in db.usageLogs.rows ensures All(preds, r) {
      AllSingle([], p, r);
      assert [] + [p] == preds;
    }
    WhereAll(db.usageLogs.rows, preds);
  }

  lemma ThreeLogsMatch()
    ensures MatchingLogs(ThreeLogs(), FirstTwo(), TwoAccounts()) == [Log(11, 1), Log(12, 1), Log(13, 2)]
    ensures OwnerIds(MatchingLogs(ThreeLogs(), FirstTwo(), TwoAccounts())) == [1, 1, 2]
  {
    var ids := AccountIds(TwoAccounts());
    assert ids[0] == 1 && ids[1] == 2;
    AllLogsMatch(ThreeLogs(), FirstTwo(), TwoAccounts());
  }

  lemma ThirdLogIsOwn()
    ensures OwnLogs(ThreeLogs(), FirstTwo(), TwoAccounts()[1]) != []
  {
    var logs := [Log(11, 1), Log(12, 1), Log(13, 2)];
    ThreeLogsMatch();
    LogsOfNode(ThreeLogs(), FirstTwo(), TwoAccounts(), 1);
    PickMember(OwnerIds(logs), logs, 2, logs[2]);
    assert OwnerIds(logs)[2] == 2;
  }

  /** The second account gets none of its logs, although alone it would get one: the first account uses the limit up. */
  lemma LimitStarves()
    ensures BatchUsageLogs(ThreeLogs(), FirstTwo(), TwoAccounts(), 1) == []
    ensures OwnLogs(ThreeLogs(), FirstTwo(), TwoAccounts()[1]) != []
  {
    ThreeLogsMatch();
    ThirdLogIsOwn();
    ThirdIsCutOff(ThreeLogs(), FirstTwo(), TwoAccounts(), 1);
  }

  lemma ThirdIsCutOff(db: Db, s: Settings<LeafRow>, nodes: seq<AccountRow>, i: nat)
    requires db.Columned() && s.limit == Some(2) && s.offset == None
    requires i < |nodes| && LastOccurrence(AccountIds(nodes), i) && nodes[i].id == 2
    requires OwnerIds(MatchingLogs(db, s, nodes)) == [1, 1, 2]
    ensures BatchUsageLogs(db, s, nodes, i) == []
  {
    LogsOfBatch(db, s, nodes, i);
    assert Page([1, 1, 2], Some(2), None) == [1, 1];
    PickAbsent([1, 1], Page(MatchingLogs(db, s, nodes), Some(2), None), 2);
  }
}

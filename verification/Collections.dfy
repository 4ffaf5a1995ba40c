/**
 Sequence vocabulary shared by the query, bulk-create and audit models: selection of rows by
 predicate, the positions at which a key occurs, and the order of first appearance.
 */
module Collections {

  datatype Option<+T> = None | Some(value: T)

  datatype Result<+T, +E> = Ok(value: T) | Err(error: E)

  ghost predicate Distinct<T>(s: seq<T>) {
    forall i, j :: 0 <= i < j < |s| ==> s[i] != s[j]
  }

  ghost predicate Increasing(at: seq<nat>) {
    forall i, j :: 0 <= i < j < |at| ==> at[i] < at[j]
  }

  // ----- selecting rows

  /** Every predicate of a builder holds of the row. */
  predicate All<R>(preds: seq<R -> bool>, row: R) {
    forall i :: 0 <= i < |preds| ==> preds[i](row)
  }

  /** The rows satisfying every predicate, in table order. */
  function Where<R>(rows: seq<R>, preds: seq<R -> bool>): seq<R> {
    if rows == [] then []
    else
      var n := |rows| - 1;
      Where(rows[..n], preds) + (if All(preds, rows[n]) then [rows[n]] else [])
  }

  lemma AllAppend<R>(preds: seq<R -> bool>, more: seq<R -> bool>, row: R)
    ensures All(preds + more, row) <==> All(preds, row) && All(more, row)
  {
    if All(preds + more, row) {
      forall i | 0 <= i < |preds| ensures preds[i](row) { assert (preds + more)[i] == preds[i]; }
      forall i | 0 <= i < |more| ensures more[i](row) { assert (preds + more)[|preds| + i] == more[i]; }
    }
  }

  lemma AllSingle<R>(preds: seq<R -> bool>, p: R -> bool, row: R)
    ensures All(preds + [p], row) <==> All(preds, row) && p(row)
  {
    AllAppend(preds, [p], row);
    assert [p][0] == p;
  }

  lemma AllConstrained<R>(preds: seq<R -> bool>, p: R -> bool, more: seq<R -> bool>, row: R)
    ensures All(preds + [p] + more, row) <==> All(preds + more, row) && p(row)
  {
    AllAppend(preds + [p], more, row);
    AllSingle(preds, p, row);
    AllAppend(preds, more, row);
  }

  lemma {:induction false} WhereMember<R>(rows: seq<R>, preds: seq<R -> bool>, row: R)
    ensures row in Where(rows, preds) <==> row in rows && All(preds, row)
  {
    if rows != [] {
      var n := |rows| - 1;
      WhereMember(rows[..n], preds, row);
      assert rows == rows[..n] + [rows[n]];
    }
  }

  // ----- positions of a key

  /** The positions of `k` in `keys`, in increasing order. */
  ghost function Positions<K>(keys: seq<K>, k: K): (r: seq<nat>)
    ensures forall i :: 0 <= i < |r| ==> r[i] < |keys| && keys[r[i]] == k
    ensures forall i, j :: 0 <= i < j < |r| ==> r[i] < r[j]
  {
    if keys == [] then []
    else
      var n := |keys| - 1;
      var before := Positions(keys[..n], k);
      if keys[n] == k then before + [n] else before
  }

  lemma {:induction false} PositionsComplete<K>(keys: seq<K>, k: K, p: nat)
    requires p < |keys| && keys[p] == k
    ensures p in Positions(keys, k)
  {
    var n := |keys| - 1;
    if p < n {
      PositionsComplete(keys[..n], k, p);
    }
  }

  /** The values whose key is `k`, in order: one bucket of a grouping. */
  ghost function Pick<K, V>(keys: seq<K>, vals: seq<V>, k: K): (r: seq<V>)
    requires |keys| == |vals|
    ensures |r| == |Positions(keys, k)|
    ensures forall i :: 0 <= i < |r| ==> r[i] == vals[Positions(keys, k)[i]]
  {
    var idx := Positions(keys, k);
    seq(|idx|, i requires 0 <= i < |idx| => vals[idx[i]])
  }

  lemma PickSnoc<K, V>(keys: seq<K>, vals: seq<V>, k: K)
    requires |keys| == |vals| > 0
    ensures var n := |keys| - 1;
            Pick(keys, vals, k) == Pick(keys[..n], vals[..n], k) + (if keys[n] == k then [vals[n]] else [])
  {
  }

  lemma PickPrefix<K, V>(keys: seq<K>, vals: seq<V>, k: K, i: nat)
    requires |keys| == |vals| && i < |keys|
    ensures Pick(keys[..i + 1], vals[..i + 1], k) == Pick(keys[..i], vals[..i], k) + (if keys[i] == k then [vals[i]] else [])
  {
    assert keys[..i + 1][..i] == keys[..i] && vals[..i + 1][..i] == vals[..i];
    PickSnoc(keys[..i + 1], vals[..i + 1], k);
  }

  lemma {:induction false} PickAbsent<K, V>(keys: seq<K>, vals: seq<V>, k: K)
    requires |keys| == |vals| && k !in keys
    ensures Pick(keys, vals, k) == []
  {
    if keys != [] {
      var n := |keys| - 1;
      PickAbsent(keys[..n], vals[..n], k);
      PickSnoc(keys, vals, k);
    }
  }

  lemma PickMember<K, V>(keys: seq<K>, vals: seq<V>, k: K, v: V)
    requires |keys| == |vals|
    ensures v in Pick(keys, vals, k) <==> exists p :: 0 <= p < |keys| && keys[p] == k && vals[p] == v
  {
    if p :| 0 <= p < |keys| && keys[p] == k && vals[p] == v {
      PositionsComplete(keys, k, p);
      var i :| 0 <= i < |Positions(keys, k)| && Positions(keys, k)[i] == p;
      assert Pick(keys, vals, k)[i] == v;
    }
  }

  /** `i` is the last position at which its key occurs: the one a map built by overwriting keeps. */
  ghost predicate LastOccurrence<K>(keys: seq<K>, i: nat)
    requires i < |keys|
  {
    forall j :: i < j < |keys| ==> keys[j] != keys[i]
  }

  // ----- order of first appearance

  /** The keys present, each once, in order of first appearance. */
  ghost function FirstKeys(keys: seq<Option<int>>): (r: seq<int>)
    ensures forall k :: k in r <==> Some(k) in keys
    ensures Distinct(r)
  {
    if keys == [] then []
    else
      var n := |keys| - 1;
      var before := FirstKeys(keys[..n]);
      assert keys == keys[..n] + [keys[n]];
      if keys[n].Some? && keys[n].value !in before then before + [keys[n].value] else before
  }

  // ----- one value per key

  /** The last value whose key is `fk`: every match is assigned, so the last one stays. */
  ghost function OneOf<V>(keys: seq<int>, vals: seq<V>, fk: Option<int>): (r: Option<V>)
    requires |keys| == |vals|
    ensures r.Some? <==> fk.Some? && Positions(keys, fk.value) != []
    ensures r.Some? ==> var idx := Positions(keys, fk.value); r.value == vals[idx[|idx| - 1]]
  {
    if fk.None? || Positions(keys, fk.value) == [] then None
    else
      var mine := Pick(keys, vals, fk.value);
      Some(mine[|mine| - 1])
  }

  lemma OneOfPrefix<V>(keys: seq<int>, vals: seq<V>, fk: Option<int>, j: nat)
    requires |keys| == |vals| && j < |keys|
    ensures OneOf(keys[..j + 1], vals[..j + 1], fk) == if fk == Some(keys[j]) then Some(vals[j]) else OneOf(keys[..j], vals[..j], fk)
  {
    if fk.Some? {
      PickPrefix(keys, vals, fk.value, j);
    }
  }

  /** Among distinct nodes, a bucket holds exactly the nodes that carry its key. */
  lemma BucketMember<N, K>(nodes: seq<N>, keys: seq<K>, k: K, i: nat)
    requires |nodes| == |keys| && Distinct(nodes) && i < |nodes|
    ensures nodes[i] in Pick(keys, nodes, k) <==> keys[i] == k
  {
    PickMember(keys, nodes, k, nodes[i]);
  }

  /** The bucket of node `i` when nodes are indexed by id and only the last node with an id is kept. */
  ghost function Dealt<K, V>(keys: seq<K>, vals: seq<V>, ids: seq<K>, i: nat): seq<V>
    requires |keys| == |vals| && i < |ids|
  {
    if LastOccurrence(ids, i) then Pick(keys, vals, ids[i]) else []
  }

  lemma DealtPrefix<K, V>(keys: seq<K>, vals: seq<V>, ids: seq<K>, i: nat, j: nat)
    requires |keys| == |vals| && i < |ids| && j < |keys|
    ensures Dealt(keys[..j + 1], vals[..j + 1], ids, i) ==
            Dealt(keys[..j], vals[..j], ids, i) + (if LastOccurrence(ids, i) && ids[i] == keys[j] then [vals[j]] else [])
  {
    PickPrefix(keys, vals, ids[i], j);
  }

  /** The same for a nullable key column. */
  ghost function DealtSome<K, V>(keys: seq<Option<K>>, vals: seq<V>, ids: seq<K>, i: nat): seq<V>
    requires |keys| == |vals| && i < |ids|
  {
    if LastOccurrence(ids, i) then Pick(keys, vals, Some(ids[i])) else []
  }

  lemma DealtSomePrefix<K, V>(keys: seq<Option<K>>, vals: seq<V>, ids: seq<K>, i: nat, j: nat)
    requires |keys| == |vals| && i < |ids| && j < |keys|
    ensures DealtSome(keys[..j + 1], vals[..j + 1], ids, i) ==
            DealtSome(keys[..j], vals[..j], ids, i) + (if LastOccurrence(ids, i) && Some(ids[i]) == keys[j] then [vals[j]] else [])
  {
    PickPrefix(keys, vals, Some(ids[i]), j);
  }
}

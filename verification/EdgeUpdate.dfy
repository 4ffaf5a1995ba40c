/**
 Updating edges: a mutation collects what was asked for, sqlSave turns it into edges to clear and edges to
 add, and the driver clears before it adds. The lemmas compare the result with carrying out the calls in turn.
 */
module EdgeUpdate {
  import opened Collections

  /** An edge to clear or to add; clearing with no nodes named clears them all. */
  datatype EdgeSpec = EdgeSpec(nodes: seq<int>)

  /** What the driver makes of an account's neighbours: the clears, then the adds. */
  function Applied(ids: set<int>, clear: seq<EdgeSpec>, add: seq<EdgeSpec>): set<int> {
    Added(Cleared(ids, clear), add)
  }

  function Cleared(ids: set<int>, clear: seq<EdgeSpec>): set<int> {
    if clear == [] then ids
    else Cleared(if clear[0].nodes == [] then {} else ids - Members(clear[0].nodes), clear[1..])
  }

  function Added(ids: set<int>, add: seq<EdgeSpec>): set<int>
    decreases |add|
  {
    if add == [] then ids else Added(ids + Members(add[0].nodes), add[1..])
  }

  function Members(ids: seq<int>): set<int> {
    set id | id in ids
  }

  // ----- edges to many: groups, children, usage logs

  datatype Many = Many(added: set<int>, cleared: bool, removed: set<int>)

  const NO_CHANGE := Many({}, false, {})

  datatype Call = Add(ids: seq<int>) | Remove(ids: seq<int>) | Clear | Reset

  function After(m: Many, call: Call): Many {
    match call
    case Add(ids) => m.(added := m.added + Members(ids))
    case Remove(ids) => m.(added := m.added - Members(ids), removed := m.removed + Members(ids))
    case Clear => m.(cleared := true)
    case Reset => NO_CHANGE
  }

  function Run(calls: seq<Call>): Many {
    if calls == [] then NO_CHANGE else After(Run(calls[..|calls| - 1]), calls[|calls| - 1])
  }

  /** The neighbours once the mutation is saved. */
  function Saved(ids: set<int>, m: Many): set<int> {
    (if m.cleared then {} else ids - m.removed) + m.added
  }

  class ManyEdge {
    var added: set<int>
    var cleared: bool
    var removed: set<int>

    constructor ()
      ensures State() == NO_CHANGE
    {
      added, cleared, removed := {}, false, {};
    }

    function State(): Many
      reads this
    {
      Many(added, cleared, removed)
    }

    method AddIDs(ids: seq<int>)
      modifies this
      ensures State() == After(old(State()), Add(ids))
    {
      for i := 0 to |ids|
        invariant State() == After(old(State()), Add(ids[..i]))
      {
        MembersStep(ids, i);
        added := added + {ids[i]};
      }
      assert ids[..|ids|] == ids;
    }

    method RemoveIDs(ids: seq<int>)
      modifies this
      ensures State() == After(old(State()), Remove(ids))
    {
      for i := 0 to |ids|
        invariant State() == After(old(State()), Remove(ids[..i]))
      {
        MembersStep(ids, i);
        added, removed := added - {ids[i]}, removed + {ids[i]};
      }
      assert ids[..|ids|] == ids;
    }

    method ClearAll()
      modifies this
      ensures State() == After(old(State()), Clear)
    {
      cleared := true;
    }

    method ResetAll()
      modifies this
      ensures State() == After(old(State()), Reset)
    {
      added, cleared, removed := {}, false, {};
    }

    method Perform(call: Call)
      modifies this
      ensures State() == After(old(State()), call)
    {
      match call
      case Add(ids) => AddIDs(ids);
      case Remove(ids) => RemoveIDs(ids);
      case Clear => ClearAll();
      case Reset => ResetAll();
    }

    /** The edge part of sqlSave. */
    method Edges() returns (clear: seq<EdgeSpec>, add: seq<EdgeSpec>)
      ensures forall ids :: Applied(ids, clear, add) == Saved(ids, State())
    {
      clear, add := [], [];
      if cleared {
        clear := clear + [EdgeSpec([])];
      }
      var gone := Listed(removed);
      if |gone| > 0 && !cleared {
        var edge := Targets(gone);
        clear := clear + [edge];
      }
      var given := Listed(added);
      if |given| > 0 {
        var edge := Targets(given);
        add := add + [edge];
      }
      forall ids ensures Applied(ids, clear, add) == Saved(ids, State()) {
        OneEdge(ids, gone);
        OneEdge(if cleared then {} else ids - removed, given);
        assert clear == if cleared then [EdgeSpec([])] else if gone == [] then [] else [EdgeSpec(gone)];
        assert add == if given == [] then [] else [EdgeSpec(given)];
        assert Cleared(ids, clear) == if cleared then {} else ids - removed;
      }
    }
  }

  lemma OneEdge(ids: set<int>, nodes: seq<int>)
    ensures nodes == [] <==> Members(nodes) == {}
    ensures Cleared(ids, []) == ids == Added(ids, [])
    ensures Cleared(ids, [EdgeSpec(nodes)]) == if nodes == [] then {} else ids - Members(nodes)
    ensures Cleared(ids, [EdgeSpec([])]) == {}
    ensures Added(ids, [EdgeSpec(nodes)]) == ids + Members(nodes)
  {
    if nodes != [] {
      assert nodes[0] in Members(nodes);
    }
  }

  lemma MembersStep(ids: seq<int>, i: nat)
    requires i < |ids|
    ensures Members(ids[..i + 1]) == Members(ids[..i]) + {ids[i]}
  {
    assert ids[..i + 1] == ids[..i] + [ids[i]];
  }

  /** The ids of a set in some order, as ranging over a map gives them. */
  method Listed(ids: set<int>) returns (r: seq<int>)
    ensures Members(r) == ids && Distinct(r)
  {
    r := [];
    var rest := ids;
    while rest != {}
      invariant rest <= ids && Members(r) == ids - rest && Distinct(r)
    {
      assert exists id :: id in rest by {
        assert (forall id :: id !in rest) ==> rest == {};
      }
      var id :| id in rest;
      MembersStep(r + [id], |r|);
      assert (r + [id])[..|r|] == r && (r + [id])[..|r| + 1] == r + [id];
      assert id !in Members(r);
      r, rest := r + [id], rest - {id};
    }
  }

  /** `edge.Target.Nodes = append(...)` for every id. */
  method Targets(ids: seq<int>) returns (edge: EdgeSpec)
    ensures edge.nodes == ids
  {
    edge := EdgeSpec([]);
    for i := 0 to |ids|
      invariant edge.nodes == ids[..i]
    {
      edge := EdgeSpec(edge.nodes + [ids[i]]);
    }
  }

  // ----- against carrying out the calls in turn

  function InTurn(ids: set<int>, calls: seq<Call>): set<int> {
    if calls == [] then ids
    else
      var n := |calls| - 1;
      var before := InTurn(ids, calls[..n]);
      match calls[n]
      case Add(more) => before + Members(more)
      case Remove(gone) => before - Members(gone)
      case Clear => {}
      case Reset => ids
  }

  /** The call says something about this id of its own. */
  predicate Mentions(call: Call, id: int) {
    match call
    case Add(ids) => id in ids
    case Remove(ids) => id in ids
    case Clear => false
    case Reset => true
  }

  /** `id` was last mentioned by the add at `a`. */
  ghost predicate LastAdded(calls: seq<Call>, id: int, a: nat)
    requires a < |calls|
  {
    calls[a].Add? && id in calls[a].ids && forall j :: a < j < |calls| ==> !Mentions(calls[j], id)
  }

  /** Added, and cleared away afterwards without being mentioned again. */
  ghost predicate ClearedAfterAdd(calls: seq<Call>, id: int) {
    exists a, c :: 0 <= a < c < |calls| && LastAdded(calls, id, a) && calls[c].Clear?
  }

  /** The adds a later clear should have undone. */
  ghost function Stale(calls: seq<Call>): set<int> {
    if calls == [] then {}
    else
      var n := |calls| - 1;
      match calls[n]
      case Add(more) => Stale(calls[..n]) - Members(more)
      case Remove(gone) => Stale(calls[..n]) - Members(gone)
      case Clear => Run(calls[..n]).added
      case Reset => {}
  }

  /** Saving gives what the calls in turn would give, and the stale adds on top. */
  lemma {:induction false} SavedIsInTurn(ids: set<int>, calls: seq<Call>)
    ensures Saved(ids, Run(calls)) == InTurn(ids, calls) + Stale(calls)
    ensures Stale(calls) <= Run(calls).added && Stale(calls) !! InTurn(ids, calls)
    ensures !Run(calls).cleared ==> Stale(calls) == {}
  {
    if calls != [] {
      SavedIsInTurn(ids, calls[..|calls| - 1]);
    }
  }

  lemma {:induction false} AddedExact(calls: seq<Call>, id: int)
    ensures id in Run(calls).added <==> exists a :: 0 <= a < |calls| && LastAdded(calls, id, a)
  {
    if calls != [] {
      var n := |calls| - 1;
      AddedExact(calls[..n], id);
      LastAddedPrefix(calls, id);
      if calls[n].Add? && id in calls[n].ids {
        assert LastAdded(calls, id, n);
      } else if a :| 0 <= a < n && LastAdded(calls[..n], id, a) && !Mentions(calls[n], id) {
        assert LastAdded(calls, id, a);
      }
    }
  }

  lemma LastAddedPrefix(calls: seq<Call>, id: int)
    requires calls != []
    ensures forall a :: 0 <= a < |calls| - 1 ==> (LastAdded(calls, id, a) <==> LastAdded(calls[..|calls| - 1], id, a) && !Mentions(calls[|calls| - 1], id))
  {
    var n := |calls| - 1;
    assert forall j :: 0 <= j < n ==> calls[..n][j] == calls[j];
  }

  lemma {:induction false} StaleExact(calls: seq<Call>, id: int)
    ensures id in Stale(calls) <==> ClearedAfterAdd(calls, id)
  {
    if calls != [] {
      var n := |calls| - 1;
      StaleExact(calls[..n], id);
      AddedExact(calls[..n], id);
      LastAddedPrefix(calls, id);
      assert forall j :: 0 <= j < n ==> calls[..n][j] == calls[j];
      if id in Stale(calls) {
        if calls[n].Clear? {
          var a :| 0 <= a < n && LastAdded(calls[..n], id, a);
          assert LastAdded(calls, id, a);
        } else {
          var a, c :| 0 <= a < c < n && LastAdded(calls[..n], id, a) && calls[..n][c].Clear?;
          assert LastAdded(calls, id, a) && calls[c].Clear?;
        }
      }
      if ClearedAfterAdd(calls, id) {
        var a, c :| 0 <= a < c < |calls| && LastAdded(calls, id, a) && calls[c].Clear?;
        assert LastAdded(calls[..n], id, a) && (c < n ==> calls[..n][c].Clear?);
      }
    }
  }

  /** An update does what its calls say in turn exactly when no add is followed by a clear that it survives. */
  lemma UpdateExact(ids: set<int>, calls: seq<Call>)
    ensures Saved(ids, Run(calls)) == InTurn(ids, calls) <==> forall id :: !ClearedAfterAdd(calls, id)
  {
    SavedIsInTurn(ids, calls);
    forall id ensures id in Stale(calls) <==> ClearedAfterAdd(calls, id) {
      StaleExact(calls, id);
    }
    if Saved(ids, Run(calls)) == InTurn(ids, calls) {
      assert forall id :: id in Stale(calls) ==> id in InTurn(ids, calls);
    }
    if forall id :: !ClearedAfterAdd(calls, id) {
      var stale := Stale(calls);
      assert (forall id :: id !in stale) ==> stale == {};
      assert forall id :: id in stale ==> ClearedAfterAdd(calls, id);
      assert InTurn(ids, calls) + {} == InTurn(ids, calls);
    }
  }

  /** Adding a group and then clearing all groups leaves the group. */
  lemma AddThenClear(ids: set<int>, id: int)
    ensures Saved(ids, Run([Add([id]), Clear])) == {id} && InTurn(ids, [Add([id]), Clear]) == {}
  {
    var calls := [Add([id]), Clear];
    assert calls[..1] == [Add([id])] && [Add([id])][..0] == [];
    assert Run([Add([id])]) == After(NO_CHANGE, Add([id]));
  }

  // ----- edges to one: proxy and parent

  datatype Unique = Unique(id: Option<int>, clearedEdge: bool, clearedField: bool)

  const UNTOUCHED := Unique(None, false, false)

  /** Through the field (SetProxyID, ClearProxyID, ResetProxyID) or through the edge (ClearProxy, ResetProxy). */
  datatype One = SetID(id: int) | ClearID | ClearEdge | ResetID | ResetEdge

  function AfterOne(u: Unique, call: One): Unique {
    match call
    case SetID(id) => u.(id := Some(id))
    case ClearID => u.(id := None, clearedField := true)
    case ClearEdge => u.(clearedEdge := true, clearedField := true)
    case ResetID => u.(id := None, clearedField := false)
    case ResetEdge => u.(id := None, clearedEdge := false)
  }

  function RunOne(calls: seq<One>): Unique {
    if calls == [] then UNTOUCHED else AfterOne(RunOne(calls[..|calls| - 1]), calls[|calls| - 1])
  }

  /** The neighbour once the mutation is saved: cleared first, then set. */
  function SavedOne(key: Option<int>, u: Unique): Option<int> {
    if u.id.Some? then u.id else if u.clearedField || u.clearedEdge then None else key
  }

  /** What the driver makes of the foreign key: clearing empties it, adding overwrites it. */
  function AppliedOne(key: Option<int>, clear: seq<EdgeSpec>, add: seq<EdgeSpec>): Option<int> {
    if add != [] && add[|add| - 1].nodes != [] then Some(add[|add| - 1].nodes[0])
    else if clear != [] then None
    else key
  }

  class UniqueEdge {
    var id: Option<int>
    var clearedEdge: bool
    var clearedField: bool

    constructor ()
      ensures State() == UNTOUCHED
    {
      id, clearedEdge, clearedField := None, false, false;
    }

    function State(): Unique
      reads this
    {
      Unique(id, clearedEdge, clearedField)
    }

    method Perform(call: One)
      modifies this
      ensures State() == AfterOne(old(State()), call)
    {
      match call
      case SetID(i) => id := Some(i);
      case ClearID => id, clearedField := None, true;
      case ClearEdge => clearedEdge, clearedField := true, true;
      case ResetID => id, clearedField := None, false;
      case ResetEdge => id, clearedEdge := None, false;
    }

    /** The edge part of sqlSave. */
    method Edges() returns (clear: seq<EdgeSpec>, add: seq<EdgeSpec>)
      ensures forall key :: AppliedOne(key, clear, add) == SavedOne(key, State())
    {
      clear, add := [], [];
      if clearedField || clearedEdge {
        clear := clear + [EdgeSpec([])];
      }
      var given := if id.Some? then [id.value] else [];
      if |given| > 0 {
        var edge := Targets(given);
        add := add + [edge];
      }
    }
  }

  function InTurnOne(key: Option<int>, calls: seq<One>): Option<int> {
    if calls == [] then key
    else
      match calls[|calls| - 1]
      case SetID(id) => Some(id)
      case ClearID => None
      case ClearEdge => None
      case ResetID => key
      case ResetEdge => key
  }

  // ----- which earlier calls leave the last one without effect

  /** A call that `mark` picks out, and none behind it that `wipe` picks out. */
  ghost predicate Left(calls: seq<One>, mark: One -> bool, wipe: One -> bool) {
    exists a :: 0 <= a < |calls| && LeftAt(calls, mark, wipe, a)
  }

  ghost predicate LeftAt(calls: seq<One>, mark: One -> bool, wipe: One -> bool, a: nat)
    requires a < |calls|
  {
    mark(calls[a]) && forall j :: a < j < |calls| ==> !wipe(calls[j])
  }

  lemma LeftSnoc(calls: seq<One>, mark: One -> bool, wipe: One -> bool)
    requires calls != []
    ensures var n := |calls| - 1; Left(calls, mark, wipe) <==> mark(calls[n]) || (Left(calls[..n], mark, wipe) && !wipe(calls[n]))
  {
    var n := |calls| - 1;
    var before := calls[..n];
    assert forall j :: 0 <= j < n ==> before[j] == calls[j];
    assert mark(calls[n]) ==> LeftAt(calls, mark, wipe, n);
    if Left(before, mark, wipe) && !wipe(calls[n]) {
      var a :| 0 <= a < n && LeftAt(before, mark, wipe, a);
      assert LeftAt(calls, mark, wipe, a);
    }
    if Left(calls, mark, wipe) {
      var a :| 0 <= a < |calls| && LeftAt(calls, mark, wipe, a);
      assert a < n ==> LeftAt(before, mark, wipe, a);
    }
  }

  function Sets(): One -> bool { (c: One) => c.SetID? }
  function Unsets(): One -> bool { (c: One) => c.ClearID? || c.ResetID? || c.ResetEdge? }
  function ClearsEdge(): One -> bool { (c: One) => c.ClearEdge? }
  function ResetsEdge(): One -> bool { (c: One) => c.ResetEdge? }
  function ClearsField(): One -> bool { (c: One) => c.ClearID? || c.ClearEdge? }
  function ResetsField(): One -> bool { (c: One) => c.ResetID? }

  /** What a run leaves behind, told from its calls. */
  lemma {:induction false} RunExact(calls: seq<One>)
    ensures RunOne(calls).id.Some? <==> Left(calls, Sets(), Unsets())
    ensures RunOne(calls).clearedEdge <==> Left(calls, ClearsEdge(), ResetsEdge())
    ensures RunOne(calls).clearedField <==> Left(calls, ClearsField(), ResetsField())
  {
    if calls != [] {
      RunExact(calls[..|calls| - 1]);
      LeftSnoc(calls, Sets(), Unsets());
      LeftSnoc(calls, ClearsEdge(), ResetsEdge());
      LeftSnoc(calls, ClearsField(), ResetsField());
    }
  }

  /**
   The last call takes effect: always a set or a clear of the field; a clear of the edge if no set is left standing; a reset
   of the field if no clear of the edge is, and a reset of the edge if no clear of either is.
   */
  ghost predicate TakesEffect(before: seq<One>, last: One) {
    match last
    case SetID(_) => true
    case ClearID => true
    case ClearEdge => !Left(before, Sets(), Unsets())
    case ResetID => !Left(before, ClearsEdge(), ResetsEdge())
    case ResetEdge => !Left(before, ClearsField(), ResetsField())
  }

  /** For every stored key the update does what its calls say in turn, exactly when the last one takes effect. */
  lemma UniqueUpdateExact(calls: seq<One>)
    ensures (forall key :: SavedOne(key, RunOne(calls)) == InTurnOne(key, calls))
      <==> (calls == [] || TakesEffect(calls[..|calls| - 1], calls[|calls| - 1]))
  {
    if calls != [] {
      var before, last := calls[..|calls| - 1], calls[|calls| - 1];
      RunExact(before);
      assert RunOne(calls) == AfterOne(RunOne(before), last);
      if !TakesEffect(before, last) {
        assert SavedOne(Some(0), RunOne(calls)) != InTurnOne(Some(0), calls);
      }
    }
  }

  lemma RunTwo(first: One, second: One)
    ensures RunOne([first, second]) == AfterOne(AfterOne(UNTOUCHED, first), second)
  {
    assert [first, second][..1] == [first] && [first][..0] == [];
    assert RunOne([first]) == AfterOne(UNTOUCHED, first);
  }

  /** Setting a proxy and then clearing the edge leaves the proxy; resetting what was cleared on the other side leaves it cleared. */
  lemma ClearAndResetFail(key: int)
    ensures SavedOne(Some(key), RunOne([SetID(1), ClearEdge])) == Some(1) && InTurnOne(Some(key), [SetID(1), ClearEdge]) == None
    ensures SavedOne(Some(key), RunOne([ClearEdge, ResetEdge])) == None && InTurnOne(Some(key), [ClearEdge, ResetEdge]) == Some(key)
    ensures SavedOne(Some(key), RunOne([ClearEdge, ResetID])) == None && InTurnOne(Some(key), [ClearEdge, ResetID]) == Some(key)
  {
    RunTwo(SetID(1), ClearEdge);
    RunTwo(ClearEdge, ResetEdge);
    RunTwo(ClearEdge, ResetID);
  }
}

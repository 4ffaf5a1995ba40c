/**
 AccountCreateBulk.Save: a chain of mutators, one per builder, each wrapped in its builder's hooks. Every
 link checks its builder, writes its spec and calls the next; the last one performs the single batch
 insert; success is committed link by link while the calls return.
 */
module BulkCreate {
  import opened Collections
  import opened Schema
  import opened CreateChecks

  // ----- hooks and links, as values

  /**
   A hook calls the next mutator at most once. `before` edits the mutation or rejects it without calling
   next; `after`, when set, turns a success of next into an error.
   */
  datatype Hook = Hook(before: Fields -> Result<Fields, Error>, after: Option<Error>)

  /** Forwards the result of next untouched. */
  ghost predicate Forwards(h: Hook) {
    h.after.None?
  }

  datatype Mutator = Core(i: nat) | Wrapped(depth: nat, hook: Hook, next: Mutator)

  /** hooks[0](hooks[1](... core)), the hooks numbered from `depth`. */
  function Wrap(hooks: seq<Hook>, depth: nat, i: nat): Mutator {
    if hooks == [] then Core(i) else Wrapped(depth, hooks[0], Wrap(hooks[1..], depth + 1, i))
  }

  /** A builder as the chain finds it: the hooks still to run, and its mutation's fields. */
  datatype Link = Link(hooks: seq<Hook>, fields: Fields)

  /** Runs the hooks' edits, then the check. */
  function Pass(rt: Runtime, link: Link): Result<Fields, Error>
    decreases |link.hooks|
  {
    if link.hooks == [] then
      var err := Check(rt, Rules(), link.fields);
      if err.Some? then Err(err.value) else Ok(link.fields)
    else
      var edited := link.hooks[0].before(link.fields);
      if edited.Err? then Err(edited.error) else Pass(rt, Link(link.hooks[1..], edited.value))
  }

  /** The specs of all links, or the error of the first link that does not pass. */
  function Descend(rt: Runtime, links: seq<Link>): (r: Result<seq<Fields>, Error>)
    ensures r.Ok? ==> |r.value| == |links|
  {
    if links == [] then Ok([])
    else
      var first := Pass(rt, links[0]);
      if first.Err? then Err(first.error)
      else
        var rest := Descend(rt, links[1..]);
        if rest.Err? then rest else Ok([first.value] + rest.value)
  }

  /** The error the hooks of one link make of a success: the innermost `after` wins. */
  function AfterError(hooks: seq<Hook>): Option<Error> {
    if hooks == [] then None
    else
      var inner := AfterError(hooks[1..]);
      if inner.Some? then inner else hooks[0].after
  }

  /** The same for a chain of links, from the deepest one out. */
  function Unwind(links: seq<Link>): Option<Error> {
    if links == [] then None
    else
      var inner := Unwind(links[1..]);
      if inner.Some? then inner else AfterError(links[0].hooks)
  }

  /** What link `k` sees of the links behind it. */
  function Deeper(links: seq<Link>, k: nat): Option<Error>
    requires k < |links|
  {
    Unwind(links[k + 1..])
  }

  lemma {:induction false} UnwindNone(links: seq<Link>)
    ensures Unwind(links).None? <==> forall i :: 0 <= i < |links| ==> AfterError(links[i].hooks).None?
  {
    if links != [] {
      UnwindNone(links[1..]);
      assert forall i :: 0 < i < |links| ==> links[i] == links[1..][i - 1];
    }
  }

  /** A batch insert: the driver fills in an id per spec (or leaves it out), or fails. */
  type Insert = seq<Fields> -> Result<seq<Option<int>>, Error>

  // ----- the objects

  class Mutation {
    var fields: Fields
    /** Points at the node whose ID is the mutation's id. */
    var id: AccountNode?
    var done: bool

    constructor (fields: Fields)
      ensures this.fields == fields && id == null && !done
    {
      this.fields, id, done := fields, null, false;
    }
  }

  class AccountNode {
    var ID: int
    const fields: Fields

    constructor (fields: Fields)
      ensures ID == 0 && this.fields == fields
    {
      ID, this.fields := 0, fields;
    }
  }

  class AccountCreate {
    const mutation: Mutation
    const hooks: seq<Hook>

    constructor (mutation: Mutation, hooks: seq<Hook>)
      ensures this.mutation == mutation && this.hooks == hooks
    {
      this.mutation, this.hooks := mutation, hooks;
    }
  }

  datatype CreateSpec = CreateSpec(fields: Fields, id: Option<int>)

  datatype Event = Enter(i: nat, depth: nat) | Checked(i: nat) | Inserted | Committed(i: nat) | Exit(i: nat, depth: nat)

  class Driver {
    const insert: Insert
    var batches: seq<seq<Fields>>
    /** The calls in the order they happen. */
    var log: seq<Event>

    constructor (insert: Insert)
      ensures this.insert == insert && batches == [] && log == []
    {
      this.insert, batches, log := insert, [], [];
    }
  }

  // ----- the chain

  /** Everything the closures of one Save share. */
  datatype Chain = Chain(rt: Runtime, driver: Driver, builders: seq<AccountCreate>, mutators: seq<Mutator>,
                         nodes: array<AccountNode?>, specs: array<CreateSpec>) {
    /** The mutators are the wrapped cores, and no two builders share a mutation. */
    ghost predicate Ready() {
      && |mutators| == |builders| == nodes.Length == specs.Length
      && (forall j :: 0 <= j < |builders| ==> mutators[j] == Wrap(builders[j].hooks, 0, j))
      && (forall j, k :: 0 <= j < k < |builders| ==> builders[j].mutation != builders[k].mutation)
      && Faithful(driver.insert)
    }

    /** The mutations of builder `i` and the ones after it. */
    ghost function From(i: nat): set<Mutation>
      requires i <= |builders|
    {
      set j | i <= j < |builders| :: builders[j].mutation
    }

    ghost function Links(i: nat): (r: seq<Link>)
      requires i <= |builders|
      reads From(i)
      ensures |r| == |builders| - i
      ensures forall k :: 0 <= k < |r| ==> r[k] == Link(builders[i + k].hooks, builders[i + k].mutation.fields)
    {
      seq(|builders| - i, k requires 0 <= k < |builders| - i reads From(i) => Link(builders[i + k].hooks, builders[i + k].mutation.fields))
    }

    /** The specs written so far. */
    ghost function Written(i: nat): (r: seq<Fields>)
      requires i <= specs.Length
      reads specs
      ensures |r| == i && forall j :: 0 <= j < i ==> r[j] == specs[j].fields
    {
      seq(i, j requires 0 <= j < i reads specs requires i <= specs.Length => specs[j].fields)
    }
  }

  /** The driver answers with one id slot per spec. */
  ghost predicate Faithful(insert: Insert) {
    forall batch :: insert(batch).Ok? ==> |insert(batch).value| == |batch|
  }

  /** What callers can see of a mutation: whether it is done, and the node its id belongs to. */
  datatype Flag = Flag(done: bool, id: AccountNode?)

  function MutationsOf(builders: seq<AccountCreate>): set<Mutation> {
    set b | b in builders :: b.mutation
  }

  ghost function Flags(builders: seq<AccountCreate>): (r: seq<Flag>)
    reads MutationsOf(builders)
    ensures |r| == |builders|
    ensures forall j :: 0 <= j < |r| ==> r[j] == Flag(builders[j].mutation.done, builders[j].mutation.id)
  {
    seq(|builders|, j requires 0 <= j < |builders| reads MutationsOf(builders) => Flag(builders[j].mutation.done, builders[j].mutation.id))
  }

  /** The state before: batches sent, and the flags of all mutations. */
  datatype Before = Before(batches: seq<seq<Fields>>, flags: seq<Flag>)

  ghost function Now(c: Chain): Before
    reads c.driver`batches, MutationsOf(c.builders)
  {
    Before(c.driver.batches, Flags(c.builders))
  }

  function IdOf(slot: Option<int>): int {
    if slot.Some? then slot.value else 0
  }

  /** From link `i` on, a link whose deeper links all returned success is committed, the others are as before. */
  ghost predicate Settled(c: Chain, i: nat, links: seq<Link>, ids: seq<Option<int>>, flags: seq<Flag>)
    requires i <= |c.builders| == c.nodes.Length == |ids| == |flags| && |links| == |c.builders| - i
    reads c.nodes, MutationsOf(c.builders), set j | 0 <= j < c.nodes.Length && c.nodes[j] != null :: c.nodes[j]
  {
    forall j :: i <= j < |c.builders| ==>
      if Deeper(links, j - i).None?
      then Flags(c.builders)[j] == Flag(true, c.nodes[j]) && c.nodes[j] != null && c.nodes[j].ID == IdOf(ids[j])
      else Flags(c.builders)[j] == flags[j]
  }

  /** The slots of the links from `i` on hold distinct nodes, one per spec. */
  ghost predicate Filled(c: Chain, i: nat, batch: seq<Fields>)
    requires |c.builders| == c.nodes.Length == |batch|
    reads c.nodes
  {
    && (forall j :: i <= j < |batch| ==> c.nodes[j] != null && c.nodes[j].fields == batch[j])
    && (forall j, k :: i <= j < k < |batch| ==> c.nodes[j] != c.nodes[k])
  }

  /**
   What running the links from `i` on amounts to. `links` are these links as found, `written` the specs
   already there, `before` the state at the start, `err` the error returned, if any.
   */
  ghost predicate Outcome(c: Chain, i: nat, links: seq<Link>, written: seq<Fields>, before: Before, err: Option<Error>)
    requires c.Ready() && i <= |c.builders| == |before.flags| && |links| == |c.builders| - i && |written| == i
    reads c.nodes, c.specs, c.driver`batches, MutationsOf(c.builders), set j | 0 <= j < c.nodes.Length && c.nodes[j] != null :: c.nodes[j]
  {
    var down := Descend(c.rt, links);
    if down.Err? then err == Some(down.error) && Now(c) == before
    else Sent(c, i, links, written + down.value, before, err)
  }

  /** The batch was sent, once; then either it failed and nothing happened, or the links were settled. */
  ghost predicate Sent(c: Chain, i: nat, links: seq<Link>, batch: seq<Fields>, before: Before, err: Option<Error>)
    requires c.Ready() && i <= |c.builders| == |before.flags| == |batch| && |links| == |c.builders| - i
    reads c.nodes, c.specs, c.driver`batches, MutationsOf(c.builders), set j | 0 <= j < c.nodes.Length && c.nodes[j] != null :: c.nodes[j]
  {
    var inserted := c.driver.insert(batch);
    && c.driver.batches == before.batches + [batch]
    && (forall j :: 0 <= j < i ==> Flags(c.builders)[j] == before.flags[j])
    && (inserted.Err? ==> err == Some(inserted.error) && Flags(c.builders) == before.flags)
    && (inserted.Ok? ==>
          && (forall j :: 0 <= j < |batch| ==> c.specs[j] == CreateSpec(batch[j], inserted.value[j]))
          && Filled(c, i, batch)
          && Settled(c, i, links, inserted.value, before.flags)
          && err == Unwind(links))
  }

  function ErrorOf<T>(r: Result<T, Error>): Option<Error> {
    if r.Err? then Some(r.error) else None
  }

  /** The links from `i` on, the first `depth` hooks of the first one already run. */
  ghost function Ahead(c: Chain, i: nat, depth: nat): (links: seq<Link>)
    requires i < |c.builders| && depth <= |c.builders[i].hooks|
    reads c.From(i)
    ensures |links| == |c.builders| - i
  {
    [Link(c.builders[i].hooks[depth..], c.builders[i].mutation.fields)] + c.Links(i + 1)
  }

  /** The slots from `i` on are still empty. */
  ghost predicate Vacant(c: Chain, i: nat)
    reads c.nodes
  {
    forall j :: i <= j < c.nodes.Length ==> c.nodes[j] == null
  }

  /** The log at the end of a run of links, and whether the run succeeds. */
  datatype End = End(log: seq<Event>, ok: bool)

  /**
   The calls of running `links`, the first of them link `i` of the chain with `depth` hooks behind it, as they nest;
   `inserted` says whether the insert, if it comes to that, succeeds.
   */
  ghost function Logged(rt: Runtime, links: seq<Link>, i: nat, depth: nat, inserted: bool, log: seq<Event>): End
    requires links != []
    decreases |links|, |links[0].hooks| + 1, 1
  {
    if links[0].hooks != [] then
      var inside := LoggedHook(rt, links, i, depth, inserted, log);
      End(inside.log + [Exit(i, depth)], inside.ok)
    else if Check(rt, Rules(), links[0].fields).Some? then End(log, false)
    else
      var behind := LoggedBehind(rt, links[1..], i, inserted, log + [Checked(i)]);
      if behind.ok then End(behind.log + [Committed(i)], true) else behind
  }

  /** Inside the first hook, up to its return. */
  ghost function LoggedHook(rt: Runtime, links: seq<Link>, i: nat, depth: nat, inserted: bool, log: seq<Event>): End
    requires links != [] && links[0].hooks != []
    decreases |links|, |links[0].hooks| + 1, 0
  {
    var hook := links[0].hooks[0];
    var edited := hook.before(links[0].fields);
    if edited.Err? then End(log + [Enter(i, depth)], false)
    else
      var next := Logged(rt, [Link(links[0].hooks[1..], edited.value)] + links[1..], i, depth + 1, inserted, log + [Enter(i, depth)]);
      End(next.log, next.ok && hook.after.None?)
  }

  /** Behind link `i`: the next link, or the insert. */
  ghost function LoggedBehind(rt: Runtime, rest: seq<Link>, i: nat, inserted: bool, log: seq<Event>): End
    decreases |rest| + 1, 0, 0
  {
    if rest == [] then End(log + [Inserted], inserted) else Logged(rt, rest, i + 1, 0, inserted, log)
  }

  /** Batch number `n` was sent and inserted. */
  ghost predicate InsertedAt(driver: Driver, n: nat)
    reads driver`batches
  {
    |driver.batches| > n && driver.insert(driver.batches[n]).Ok?
  }

  /** The driver's log, and the success of the run, are what `end` says. */
  ghost predicate Ends(driver: Driver, end: End, ok: bool)
    reads driver`log
  {
    driver.log == end.log && ok == end.ok
  }

  method Mutate(c: Chain, i: nat, depth: nat, mut: Mutator) returns (r: Result<AccountNode, Error>)
    requires c.Ready() && i < |c.builders| && depth <= |c.builders[i].hooks| && Vacant(c, i)
    requires mut == Wrap(c.builders[i].hooks[depth..], depth, i)
    modifies c.nodes, c.specs, c.driver`batches, c.driver`log, c.From(i)
    ensures forall j :: 0 <= j < i ==> c.nodes[j] == old(c.nodes[j]) && c.specs[j].fields == old(c.specs[j].fields)
    ensures forall j :: i <= j < |c.builders| && c.nodes[j] != null ==> fresh(c.nodes[j])
    ensures Outcome(c, i, old(Ahead(c, i, depth)), old(c.Written(i)), old(Now(c)), ErrorOf(r))
    ensures r.Ok? ==> r.value == c.nodes[i]
    ensures Ends(c.driver, Logged(c.rt, old(Ahead(c, i, depth)), i, depth, InsertedAt(c.driver, old(|c.driver.batches|)), old(c.driver.log)), r.Ok?)
    decreases |c.builders| - i, mut, 3
  {
    match mut
    case Wrapped(_, hook, next) =>
      r := NotedHook(c, i, depth, hook, next);
    case Core(_) =>
      r := RunCore(c, i);
  }

  method NotedHook(c: Chain, i: nat, depth: nat, hook: Hook, next: Mutator) returns (r: Result<AccountNode, Error>)
    requires c.Ready() && i < |c.builders| && depth < |c.builders[i].hooks| && Vacant(c, i)
    requires hook == c.builders[i].hooks[depth] && next == Wrap(c.builders[i].hooks[depth + 1..], depth + 1, i)
    modifies c.nodes, c.specs, c.driver`batches, c.driver`log, c.From(i)
    ensures forall j :: 0 <= j < i ==> c.nodes[j] == old(c.nodes[j]) && c.specs[j].fields == old(c.specs[j].fields)
    ensures forall j :: i <= j < |c.builders| && c.nodes[j] != null ==> fresh(c.nodes[j])
    ensures Outcome(c, i, old(Ahead(c, i, depth)), old(c.Written(i)), old(Now(c)), ErrorOf(r))
    ensures r.Ok? ==> r.value == c.nodes[i]
    ensures Ends(c.driver, Logged(c.rt, old(Ahead(c, i, depth)), i, depth, InsertedAt(c.driver, old(|c.driver.batches|)), old(c.driver.log)), r.Ok?)
    decreases |c.builders| - i, next, 5
  {
    ghost var links, written, before := Ahead(c, i, depth), c.Written(i), Now(c);
    r := RunHook(c, i, depth, hook, next);
    Leave(c, i, depth, links, written, before, ErrorOf(r));
  }

  method Leave(c: Chain, i: nat, depth: nat, ghost links: seq<Link>, ghost written: seq<Fields>, ghost before: Before, ghost err: Option<Error>)
    requires c.Ready() && i < |c.builders| == |before.flags| && |links| == |c.builders| - i && |written| == i
    requires Outcome(c, i, links, written, before, err)
    modifies c.driver`log
    ensures Outcome(c, i, links, written, before, err) && c.driver.log == old(c.driver.log) + [Exit(i, depth)]
  {
    c.driver.log := c.driver.log + [Exit(i, depth)];
  }

  /** One hook: edit or reject, call next once, and let the result through or turn a success into an error. */
  method RunHook(c: Chain, i: nat, depth: nat, hook: Hook, next: Mutator) returns (r: Result<AccountNode, Error>)
    requires c.Ready() && i < |c.builders| && depth < |c.builders[i].hooks| && Vacant(c, i)
    requires hook == c.builders[i].hooks[depth] && next == Wrap(c.builders[i].hooks[depth + 1..], depth + 1, i)
    modifies c.nodes, c.specs, c.driver`batches, c.driver`log, c.From(i)
    ensures forall j :: 0 <= j < i ==> c.nodes[j] == old(c.nodes[j]) && c.specs[j].fields == old(c.specs[j].fields)
    ensures forall j :: i <= j < |c.builders| && c.nodes[j] != null ==> fresh(c.nodes[j])
    ensures Outcome(c, i, old(Ahead(c, i, depth)), old(c.Written(i)), old(Now(c)), ErrorOf(r))
    ensures r.Ok? ==> r.value == c.nodes[i]
    ensures Ends(c.driver, LoggedHook(c.rt, old(Ahead(c, i, depth)), i, depth, InsertedAt(c.driver, old(|c.driver.batches|)), old(c.driver.log)), r.Ok?)
    decreases |c.builders| - i, next, 4
  {
    ghost var links, written, before := Ahead(c, i, depth), c.Written(i), Now(c);
    ghost var edited := hook.before(links[0].fields);
    var rejected := Edit(c, i, depth, hook);
    if rejected.Some? {
      return Err(rejected.value);
    }
    r := Mutate(c, i, depth + 1, next);
    OutsideHook(c, i, links, edited.value, written, before, ErrorOf(r));
    if r.Ok? && hook.after.Some? {
      r := Err(hook.after.value);
    }
  }

  /** The part of a hook before it calls next. */
  method Edit(c: Chain, i: nat, depth: nat, hook: Hook) returns (rejected: Option<Error>)
    requires c.Ready() && i < |c.builders| && depth < |c.builders[i].hooks| && hook == c.builders[i].hooks[depth]
    modifies c.builders[i].mutation`fields, c.driver`log
    ensures Now(c) == old(Now(c)) && c.driver.log == old(c.driver.log) + [Enter(i, depth)]
    ensures rejected == ErrorOf(hook.before(old(c.builders[i].mutation.fields)))
    ensures rejected.None? ==>
      Ahead(c, i, depth + 1) == [Link(old(Ahead(c, i, depth))[0].hooks[1..], hook.before(old(c.builders[i].mutation.fields)).value)]
                                + old(Ahead(c, i, depth))[1..]
  {
    var m := c.builders[i].mutation;
    Note(c.driver, Enter(i, depth));
    var edited := hook.before(m.fields);
    if edited.Err? {
      return Some(edited.error);
    }
    m.fields := edited.value;
    return None;
  }

  method Note(driver: Driver, e: Event)
    modifies driver`log
    ensures driver.log == old(driver.log) + [e]
  {
    driver.log := driver.log + [e];
  }

  /** From the outcome inside a hook to the outcome outside it. */
  lemma OutsideHook(c: Chain, i: nat, links: seq<Link>, edited: Fields, written: seq<Fields>, before: Before, err: Option<Error>)
    requires c.Ready() && i < |c.builders| == |before.flags| && |links| == |c.builders| - i && |written| == i
    requires links[0].hooks != [] && links[0].hooks[0].before(links[0].fields) == Ok(edited)
    requires Outcome(c, i, [Link(links[0].hooks[1..], edited)] + links[1..], written, before, err)
    ensures Outcome(c, i, links, written, before, if err.Some? then err else links[0].hooks[0].after)
  {
    var inner := [Link(links[0].hooks[1..], edited)] + links[1..];
    HookStep(c.rt, links, edited);
    forall k | 0 <= k < |links| ensures Deeper(inner, k) == Deeper(links, k) {
      assert inner[k + 1..] == links[k + 1..];
    }
  }

  /** Peeling one hook off the first link. */
  lemma HookStep(rt: Runtime, links: seq<Link>, edited: Fields)
    requires links != [] && links[0].hooks != [] && links[0].hooks[0].before(links[0].fields) == Ok(edited)
    ensures var inner := [Link(links[0].hooks[1..], edited)] + links[1..];
            && Descend(rt, links) == Descend(rt, inner)
            && Unwind(links) == (if Unwind(inner).Some? then Unwind(inner) else links[0].hooks[0].after)
  {
  }

  /** The innermost mutator of link `i`: check, write the spec, call the next link or insert, commit. */
  method RunCore(c: Chain, i: nat) returns (r: Result<AccountNode, Error>)
    requires c.Ready() && i < |c.builders| && Vacant(c, i)
    modifies c.nodes, c.specs, c.driver`batches, c.driver`log, c.From(i)
    ensures forall j :: 0 <= j < i ==> c.nodes[j] == old(c.nodes[j]) && c.specs[j].fields == old(c.specs[j].fields)
    ensures forall j :: i <= j < |c.builders| && c.nodes[j] != null ==> fresh(c.nodes[j])
    ensures Outcome(c, i, old(Ahead(c, i, |c.builders[i].hooks|)), old(c.Written(i)), old(Now(c)), ErrorOf(r))
    ensures r.Ok? ==> r.value == c.nodes[i]
    ensures Ends(c.driver, Logged(c.rt, old(Ahead(c, i, |c.builders[i].hooks|)), i, |c.builders[i].hooks|, InsertedAt(c.driver, old(|c.driver.batches|)), old(c.driver.log)), r.Ok?)
    decreases |c.builders| - i, Core(i), 2
  {
    var invalid := CheckBuilder(c.rt, c.builders[i]);
    if invalid.Some? {
      return Err(invalid.value);
    }
    r := RunChecked(c, i);
  }

  method CheckBuilder(rt: Runtime, b: AccountCreate) returns (err: Option<Error>)
    ensures err == Check(rt, Rules(), b.mutation.fields)
  {
    err := CheckFields(rt, b.mutation.fields);
  }

  method RunChecked(c: Chain, i: nat) returns (r: Result<AccountNode, Error>)
    requires c.Ready() && i < |c.builders| && Vacant(c, i)
    requires Check(c.rt, Rules(), c.builders[i].mutation.fields).None?
    modifies c.nodes, c.specs, c.driver`batches, c.driver`log, c.From(i)
    ensures forall j :: 0 <= j < i ==> c.nodes[j] == old(c.nodes[j]) && c.specs[j].fields == old(c.specs[j].fields)
    ensures forall j :: i <= j < |c.builders| && c.nodes[j] != null ==> fresh(c.nodes[j])
    ensures Outcome(c, i, old(Ahead(c, i, |c.builders[i].hooks|)), old(c.Written(i)), old(Now(c)), ErrorOf(r))
    ensures r.Ok? ==> r.value == c.nodes[i]
    ensures Ends(c.driver, Logged(c.rt, old(Ahead(c, i, |c.builders[i].hooks|)), i, |c.builders[i].hooks|, InsertedAt(c.driver, old(|c.driver.batches|)), old(c.driver.log)), r.Ok?)
    decreases |c.builders| - i, Core(i), 1
  {
    ghost var links, written, before := Ahead(c, i, |c.builders[i].hooks|), c.Written(i), Now(c);
    var node, err := WriteAndNext(c, i);
    r := Settle(c, i, node, err, links, written, before);
  }

  method WriteAndNext(c: Chain, i: nat) returns (node: AccountNode, err: Option<Error>)
    requires c.Ready() && i < |c.builders| && Vacant(c, i)
    modifies c.nodes, c.specs, c.driver`batches, c.driver`log, c.From(i + 1)
    ensures forall j :: 0 <= j < i ==> c.nodes[j] == old(c.nodes[j]) && c.specs[j].fields == old(c.specs[j].fields)
    ensures forall j :: i < j < |c.builders| && c.nodes[j] != null ==> fresh(c.nodes[j])
    ensures fresh(node) && node.fields == old(c.builders[i].mutation.fields) && node.ID == 0 && c.nodes[i] == node
    ensures forall j :: i < j < |c.builders| ==> c.nodes[j] != node
    ensures Outcome(c, i + 1, old(c.Links(i + 1)), old(c.Written(i)) + [node.fields], old(Now(c)), err)
    ensures Ends(c.driver, LoggedBehind(c.rt, old(c.Links(i + 1)), i, InsertedAt(c.driver, old(|c.driver.batches|)), old(c.driver.log) + [Checked(i)]), err.None?)
    decreases |c.builders| - i, Core(i), 0
  {
    ghost var links, before := c.Links(i + 1), Now(c);
    node := WriteSpec(c, i);
    assert links == c.Links(i + 1) && Now(c) == before;
    err := Next(c, i);
  }

  /** Passes an error on, or commits. */
  method Settle(c: Chain, i: nat, node: AccountNode, err: Option<Error>, ghost links: seq<Link>, ghost written: seq<Fields>, ghost before: Before)
    returns (r: Result<AccountNode, Error>)
    requires c.Ready() && i < |c.builders| == |before.flags| && |links| == |c.builders| - i && |written| == i
    requires links[0].hooks == [] && Check(c.rt, Rules(), links[0].fields).None?
    requires Outcome(c, i + 1, links[1..], written + [links[0].fields], before, err)
    requires c.nodes[i] == node && node.fields == links[0].fields && node.ID == 0
    requires forall j :: i < j < |c.builders| ==> c.nodes[j] != node
    modifies c.builders[i].mutation`id, c.builders[i].mutation`done, node`ID, c.driver`log
    ensures Outcome(c, i, links, written, before, ErrorOf(r))
    ensures r.Ok? <==> err.None?
    ensures r.Ok? ==> r.value == node
    ensures c.driver.log == old(c.driver.log) + if err.None? then [Committed(i)] else []
  {
    if err.Some? {
      PassErrorOn(c, i, links, written, before, err.value);
      return Err(err.value);
    }
    Note(c.driver, Committed(i));
    Commit(c, i, node, links, written, before);
    return Ok(node);
  }

  /** `nodes[i], specs[i] = builder.createSpec()` */
  method WriteSpec(c: Chain, i: nat) returns (node: AccountNode)
    requires c.Ready() && i < |c.builders|
    modifies c.nodes, c.specs, c.driver`log
    ensures fresh(node) && node.ID == 0 && node.fields == c.builders[i].mutation.fields
    ensures c.nodes[i] == node && forall j :: 0 <= j < |c.builders| && j != i ==> c.nodes[j] == old(c.nodes[j]) && c.specs[j] == old(c.specs[j])
    ensures c.Written(i + 1) == old(c.Written(i)) + [node.fields] && c.driver.log == old(c.driver.log) + [Checked(i)]
  {
    var fields := c.builders[i].mutation.fields;
    c.driver.log := c.driver.log + [Checked(i)];
    node := new AccountNode(fields);
    c.nodes[i], c.specs[i] := node, CreateSpec(fields, None);
  }

  /** `mutators[i+1].Mutate(...)`, or the batch insert behind the last link. */
  method Next(c: Chain, i: nat) returns (err: Option<Error>)
    requires c.Ready() && i < |c.builders| && Vacant(c, i + 1)
    modifies c.nodes, c.specs, c.driver`batches, c.driver`log, c.From(i + 1)
    ensures forall j :: 0 <= j <= i ==> c.nodes[j] == old(c.nodes[j]) && c.specs[j].fields == old(c.specs[j].fields)
    ensures forall j :: i < j < |c.builders| && c.nodes[j] != null ==> fresh(c.nodes[j])
    ensures Outcome(c, i + 1, old(c.Links(i + 1)), old(c.Written(i + 1)), old(Now(c)), err)
    ensures Ends(c.driver, LoggedBehind(c.rt, old(c.Links(i + 1)), i, InsertedAt(c.driver, old(|c.driver.batches|)), old(c.driver.log)), err.None?)
    decreases |c.builders| - i - 1
  {
    if i < |c.mutators| - 1 {
      assert c.Links(i + 1) == Ahead(c, i + 1, 0);
      var next := Mutate(c, i + 1, 0, c.mutators[i + 1]);
      err := ErrorOf(next);
    } else {
      err := BatchCreate(c);
    }
  }

  /** sqlgraph.BatchCreate: one insert of all specs; on success every spec's id slot is filled as the driver answers. */
  method BatchCreate(c: Chain) returns (err: Option<Error>)
    requires c.Ready()
    modifies c.specs, c.driver`batches, c.driver`log
    ensures forall j :: 0 <= j < |c.builders| ==> c.specs[j].fields == old(c.specs[j].fields)
    ensures Outcome(c, |c.builders|, [], old(c.Written(|c.builders|)), old(Now(c)), err)
    ensures c.driver.log == old(c.driver.log) + [Inserted] && (err.None? <==> InsertedAt(c.driver, old(|c.driver.batches|)))
  {
    var batch := seq(c.specs.Length, j requires 0 <= j < c.specs.Length reads c.specs => c.specs[j].fields);
    assert batch == c.Written(|c.builders|) == c.Written(|c.builders|) + [];
    ghost var before := Now(c);
    c.driver.batches := c.driver.batches + [batch];
    c.driver.log := c.driver.log + [Inserted];
    var inserted := c.driver.insert(batch);
    if inserted.Err? {
      return Some(inserted.error);
    }
    for j := 0 to c.specs.Length
      invariant c.driver.batches == before.batches + [batch] && Flags(c.builders) == before.flags && c.driver.log == old(c.driver.log) + [Inserted]
      invariant forall k :: 0 <= k < j ==> c.specs[k] == CreateSpec(batch[k], inserted.value[k])
      invariant forall k :: j <= k < c.specs.Length ==> c.specs[k] == old(c.specs[k])
    {
      c.specs[j] := CreateSpec(c.specs[j].fields, inserted.value[j]);
    }
    return None;
  }

  /** A link whose hooks are done and whose check passes. */
  lemma CoreStep(rt: Runtime, links: seq<Link>)
    requires links != [] && links[0].hooks == [] && Check(rt, Rules(), links[0].fields).None?
    ensures var rest := Descend(rt, links[1..]);
            Descend(rt, links) == if rest.Err? then rest else Ok([links[0].fields] + rest.value)
    ensures Unwind(links) == Unwind(links[1..]) == Deeper(links, 0)
    ensures forall k :: 0 < k < |links| ==> Deeper(links, k) == Deeper(links[1..], k - 1)
  {
    forall k | 0 < k < |links| ensures Deeper(links, k) == Deeper(links[1..], k - 1) {
      assert links[k + 1..] == links[1..][k..];
    }
  }

  lemma Associates(a: seq<Fields>, b: seq<Fields>, c: seq<Fields>)
    ensures a + b + c == a + (b + c)
  {
  }

  /** An error from behind leaves this link uncommitted. */
  lemma PassErrorOn(c: Chain, i: nat, links: seq<Link>, written: seq<Fields>, before: Before, err: Error)
    requires c.Ready() && i < |c.builders| == |before.flags| && |links| == |c.builders| - i && |written| == i
    requires links[0].hooks == [] && Check(c.rt, Rules(), links[0].fields).None?
    requires Outcome(c, i + 1, links[1..], written + [links[0].fields], before, Some(err))
    requires c.nodes[i] != null && c.nodes[i].fields == links[0].fields && forall j :: i < j < |c.builders| ==> c.nodes[j] != c.nodes[i]
    ensures Outcome(c, i, links, written, before, Some(err))
  {
    CoreStep(c.rt, links);
    var rest := Descend(c.rt, links[1..]);
    if rest.Ok? {
      assert written + [links[0].fields] + rest.value == written + Descend(c.rt, links).value;
    }
  }

  /** Success from behind: the id and done flag of this link's mutation. */
  method Commit(c: Chain, i: nat, node: AccountNode, ghost links: seq<Link>, ghost written: seq<Fields>, ghost before: Before)
    requires c.Ready() && i < |c.builders| == |before.flags| && |links| == |c.builders| - i && |written| == i
    requires links[0].hooks == [] && Check(c.rt, Rules(), links[0].fields).None?
    requires Outcome(c, i + 1, links[1..], written + [links[0].fields], before, None)
    requires c.nodes[i] == node && node.fields == links[0].fields && node.ID == 0
    requires forall j :: i < j < |c.builders| ==> c.nodes[j] != node
    modifies c.builders[i].mutation`id, c.builders[i].mutation`done, node`ID
    ensures Outcome(c, i, links, written, before, None)
  {
    ghost var batch := written + [links[0].fields] + Descend(c.rt, links[1..]).value;
    Mark(c, i, node, links[1..], c.driver.insert(batch).value, before.flags);
    CommitOutcome(c, i, links, written, before);
  }

  /** The assignments; the links behind stay settled. */
  method Mark(c: Chain, i: nat, node: AccountNode, ghost links: seq<Link>, ghost ids: seq<Option<int>>, ghost flags: seq<Flag>)
    requires c.Ready() && i < |c.builders| == |ids| == |flags| && |links| == |c.builders| - i - 1
    requires Settled(c, i + 1, links, ids, flags) && node.ID == 0 && forall j :: i < j < |c.builders| ==> c.nodes[j] != node
    modifies c.builders[i].mutation`id, c.builders[i].mutation`done, node`ID
    ensures Settled(c, i + 1, links, ids, flags) && node.ID == IdOf(c.specs[i].id)
    ensures Flags(c.builders) == old(Flags(c.builders))[i := Flag(true, node)]
  {
    var m := c.builders[i].mutation;
    m.id := node;
    if c.specs[i].id.Some? {
      node.ID := c.specs[i].id.value;
    }
    m.done := true;
  }

  /** The links behind are settled, and this one is committed. */
  ghost predicate CommitReady(c: Chain, i: nat, links: seq<Link>, written: seq<Fields>, before: Before)
    requires c.Ready() && i < |c.builders| == |before.flags| && |links| == |c.builders| - i && |written| == i
    reads c.nodes, c.specs, c.driver`batches, MutationsOf(c.builders), set j | 0 <= j < c.nodes.Length && c.nodes[j] != null :: c.nodes[j]
  {
    Descend(c.rt, links[1..]).Ok? &&
      var batch := written + [links[0].fields] + Descend(c.rt, links[1..]).value;
      var inserted := c.driver.insert(batch);
      && inserted.Ok? && c.driver.batches == before.batches + [batch] && Unwind(links[1..]).None?
      && (forall j :: 0 <= j < |batch| ==> c.specs[j] == CreateSpec(batch[j], inserted.value[j]))
      && Filled(c, i, batch) && Settled(c, i + 1, links[1..], inserted.value, before.flags)
      && (forall j :: 0 <= j < i ==> Flags(c.builders)[j] == before.flags[j])
      && Flags(c.builders)[i] == Flag(true, c.nodes[i]) && c.nodes[i].ID == IdOf(inserted.value[i])
  }

  /** A link committed in front of settled ones. */
  lemma CommitOutcome(c: Chain, i: nat, links: seq<Link>, written: seq<Fields>, before: Before)
    requires c.Ready() && i < |c.builders| == |before.flags| && |links| == |c.builders| - i && |written| == i
    requires links[0].hooks == [] && Check(c.rt, Rules(), links[0].fields).None?
    requires CommitReady(c, i, links, written, before)
    ensures Outcome(c, i, links, written, before, None)
  {
    CoreStep(c.rt, links);
    Associates(written, [links[0].fields], Descend(c.rt, links[1..]).value);
  }

  // ----- Save

  /** `for i := len(hooks) - 1; i >= 0; i-- { mut = hooks[i](mut) }` */
  method WrapHooks(hooks: seq<Hook>, i: nat) returns (mut: Mutator)
    ensures mut == Wrap(hooks, 0, i)
  {
    mut := Core(i);
    var j := |hooks|;
    while j > 0
      invariant 0 <= j <= |hooks|
      invariant mut == Wrap(hooks[j..], j, i)
    {
      j := j - 1;
      assert hooks[j..][1..] == hooks[j + 1..];
      mut := Wrapped(j, hooks[j], mut);
    }
  }

  /** defaults: false exactly when a default is missing for a field that is not set. */
  method ApplyDefaults(rt: Runtime, m: Mutation) returns (ok: bool)
    modifies m`fields
    ensures m.fields == Defaulted(Defaults(rt), old(m.fields))
    ensures ok <==> Initialized(Defaults(rt), old(m.fields))
  {
    var defaults := Defaults(rt);
    DefaultNamesApart(rt);
    ok := RunDefaults(defaults, m);
  }

  method RunDefaults(defaults: seq<Default>, m: Mutation) returns (ok: bool)
    requires NamesApart(defaults)
    modifies m`fields
    ensures m.fields == Defaulted(defaults, old(m.fields))
    ensures ok <==> Initialized(defaults, old(m.fields))
  {
    for d := 0 to |defaults|
      invariant Defaulted(defaults[d..], m.fields) == Defaulted(defaults, old(m.fields))
      invariant forall j :: 0 <= j < d ==> defaults[j].name in old(m.fields) || defaults[j].value.Some?
      invariant forall j :: d <= j < |defaults| ==> (defaults[j].name in m.fields <==> defaults[j].name in old(m.fields))
    {
      assert defaults[d..][1..] == defaults[d + 1..];
      if defaults[d].name !in m.fields {
        if defaults[d].value.None? {
          return false;
        }
        m.fields := m.fields[defaults[d].name := defaults[d].value.value];
      }
    }
    return true;
  }

  ghost predicate Apart(builders: seq<AccountCreate>) {
    forall j, k :: 0 <= j < k < |builders| ==> builders[j].mutation != builders[k].mutation
  }

  ghost function LinksOf(builders: seq<AccountCreate>): (r: seq<Link>)
    reads MutationsOf(builders)
    ensures |r| == |builders|
    ensures forall j :: 0 <= j < |r| ==> r[j] == Link(builders[j].hooks, builders[j].mutation.fields)
  {
    seq(|builders|, j requires 0 <= j < |builders| reads MutationsOf(builders) => Link(builders[j].hooks, builders[j].mutation.fields))
  }

  /** The chain's links once defaults have run. */
  ghost function Started(rt: Runtime, builders: seq<AccountCreate>): (r: seq<Link>)
    reads MutationsOf(builders)
    ensures |r| == |builders|
    ensures forall j :: 0 <= j < |r| ==> r[j] == Link(builders[j].hooks, Defaulted(Defaults(rt), builders[j].mutation.fields))
  {
    seq(|builders|, j requires 0 <= j < |builders| reads MutationsOf(builders) =>
          Link(builders[j].hooks, Defaulted(Defaults(rt), builders[j].mutation.fields)))
  }

  /** The loop over the builders: defaults, then the wrapped core. */
  method BuildMutators(rt: Runtime, builders: seq<AccountCreate>) returns (mutators: seq<Mutator>)
    requires Apart(builders)
    modifies MutationsOf(builders)`fields
    ensures forall j :: 0 <= j < |builders| ==> builders[j].mutation.fields == Defaulted(Defaults(rt), old(builders[j].mutation.fields))
    ensures |mutators| == |builders| && forall j :: 0 <= j < |builders| ==> mutators[j] == Wrap(builders[j].hooks, 0, j)
  {
    mutators := [];
    for i := 0 to |builders|
      invariant forall j :: 0 <= j < i ==> builders[j].mutation.fields == Defaulted(Defaults(rt), old(builders[j].mutation.fields))
      invariant forall j :: i <= j < |builders| ==> builders[j].mutation.fields == old(builders[j].mutation.fields)
      invariant |mutators| == i && forall j :: 0 <= j < i ==> mutators[j] == Wrap(builders[j].hooks, 0, j)
    {
      // The error is not looked at.
      var ok := ApplyDefaults(rt, builders[i].mutation);
      var mut := WrapHooks(builders[i].hooks, i);
      mutators := mutators + [mut];
    }
  }

  /**
   What a caller of Save sees. `links` are the builders after defaults. The batch is sent once, or not at all when
   a link does not pass. After an insert a mutation is done, with the id of its returned node, unless a
   hook of a deeper link turned success into an error.
   */
  ghost predicate Saved(rt: Runtime, driver: Driver, builders: seq<AccountCreate>, links: seq<Link>, before: Before, nodes: seq<AccountNode?>, err: Option<Error>)
    requires |links| == |builders| == |before.flags|
    reads driver`batches, MutationsOf(builders), set j | 0 <= j < |nodes| && nodes[j] != null :: nodes[j]
  {
    var down := Descend(rt, links);
    if down.Err? then err == Some(down.error) && driver.batches == before.batches && Flags(builders) == before.flags
    else
      var inserted := driver.insert(down.value);
      && driver.batches == before.batches + [down.value]
      && (inserted.Err? ==> err == Some(inserted.error) && Flags(builders) == before.flags)
      && (inserted.Ok? ==> err == Unwind(links) && AllCommitted(builders, links, down.value, inserted.value, before.flags, nodes))
  }

  /** The nodes hold the inserted rows; the mutations whose deeper links succeeded point at theirs. */
  ghost predicate AllCommitted(builders: seq<AccountCreate>, links: seq<Link>, batch: seq<Fields>, ids: seq<Option<int>>, flags: seq<Flag>, nodes: seq<AccountNode?>)
    requires |links| == |builders| == |flags| == |batch|
    reads MutationsOf(builders), set j | 0 <= j < |nodes| && nodes[j] != null :: nodes[j]
  {
    && |nodes| == |ids| == |builders|
    && (forall j, k :: 0 <= j < k < |nodes| ==> nodes[j] != nodes[k])
    && forall j :: 0 <= j < |nodes| ==>
         && nodes[j] != null && nodes[j].fields == batch[j]
         && (if Deeper(links, j).None? then Flags(builders)[j] == Flag(true, nodes[j]) && nodes[j].ID == IdOf(ids[j])
             else Flags(builders)[j] == flags[j])
  }

  /** The outcome of the whole chain, as a caller sees it. */
  lemma OutcomeIsSaved(c: Chain, links: seq<Link>, before: Before, err: Option<Error>)
    requires c.Ready() && |links| == |c.builders| == |before.flags|
    requires Outcome(c, 0, links, [], before, err)
    ensures Saved(c.rt, c.driver, c.builders, links, before, c.nodes[..], err)
  {
    var down := Descend(c.rt, links);
    if down.Ok? {
      assert [] + down.value == down.value;
    }
  }

  /**
   Save: nothing is sent when an error is already known. Otherwise one batch or none is sent, and what is sent misses no
   required field and holds no value its validator refuses; Saved says what becomes of the mutations and the nodes.
   */
  method Save(rt: Runtime, driver: Driver, prior: Option<Error>, builders: seq<AccountCreate>)
    returns (r: Result<seq<AccountNode?>, Error>, ghost nodes: seq<AccountNode?>)
    requires Apart(builders) && Faithful(driver.insert)
    modifies driver, MutationsOf(builders)
    ensures prior.Some? ==> r == Err(prior.value) && driver.batches == old(driver.batches) && Flags(builders) == old(Flags(builders))
    ensures prior.None? && builders == [] ==> r == Ok([]) && driver.batches == old(driver.batches)
    ensures prior.None? && builders != [] ==>
      Saved(rt, driver, builders, old(Started(rt, builders)), Before(old(driver.batches), old(Flags(builders))), nodes, ErrorOf(r))
    ensures |driver.batches| <= |old(driver.batches)| + 1
    ensures |driver.batches| > |old(driver.batches)| ==>
      |driver.batches[|old(driver.batches)|]| == |builders| && AllSound(rt, driver.batches[|old(driver.batches)|])
    ensures r.Ok? ==> r.value == nodes
    ensures prior.None? && builders != [] ==>
      Ends(driver, Logged(rt, old(Started(rt, builders)), 0, 0, InsertedAt(driver, old(|driver.batches|)), old(driver.log)), r.Ok?)
    ensures prior.Some? || builders == [] ==> driver.log == old(driver.log)
  {
    nodes := [];
    if prior.Some? {
      return Err(prior.value), [];
    }
    var mutators := BuildMutators(rt, builders);
    assert LinksOf(builders) == old(Started(rt, builders)) && Flags(builders) == old(Flags(builders));
    if |mutators| > 0 {
      var c := NewChain(rt, driver, builders, mutators);
      var first := RunFirst(c);
      nodes := c.nodes[..];
      BatchIsSound(rt, old(Started(rt, builders)));
      return if first.Err? then Err(first.error) else Ok(c.nodes[..]), nodes;
    }
    return Ok([]), [];
  }

  method NewChain(rt: Runtime, driver: Driver, builders: seq<AccountCreate>, mutators: seq<Mutator>) returns (c: Chain)
    requires Apart(builders) && Faithful(driver.insert)
    requires |mutators| == |builders| && forall j :: 0 <= j < |builders| ==> mutators[j] == Wrap(builders[j].hooks, 0, j)
    ensures c.Ready() && Vacant(c, 0) && fresh(c.nodes) && fresh(c.specs)
    ensures c.rt == rt && c.driver == driver && c.builders == builders
  {
    var specs := new CreateSpec[|builders|](_ => CreateSpec(map[], None));
    var slots := new AccountNode?[|builders|](_ => null);
    c := Chain(rt, driver, builders, mutators, slots, specs);
  }

  /** `mutators[0].Mutate`, on empty arrays. */
  method RunFirst(c: Chain) returns (r: Result<AccountNode, Error>)
    requires c.Ready() && c.builders != [] && Vacant(c, 0)
    modifies c.nodes, c.specs, c.driver`batches, c.driver`log, MutationsOf(c.builders)
    ensures Saved(c.rt, c.driver, c.builders, old(LinksOf(c.builders)), old(Now(c)), c.nodes[..], ErrorOf(r))
    ensures Ends(c.driver, Logged(c.rt, old(LinksOf(c.builders)), 0, 0, InsertedAt(c.driver, old(|c.driver.batches|)), old(c.driver.log)), r.Ok?)
  {
    ghost var links, before := LinksOf(c.builders), Now(c);
    assert c.From(0) == MutationsOf(c.builders);
    assert Ahead(c, 0, 0) == links && c.Written(0) == [];
    r := Mutate(c, 0, 0, c.mutators[0]);
    OutcomeIsSaved(c, links, before, ErrorOf(r));
  }

  // ----- what Save promises

  ghost predicate AllSound(rt: Runtime, batch: seq<Fields>) {
    forall i :: 0 <= i < |batch| ==> Sound(rt, batch[i])
  }

  /**
   One link: the states its mutation goes through, hook by hook. Either some hook rejects the state it finds, with its error;
   or all edit it, and the link passes exactly if the last state is sound.
   */
  lemma {:induction false} PassExact(rt: Runtime, link: Link) returns (states: seq<Fields>)
    ensures 0 < |states| <= |link.hooks| + 1 && states[0] == link.fields
    ensures forall k :: 0 <= k < |states| - 1 ==> link.hooks[k].before(states[k]) == Ok(states[k + 1])
    ensures var last := states[|states| - 1]; var p := Pass(rt, link);
            if |states| <= |link.hooks| then p.Err? && link.hooks[|states| - 1].before(last) == Err(p.error)
            else if Sound(rt, last) then p == Ok(last)
            else p.Err? && Explains(rt, last, p.error)
    decreases |link.hooks|
  {
    if link.hooks == [] {
      states := [link.fields];
      RulesMean(rt, link.fields);
      CheckExplains(rt, Rules(), link.fields);
    } else {
      var edited := link.hooks[0].before(link.fields);
      if edited.Err? {
        states := [link.fields];
      } else {
        var inner := Link(link.hooks[1..], edited.value);
        var rest := PassExact(rt, inner);
        states := [link.fields] + rest;
        assert states[|states| - 1] == rest[|rest| - 1];
        assert forall k :: 0 <= k < |inner.hooks| ==> inner.hooks[k] == link.hooks[k + 1];
      }
    }
  }

  lemma BatchIsSound(rt: Runtime, links: seq<Link>)
    ensures Descend(rt, links).Ok? ==> AllSound(rt, Descend(rt, links).value)
  {
    DescendExact(rt, links);
    if Descend(rt, links).Ok? {
      forall i | 0 <= i < |links| ensures Sound(rt, Descend(rt, links).value[i]) {
        var states := PassExact(rt, links[i]);
      }
    }
  }

  /** Of the hooks that turn a success into an error, the innermost decides which one. */
  lemma {:induction false} InnermostHook(hooks: seq<Hook>)
    ensures AfterError(hooks).Some? ==>
      exists i :: 0 <= i < |hooks| && hooks[i].after == AfterError(hooks) && forall j :: i < j < |hooks| ==> hooks[j].after.None?
  {
    if hooks != [] && AfterError(hooks).Some? {
      ForwardingNeverSpoils(hooks[1..]);
      if AfterError(hooks[1..]).Some? {
        InnermostHook(hooks[1..]);
        var i :| 0 <= i < |hooks[1..]| && hooks[1..][i].after == AfterError(hooks[1..]) && forall j :: i < j < |hooks[1..]| ==> hooks[1..][j].after.None?;
        assert hooks[i + 1] == hooks[1..][i];
        assert forall j :: i + 1 < j < |hooks| ==> hooks[j] == hooks[1..][j - 1];
      } else {
        assert forall j :: 0 < j < |hooks| ==> hooks[j] == hooks[1..][j - 1];
        assert hooks[0].after == AfterError(hooks);
      }
    }
  }

  /** Of the links whose hooks do, the last one in the chain. */
  lemma {:induction false} InnermostLink(links: seq<Link>)
    ensures Unwind(links).Some? ==>
      exists i :: 0 <= i < |links| && AfterError(links[i].hooks) == Unwind(links) && forall j :: i < j < |links| ==> AfterError(links[j].hooks).None?
  {
    if links != [] && Unwind(links).Some? {
      UnwindNone(links[1..]);
      if Unwind(links[1..]).Some? {
        InnermostLink(links[1..]);
        var i :| 0 <= i < |links[1..]| && AfterError(links[1..][i].hooks) == Unwind(links[1..]) && forall j :: i < j < |links[1..]| ==> AfterError(links[1..][j].hooks).None?;
        assert links[i + 1] == links[1..][i];
        assert forall j :: i + 1 < j < |links| ==> links[j] == links[1..][j - 1];
      } else {
        assert forall j :: 0 < j < |links| ==> links[j] == links[1..][j - 1];
        assert AfterError(links[0].hooks) == Unwind(links);
      }
    }
  }

  /** The i-th spec is builder i's; the first link that does not pass decides the error. */
  lemma {:induction false} DescendExact(rt: Runtime, links: seq<Link>)
    ensures Descend(rt, links).Ok? <==> forall i :: 0 <= i < |links| ==> Pass(rt, links[i]).Ok?
    ensures Descend(rt, links).Ok? ==> forall i :: 0 <= i < |links| ==> Ok(Descend(rt, links).value[i]) == Pass(rt, links[i])
    ensures Descend(rt, links).Err? ==>
      exists i :: 0 <= i < |links| && Pass(rt, links[i]) == Err(Descend(rt, links).error)
        && forall j :: 0 <= j < i ==> Pass(rt, links[j]).Ok?
  {
    if links != [] {
      var rest := links[1..];
      DescendExact(rt, rest);
      assert forall i :: 0 < i < |links| ==> links[i] == rest[i - 1];
      if Pass(rt, links[0]).Ok? && Descend(rt, rest).Err? {
        var i :| 0 <= i < |rest| && Pass(rt, rest[i]) == Err(Descend(rt, rest).error) && forall j :: 0 <= j < i ==> Pass(rt, rest[j]).Ok?;
        assert links[i + 1] == rest[i];
      }
    }
  }

  ghost predicate Untouched(flags: seq<Flag>) {
    forall j :: 0 <= j < |flags| ==> flags[j] == Flag(false, null)
  }

  /** Every mutation is done and has the id the driver gave its node. */
  ghost predicate AllDone(builders: seq<AccountCreate>, nodes: seq<AccountNode?>, ids: seq<Option<int>>)
    reads MutationsOf(builders), set j | 0 <= j < |nodes| && nodes[j] != null :: nodes[j]
  {
    && |nodes| == |ids| == |builders|
    && forall j :: 0 <= j < |nodes| ==> nodes[j] != null && Flags(builders)[j] == Flag(true, nodes[j]) && nodes[j].ID == IdOf(ids[j])
  }

  /** What AllOrNothing needs of the links: nothing passes, the insert fails, or no hook spoils a success. */
  ghost predicate Clean(rt: Runtime, driver: Driver, links: seq<Link>) {
    var down := Descend(rt, links);
    down.Err? || driver.insert(down.value).Err? || forall i :: 0 <= i < |links| ==> AfterError(links[i].hooks).None?
  }

  /**
   All or nothing: either an error and no mutation touched, or success and every mutation done with its id.
   This holds exactly when no hook turns a success into an error after a successful insert.
   */
  lemma AllOrNothing(rt: Runtime, driver: Driver, builders: seq<AccountCreate>, links: seq<Link>, before: Before, nodes: seq<AccountNode?>, err: Option<Error>)
    requires builders != [] && |links| == |builders| == |before.flags| && Untouched(before.flags)
    requires Saved(rt, driver, builders, links, before, nodes, err)
    ensures err.None? ==>
      Descend(rt, links).Ok? && driver.insert(Descend(rt, links).value).Ok?
      && AllDone(builders, nodes, driver.insert(Descend(rt, links).value).value)
    ensures (err.Some? ==> Untouched(Flags(builders))) <==> Clean(rt, driver, links)
  {
    UnwindNone(links);
    var down, last := Descend(rt, links), |links| - 1;
    if down.Ok? && driver.insert(down.value).Ok? {
      assert links[last + 1..] == [];
      assert Deeper(links, last).None?;
      assert Flags(builders)[last] == Flag(true, nodes[last]);
      if Unwind(links).None? {
        forall j | 0 <= j < |links| ensures Deeper(links, j).None? {
          UnwindNone(links[j + 1..]);
        }
      }
    }
  }

  /** One builder whose hook lets the save through and then reports an error: the row is there and the mutation done. */
  lemma SpoiledSave(rt: Runtime, driver: Driver, b: AccountCreate, pass: Fields -> Result<Fields, Error>, fields: Fields, e: Error,
                    before: Before, nodes: seq<AccountNode?>, err: Option<Error>)
    requires pass(fields) == Ok(fields) && Check(rt, Rules(), fields).None? && driver.insert([fields]).Ok? && |before.flags| == 1
    requires Saved(rt, driver, [b], [Link([Hook(pass, Some(e))], fields)], before, nodes, err)
    ensures err == Some(e) && driver.batches == before.batches + [[fields]]
    ensures b.mutation.done && b.mutation.id != null && b.mutation.id.fields == fields
  {
    var hook := Hook(pass, Some(e));
    var link := Link([hook], fields);
    assert [hook][1..] == [] && [link][1..] == [];
    assert Pass(rt, Link([], fields)) == Ok(fields);
    assert link.hooks[1..] == [] && Link(link.hooks[1..], pass(fields).value) == Link([], fields);
    assert Pass(rt, link) == Pass(rt, Link(link.hooks[1..], pass(fields).value));
    var none: seq<Fields> := [];
    assert Descend(rt, [link][1..]) == Ok(none) && [fields] + none == [fields];
    assert Descend(rt, [link]) == Ok([fields]);
    assert AfterError(link.hooks) == Some(e);
    assert Deeper([link], 0).None?;
    assert Flags([b])[0] == Flag(true, nodes[0]);
  }

  lemma {:induction false} ForwardingNeverSpoils(hooks: seq<Hook>)
    ensures AfterError(hooks).None? <==> forall i :: 0 <= i < |hooks| ==> Forwards(hooks[i])
  {
    if hooks != [] {
      ForwardingNeverSpoils(hooks[1..]);
      assert forall i :: 0 < i < |hooks| ==> hooks[i] == hooks[1..][i - 1];
    }
  }

  // ----- the order of the calls

  /** What is called on the way in: builder by builder and hook by hook, up to the first link that does not pass. */
  ghost function Entering(rt: Runtime, links: seq<Link>, i: nat, depth: nat): seq<Event>
    requires links != []
    decreases |links|, |links[0].hooks|
  {
    if links[0].hooks != [] then
      var edited := links[0].hooks[0].before(links[0].fields);
      [Enter(i, depth)] + if edited.Err? then [] else Entering(rt, [Link(links[0].hooks[1..], edited.value)] + links[1..], i, depth + 1)
    else if Check(rt, Rules(), links[0].fields).Some? then []
    else [Checked(i)] + if links[1..] == [] then [] else Entering(rt, links[1..], i + 1, 0)
  }

  /** The way back from a success: every hook returns, every link commits. */
  function Returning(entered: seq<Event>): seq<Event> {
    if entered == [] then [] else Returning(entered[1..]) + [Return(entered[0])]
  }

  function Return(e: Event): Event {
    match e
    case Enter(i, depth) => Exit(i, depth)
    case Checked(i) => Committed(i)
    case _ => e
  }

  /** The way back from a failure: every hook returns, nothing is committed. */
  function Leaving(entered: seq<Event>): seq<Event> {
    if entered == [] then [] else Leaving(entered[1..]) + (if entered[0].Enter? then [Return(entered[0])] else [])
  }

  lemma WayBack(e: Event, entered: seq<Event>)
    ensures Returning([e] + entered) == Returning(entered) + [Return(e)]
    ensures Leaving([e] + entered) == Leaving(entered) + if e.Enter? then [Return(e)] else []
  {
    assert ([e] + entered)[1..] == entered;
  }

  /** In, across, and back out. */
  ghost function Round(log: seq<Event>, entered: seq<Event>, across: seq<Event>, back: seq<Event>): seq<Event> {
    log + entered + across + back
  }

  lemma RoundNests(log: seq<Event>, e: Event, entered: seq<Event>, across: seq<Event>, back: seq<Event>, last: seq<Event>)
    ensures Round(log + [e], entered, across, back) + last == Round(log, [e] + entered, across, back + last)
  {
  }

  /** A success goes in, inserts once, and comes back in exactly the reverse order. */
  lemma {:induction false} CallsOfSuccess(rt: Runtime, links: seq<Link>, i: nat, depth: nat, inserted: bool, log: seq<Event>)
    requires links != [] && Logged(rt, links, i, depth, inserted, log).ok
    ensures var going := Entering(rt, links, i, depth);
            Logged(rt, links, i, depth, inserted, log).log == Round(log, going, [Inserted], Returning(going))
    decreases |links|, |links[0].hooks|
  {
    if links[0].hooks != [] {
      var edited := links[0].hooks[0].before(links[0].fields);
      var inner := [Link(links[0].hooks[1..], edited.value)] + links[1..];
      CallsOfSuccess(rt, inner, i, depth + 1, inserted, log + [Enter(i, depth)]);
      SuccessNests(log, Enter(i, depth), Entering(rt, inner, i, depth + 1));
    } else if links[1..] != [] {
      CallsOfSuccess(rt, links[1..], i + 1, 0, inserted, log + [Checked(i)]);
      SuccessNests(log, Checked(i), Entering(rt, links[1..], i + 1, 0));
    } else {
      SuccessNests(log, Checked(i), []);
      assert Round(log + [Checked(i)], [], [Inserted], []) == log + [Checked(i)] + [Inserted];
    }
  }

  lemma SuccessNests(log: seq<Event>, e: Event, entered: seq<Event>)
    ensures Round(log + [e], entered, [Inserted], Returning(entered)) + [Return(e)]
         == Round(log, [e] + entered, [Inserted], Returning([e] + entered))
  {
    WayBack(e, entered);
    RoundNests(log, e, entered, [Inserted], Returning(entered), [Return(e)]);
  }

  lemma FailureNests(log: seq<Event>, e: Event, entered: seq<Event>, across: seq<Event>)
    ensures Round(log + [e], entered, across, Leaving(entered)) + (if e.Enter? then [Return(e)] else [])
         == Round(log, [e] + entered, across, Leaving([e] + entered))
  {
    WayBack(e, entered);
    RoundNests(log, e, entered, across, Leaving(entered), if e.Enter? then [Return(e)] else []);
  }

  /**
   A failure on the way in, or of the insert: the calls go in as far as they get, insert only if every link passes,
   and the hooks entered return in reverse; nothing is committed.
   */
  lemma {:induction false} CallsOfFailure(rt: Runtime, links: seq<Link>, i: nat, depth: nat, inserted: bool, log: seq<Event>)
    requires links != [] && (Descend(rt, links).Err? || !inserted)
    ensures var going := Entering(rt, links, i, depth); var end := Logged(rt, links, i, depth, inserted, log);
            !end.ok && end.log == Round(log, going, if Descend(rt, links).Err? then [] else [Inserted], Leaving(going))
    decreases |links|, |links[0].hooks|
  {
    var across := if Descend(rt, links).Err? then [] else [Inserted];
    if links[0].hooks != [] {
      var edited := links[0].hooks[0].before(links[0].fields);
      if edited.Ok? {
        var inner := [Link(links[0].hooks[1..], edited.value)] + links[1..];
        HookStep(rt, links, edited.value);
        CallsOfFailure(rt, inner, i, depth + 1, inserted, log + [Enter(i, depth)]);
        FailureNests(log, Enter(i, depth), Entering(rt, inner, i, depth + 1), across);
      } else {
        EmptyRound(log + [Enter(i, depth)], []);
        FailureNests(log, Enter(i, depth), [], across);
      }
    } else if Check(rt, Rules(), links[0].fields).Some? {
      EmptyRound(log, []);
    } else if links[1..] != [] {
      CoreStep(rt, links);
      CallsOfFailure(rt, links[1..], i + 1, 0, inserted, log + [Checked(i)]);
      FailureNests(log, Checked(i), Entering(rt, links[1..], i + 1, 0), across);
      assert Logged(rt, links, i, depth, inserted, log).log + [] == Logged(rt, links, i, depth, inserted, log).log;
    } else {
      CoreStep(rt, links);
      EmptyRound(log + [Checked(i)], across);
      FailureNests(log, Checked(i), [], across);
      assert log + [Checked(i)] + across + [] == log + [Checked(i)] + across;
    }
  }

  lemma EmptyRound(log: seq<Event>, across: seq<Event>)
    ensures Round(log, [], across, Leaving([])) == log + across
  {
  }

  function BuilderOf(e: Event): nat {
    match e
    case Enter(i, _) => i
    case Checked(i) => i
    case Committed(i) => i
    case Exit(i, _) => i
    case Inserted => 0
  }

  /** Behind a link that does not pass no builder is entered or checked. */
  lemma {:induction false} NoLaterBuilder(rt: Runtime, links: seq<Link>, i: nat, depth: nat, k: nat)
    requires k < |links| && Pass(rt, links[k]).Err?
    ensures forall e :: e in Entering(rt, links, i, depth) ==> i <= BuilderOf(e) <= i + k
    decreases |links|, |links[0].hooks|
  {
    if links[0].hooks != [] {
      var edited := links[0].hooks[0].before(links[0].fields);
      if edited.Ok? {
        var inner := [Link(links[0].hooks[1..], edited.value)] + links[1..];
        assert k > 0 ==> inner[k] == links[k];
        NoLaterBuilder(rt, inner, i, depth + 1, k);
      }
    } else if k > 0 {
      if Check(rt, Rules(), links[0].fields).None? {
        NoLaterBuilder(rt, links[1..], i + 1, 0, k - 1);
      }
    }
  }
}

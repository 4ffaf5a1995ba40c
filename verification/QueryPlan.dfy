/**
 The meaning of a query builder as a value: its settings and the tree of `with*` sub-queries.
 */
module QueryPlan {
  import opened Collections
  import opened Schema

  /** An interceptor slot: nil, one that only wraps the querier (the identity here), or a traverser that adds a predicate. */
  datatype Inter<!R> = Uninitialized | Middleware | Traverser(pred: R -> bool)

  /**
   `order` stands for ORDER BY together with whatever order the database picks: the whole table,
   rearranged. `joined` does the same for the stream of (account id, row) pairs of a join.
   A limit of 0 is no limit, as in the query spec, whose Limit field starts at 0.
   */
  datatype Settings<!R> = Settings(
    fields: seq<Column>, preds: seq<R -> bool>, order: seq<R> -> seq<R>, joined: seq<Pair> -> seq<Pair>,
    limit: Option<nat>, offset: Option<nat>, inters: seq<Inter<R>>)

  datatype AccountPlan = AccountPlan(s: Settings<AccountRow>, w: AccountWith)

  datatype AccountWith = AccountWith(
    groups: Option<Settings<LeafRow>>, proxy: Option<Settings<LeafRow>>, parent: Option<AccountPlan>,
    children: Option<AccountPlan>, usageLogs: Option<Settings<LeafRow>>, accountGroups: Option<AccountGroupPlan>)

  datatype AccountGroupPlan = AccountGroupPlan(s: Settings<AccountGroupRow>, w: AccountGroupWith)

  datatype AccountGroupWith = AccountGroupWith(account: Option<AccountPlan>, group: Option<Settings<LeafRow>>)

  // ----- the predicates the loaders add

  function AccountIdIn(ids: seq<int>): AccountRow -> bool { (r: AccountRow) => r.id in ids }
  function ParentIdIn(ids: seq<int>): AccountRow -> bool { (r: AccountRow) => r.parentId.Some? && r.parentId.value in ids }
  function LeafIdIn(ids: seq<int>): LeafRow -> bool { (r: LeafRow) => r.id in ids }
  function OwnerIdIn(ids: seq<int>): LeafRow -> bool { (r: LeafRow) => r.accountId in ids }
  function MemberIdIn(ids: seq<int>): AccountGroupRow -> bool { (r: AccountGroupRow) => r.accountId in ids }

  function Constrain<R>(s: Settings<R>, p: R -> bool): Settings<R> {
    s.(preds := s.preds + [p])
  }

  // ----- preparing and fetching

  function Traversals<R>(inters: seq<Inter<R>>): seq<R -> bool> {
    if inters == [] then []
    else
      var n := |inters| - 1;
      Traversals(inters[..n]) + (if inters[n].Traverser? then [inters[n].pred] else [])
  }

  /** What prepareQuery leaves behind: every traverser has added its predicate. */
  function Prepared<R>(s: Settings<R>): Settings<R> {
    s.(preds := s.preds + Traversals(s.inters))
  }

  function Page<R>(rows: seq<R>, limit: Option<nat>, offset: Option<nat>): seq<R> {
    var skip := if offset.Some? then offset.value else 0;
    var rest := if skip <= |rows| then rows[skip..] else [];
    if limit.Some? && limit.value != 0 && limit.value <= |rest| then rest[..limit.value] else rest
  }

  ghost predicate Unpaged<R>(s: Settings<R>) {
    && (s.limit.Some? ==> s.limit.value == 0)
    && (s.offset.Some? ==> s.offset.value == 0)
  }

  /** The rows one statement returns. */
  function Fetch<R>(table: seq<R>, s: Settings<R>): seq<R> {
    Page(Where(s.order(table), s.preds), s.limit, s.offset)
  }

  // ----- the columns a query spec asks for

  function AddOnce(cols: seq<Column>, c: Column): (r: seq<Column>)
    ensures c in r
    ensures forall x :: x in r <==> x in cols || x == c
  {
    if c in cols then cols else cols + [c]
  }

  /** AppendFieldOnce, applied by the one-to-many loaders only to a non-empty selection. */
  function WithField(fields: seq<Column>, c: Column): seq<Column> {
    if fields == [] then [] else AddOnce(fields, c)
  }

  function WithoutId(fields: seq<Column>): (r: seq<Column>)
    ensures forall x :: x in r <==> x in fields && x != Id
  {
    if fields == [] then []
    else
      var n := |fields| - 1;
      assert fields == fields[..n] + [fields[n]];
      WithoutId(fields[..n]) + (if fields[n] != Id then [fields[n]] else [])
  }

  function LeafColumns(fields: seq<Column>, all: seq<Column>): seq<Column> {
    if fields == [] then all else [Id] + WithoutId(fields)
  }

  function AccountColumns(fields: seq<Column>, all: seq<Column>, proxy: bool, parent: bool): seq<Column> {
    if fields == [] then all
    else
      var cols := [Id] + WithoutId(fields);
      var cols := if proxy then AddOnce(cols, ProxyId) else cols;
      if parent then AddOnce(cols, ParentAccountId) else cols
  }

  function AccountGroupColumns(fields: seq<Column>, all: seq<Column>, account: bool, group: bool): seq<Column> {
    if fields == [] then all
    else
      var cols := if account then AddOnce(fields, AccountId) else fields;
      if group then AddOnce(cols, GroupId) else cols
  }

  // ----- conditions on plans

  /** The arrangement rearranges: it neither loses nor invents rows. */
  ghost predicate Rearranges<R(!new)>(order: seq<R> -> seq<R>) {
    forall t :: multiset(order(t)) == multiset(t)
  }

  /** prepareQuery accepts these settings. */
  ghost predicate Accepted<R>(s: Settings<R>, columns: seq<Column>) {
    && (forall f :: f in s.fields ==> f in columns)
    && Uninitialized !in s.inters
  }

  /** Every builder of the tree is accepted. */
  ghost predicate WellFormed(db: Db, q: AccountPlan)
    decreases q.w, 1
  {
    Accepted(q.s, db.accounts.columns) && WellFormedWith(db, q.w)
  }

  ghost predicate WellFormedWith(db: Db, w: AccountWith)
    decreases w, 0
  {
    && (w.groups.Some? ==> Accepted(w.groups.value, db.groups.columns))
    && (w.proxy.Some? ==> Accepted(w.proxy.value, db.proxies.columns))
    && (w.parent.Some? ==> WellFormed(db, w.parent.value))
    && (w.children.Some? ==> WellFormed(db, w.children.value))
    && (w.usageLogs.Some? ==> Accepted(w.usageLogs.value, db.usageLogs.columns))
    && (w.accountGroups.Some? ==> WellFormedGroups(db, w.accountGroups.value))
  }

  ghost predicate WellFormedGroups(db: Db, q: AccountGroupPlan)
    decreases q.w, 0
  {
    && Accepted(q.s, db.accountGroups.columns)
    && (q.w.account.Some? ==> WellFormed(db, q.w.account.value))
    && (q.w.group.Some? ==> Accepted(q.w.group.value, db.groups.columns))
  }

  ghost predicate Lawful<R(!new)>(s: Settings<R>) {
    Rearranges(s.order) && Rearranges(s.joined)
  }

  /** No sub-query below the root carries a limit or an offset, and every arrangement is one. */
  ghost predicate Joinable(w: AccountWith) {
    && (w.groups.Some? ==> Unpaged(w.groups.value) && Lawful(w.groups.value))
    && (w.proxy.Some? ==> Unpaged(w.proxy.value) && Lawful(w.proxy.value))
    && (w.parent.Some? ==> Unpaged(w.parent.value.s) && Lawful(w.parent.value.s) && Joinable(w.parent.value.w))
    && (w.children.Some? ==> Unpaged(w.children.value.s) && Lawful(w.children.value.s) && Joinable(w.children.value.w))
    && (w.usageLogs.Some? ==> Unpaged(w.usageLogs.value) && Lawful(w.usageLogs.value))
    && (w.accountGroups.Some? ==>
          var g := w.accountGroups.value;
          && Unpaged(g.s) && Lawful(g.s)
          && (g.w.account.Some? ==> Unpaged(g.w.account.value.s) && Lawful(g.w.account.value.s) && Joinable(g.w.account.value.w))
          && (g.w.group.Some? ==> Unpaged(g.w.group.value) && Lawful(g.w.group.value)))
  }
}

/**
 The query methods of an account builder, end to end: what First and Only answer, and that the graph All
 returns is the join.
 */
module Queries {
  import opened Collections
  import opened Schema
  import opened QueryPlan
  import opened JoinSpec
  import opened JoinTheorem
  import opened Builders
  import opened EagerLoading
  import opened RowReading
  import opened JoinMeaning

  datatype QueryError = Failed(error: EagerLoading.Error) | NotFound | NotSingular | NotLoaded

  /**
   All: one node per row of the answer, which no predicate and no traverser of the builder refuses, holding the
   columns asked for. For every builder whose sub-queries carry no limit or offset, the graph below each node is the
   relational join unfolded along the tree of sub-queries, and that is the graph the builders describe.
   */
  method All(q: AccountQuery, db: Db) returns (r: Result<seq<Account>, QueryError>, ghost graph: set<object>)
    requires q.Valid() && db.Valid()
    ensures fresh(graph)
    ensures WellFormed(db, q.Plan()) ==> r.Ok?
    ensures !Accepted(q.Plan().s, db.accounts.columns) ==> r.Err?
    ensures r.Err? ==> r.error.Failed? && IsPrepareError(r.error.error)
    ensures r.Ok? ==> Distinct(r.value) && Forest(r.value, graph, BatchAccounts(db, q.Plan()))
    ensures r.Ok? && Lawful(q.Plan().s) && Joinable(q.Plan().w) ==>
      Forest(r.value, graph, JoinTrees(db, q.Plan().s.fields, q.Plan().w, Fetch(db.accounts.rows, Prepared(q.Plan().s))))
    ensures r.Ok? ==> AccountsRead(Rows(r.value), db, q.Plan())
    ensures r.Ok? && Lawful(q.Plan().s) && Joinable(q.Plan().w) ==> GraphShown(r.value, graph, db, q.Plan())
  {
    var plan := q.Plan();
    var found;
    found, graph := AllAccounts(db, plan);
    if found.Err? {
      return Err(Failed(found.error)), graph;
    }
    if Lawful(plan.s) && Joinable(plan.w) {
      BatchIsJoin(db, plan);
      BatchIsShown(db, plan);
    }
    return Ok(found.value), graph;
  }

  /** All, as far as First and Only look at it. */
  method AllGraphs(q: AccountQuery, db: Db) returns (r: Result<seq<Account>, QueryError>, ghost graph: set<object>)
    requires q.Valid() && db.Valid()
    ensures fresh(graph)
    ensures WellFormed(db, q.Plan()) ==> r.Ok?
    ensures r.Err? ==> r.error.Failed?
    ensures r.Ok? ==> Forest(r.value, graph, BatchAccounts(db, q.Plan()))
  {
    r, graph := All(q, db);
  }

  /** The trees of the nodes are the graphs the builders describe. */
  ghost predicate GraphShown(nodes: seq<Account>, graph: set<object>, db: Db, q: AccountPlan)
    reads Nodes(nodes), graph
  {
    exists trees :: Forest(nodes, graph, trees) && AnswerShown(trees, db, q)
  }

  /** The rows the builder selects when its own limit is disregarded. */
  ghost function Matches(db: Db, s: Settings<AccountRow>): seq<AccountRow> {
    Page(Where(s.order(db.accounts.rows), Prepared(s).preds), None, s.offset)
  }

  /** First overrides the limit for good: the builder is left with limit 1. */
  method First(q: AccountQuery, db: Db) returns (r: Result<Account, QueryError>, ghost graph: set<object>)
    requires q.Valid() && db.Valid()
    modifies q.ctx
    ensures fresh(graph)
    ensures q.Valid() && q.Plan() == old(q.Plan()).(s := old(q.Plan()).s.(limit := Some(1)))
    ensures WellFormed(db, old(q.Plan())) ==> (r == Err(NotFound) <==> Matches(db, old(q.Plan()).s) == [])
    ensures WellFormed(db, old(q.Plan())) && Matches(db, old(q.Plan()).s) != [] ==>
      r.Ok? && Rooted(r.value, graph, BatchNode(db, q.Plan().w, AccountNodes(db, q.Plan()), 0))
  {
    q.Limit(1);
    var nodes;
    nodes, graph := AllGraphs(q, db);
    if nodes.Err? {
      return Err(nodes.error), graph;
    }
    if |nodes.value| == 0 {
      return Err(NotFound), graph;
    }
    return Ok(nodes.value[0]), graph;
  }

  /**
   Only asks for two rows, whatever limit the builder had, and keeps that limit: it answers with the node
   exactly when one row matches, and tells none and several apart.
   */
  method Only(q: AccountQuery, db: Db) returns (r: Result<Account, QueryError>, ghost graph: set<object>)
    requires q.Valid() && db.Valid()
    modifies q.ctx
    ensures fresh(graph)
    ensures q.Valid() && q.Plan() == old(q.Plan()).(s := old(q.Plan()).s.(limit := Some(2)))
    ensures WellFormed(db, old(q.Plan())) ==> (r == Err(NotFound) <==> |Matches(db, old(q.Plan()).s)| == 0)
    ensures WellFormed(db, old(q.Plan())) ==> (r == Err(NotSingular) <==> |Matches(db, old(q.Plan()).s)| >= 2)
    ensures WellFormed(db, old(q.Plan())) && |Matches(db, old(q.Plan()).s)| == 1 ==>
      r.Ok? && Rooted(r.value, graph, BatchNode(db, q.Plan().w, AccountNodes(db, q.Plan()), 0))
  {
    q.Limit(2);
    var nodes;
    nodes, graph := AllGraphs(q, db);
    if nodes.Err? {
      return Err(nodes.error), graph;
    }
    match |nodes.value|
    case 1 => return Ok(nodes.value[0]), graph;
    case 0 => return Err(NotFound), graph;
    case _ => return Err(NotSingular), graph;
  }

  // ----- edge accessors

  function GroupsOrErr(n: Account): Result<seq<Leaf>, QueryError>
    reads n
  {
    if n.loaded.groups then Ok(n.groups) else Err(NotLoaded)
  }

  function ParentOrErr(n: Account): Result<Account, QueryError>
    reads n
  {
    if n.parent != null then Ok(n.parent)
    else if n.loaded.parent then Err(NotFound)
    else Err(NotLoaded)
  }

  function ChildrenOrErr(n: Account): Result<seq<Account>, QueryError>
    reads n
  {
    if n.loaded.children then Ok(n.children) else Err(NotLoaded)
  }

  function ProxyOrErr(n: Account): Result<Leaf, QueryError>
    reads n
  {
    if n.proxy != null then Ok(n.proxy)
    else if n.loaded.proxy then Err(NotFound)
    else Err(NotLoaded)
  }

  function UsageLogsOrErr(n: Account): Result<seq<Leaf>, QueryError>
    reads n
  {
    if n.loaded.usageLogs then Ok(n.usageLogs) else Err(NotLoaded)
  }

  function AccountGroupsOrErr(n: Account): Result<seq<AccountGroup>, QueryError>
    reads n
  {
    if n.loaded.accountGroups then Ok(n.accountGroups) else Err(NotLoaded)
  }

  // ----- what the accessors of a node loaded for a row answer

  /** NotLoaded exactly if the edge was not asked for; otherwise the row's join. */
  ghost predicate GroupsAnswer(n: Account, db: Db, w: AccountWith, row: AccountRow)
    reads n
  {
    if w.groups.None? then GroupsOrErr(n) == Err(NotLoaded)
    else GroupsOrErr(n).Ok? && (set g | g in GroupsOrErr(n).value :: g.row) == JoinGroups(db, w.groups.value, row.id)
  }

  /** For a single neighbour, NotFound when the join has none. */
  ghost predicate ProxyAnswer(n: Account, db: Db, w: AccountWith, row: AccountRow)
    reads n
  {
    if w.proxy.None? then ProxyOrErr(n) == Err(NotLoaded)
    else
      var proxy := JoinLeaf(db.proxies, w.proxy.value, row.proxyId);
      if proxy.None? then ProxyOrErr(n) == Err(NotFound) else ProxyOrErr(n).Ok? && ProxyOrErr(n).value.row == proxy.value
  }

  ghost predicate ParentAnswer(n: Account, graph: set<object>, db: Db, w: AccountWith, row: AccountRow)
    reads n, graph
  {
    if w.parent.None? then ParentOrErr(n) == Err(NotLoaded)
    else
      var parent := JoinAccount(db, w.parent.value, row.parentId);
      if parent.None? then ParentOrErr(n) == Err(NotFound)
      else ParentOrErr(n).Ok? && ParentOrErr(n).value in graph && Rooted(ParentOrErr(n).value, graph, parent.value)
  }

  ghost predicate ChildrenAnswer(n: Account, graph: set<object>, db: Db, w: AccountWith, row: AccountRow)
    reads n, Nodes(n.children), graph
  {
    if w.children.None? then ChildrenOrErr(n) == Err(NotLoaded)
    else ChildrenOrErr(n) == Ok(n.children) && Forest(n.children, graph, JoinChildren(db, w.children.value, row.id))
  }

  ghost predicate UsageLogsAnswer(n: Account, db: Db, w: AccountWith, row: AccountRow)
    reads n
  {
    if w.usageLogs.None? then UsageLogsOrErr(n) == Err(NotLoaded)
    else UsageLogsOrErr(n).Ok? && LeafRows(UsageLogsOrErr(n).value) == JoinUsageLogs(db, w.usageLogs.value, row.id)
  }

  ghost predicate AccountGroupsAnswer(n: Account, graph: set<object>, db: Db, w: AccountWith, row: AccountRow)
    reads n, Members(n.accountGroups), graph
  {
    if w.accountGroups.None? then AccountGroupsOrErr(n) == Err(NotLoaded)
    else AccountGroupsOrErr(n) == Ok(n.accountGroups) && MemberForest(n.accountGroups, graph, JoinMembers(db, w.accountGroups.value, row.id))
  }

  lemma LeafAnswers(n: Account, graph: set<object>, db: Db, fields: seq<Column>, w: AccountWith, row: AccountRow)
    requires Rooted(n, graph, JoinTree(db, fields, w, row))
    ensures GroupsAnswer(n, db, w, row) && ProxyAnswer(n, db, w, row) && UsageLogsAnswer(n, db, w, row)
  {
  }

  lemma ParentAnswers(n: Account, graph: set<object>, db: Db, fields: seq<Column>, w: AccountWith, row: AccountRow)
    requires Rooted(n, graph, JoinTree(db, fields, w, row))
    ensures ParentAnswer(n, graph, db, w, row)
  {
  }

  lemma ChildrenAnswers(n: Account, graph: set<object>, db: Db, fields: seq<Column>, w: AccountWith, row: AccountRow)
    requires Rooted(n, graph, JoinTree(db, fields, w, row))
    ensures ChildrenAnswer(n, graph, db, w, row)
  {
    if w.children.Some? {
      assert n.ChildTrees() == JoinChildren(db, w.children.value, row.id);
    }
  }

  lemma AccountGroupsAnswers(n: Account, graph: set<object>, db: Db, fields: seq<Column>, w: AccountWith, row: AccountRow)
    requires Rooted(n, graph, JoinTree(db, fields, w, row))
    ensures AccountGroupsAnswer(n, graph, db, w, row)
  {
    if w.accountGroups.Some? {
      assert n.MemberTrees() == JoinMembers(db, w.accountGroups.value, row.id);
    }
  }

  /** All six accessors of a node loaded for a row. */
  lemma AccessorsReadTheJoin(n: Account, graph: set<object>, db: Db, fields: seq<Column>, w: AccountWith, row: AccountRow)
    requires Rooted(n, graph, JoinTree(db, fields, w, row))
    ensures GroupsAnswer(n, db, w, row) && ProxyAnswer(n, db, w, row) && ParentAnswer(n, graph, db, w, row)
    ensures ChildrenAnswer(n, graph, db, w, row) && UsageLogsAnswer(n, db, w, row) && AccountGroupsAnswer(n, graph, db, w, row)
  {
    LeafAnswers(n, graph, db, fields, w, row);
    ParentAnswers(n, graph, db, fields, w, row);
    ChildrenAnswers(n, graph, db, fields, w, row);
    AccountGroupsAnswers(n, graph, db, fields, w, row);
  }
}

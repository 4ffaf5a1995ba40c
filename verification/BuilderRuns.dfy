/**
 Runs of builder calls, on a builder and on its clone. A sub-query is configured by the options passed
 to With..., before it is attached, so a run is a tree: the calls on a builder, and inside each With the
 calls on the fresh sub-query it attaches.
 */
module BuilderRuns {
  import opened Collections
  import opened Schema
  import opened QueryPlan
  import opened Builders

  /** Calls on a groups, proxy or usage-log query. */
  datatype LeafCall =
    | LeafWhere(leafPred: LeafRow -> bool)
    | LeafOrderBy(leafOrder: seq<LeafRow> -> seq<LeafRow>, joined: seq<Pair> -> seq<Pair>)
    | LeafLimit(n: nat)
    | LeafOffset(n: nat)
    | LeafSelect(fields: seq<Column>)

  /** Calls on a query of join rows. */
  datatype MemberCall =
    | MemberWhere(memberPred: AccountGroupRow -> bool)
    | MemberOrderBy(memberOrder: seq<AccountGroupRow> -> seq<AccountGroupRow>)
    | MemberLimit(n: nat)
    | MemberOffset(n: nat)
    | MemberSelect(fields: seq<Column>)
    | WithAccount(account: seq<Call>)
    | WithGroup(group: seq<LeafCall>)

  /** Calls on an account query. */
  datatype Call =
    | Where(p: AccountRow -> bool)
    | OrderBy(o: seq<AccountRow> -> seq<AccountRow>)
    | Limit(n: nat)
    | Offset(n: nat)
    | Select(fields: seq<Column>)
    | WithGroups(leaf: seq<LeafCall>)
    | WithProxy(leaf: seq<LeafCall>)
    | WithParent(opts: seq<Call>)
    | WithChildren(opts: seq<Call>)
    | WithUsageLogs(leaf: seq<LeafCall>)
    | WithAccountGroups(members: seq<MemberCall>)

  /** The interceptors the client hands every new query. */
  datatype Client = Client(accounts: seq<Inter<AccountRow>>, members: seq<Inter<AccountGroupRow>>,
                           groups: seq<Inter<LeafRow>>, proxies: seq<Inter<LeafRow>>, usageLogs: seq<Inter<LeafRow>>)

  // ----- what calls make of a plan

  ghost function LeafEffect(s: Settings<LeafRow>, call: LeafCall): Settings<LeafRow> {
    match call
    case LeafWhere(p) => Constrain(s, p)
    case LeafOrderBy(o, j) => s.(order := Then(s.order, o), joined := Then(s.joined, j))
    case LeafLimit(n) => s.(limit := Some(n))
    case LeafOffset(n) => s.(offset := Some(n))
    case LeafSelect(fields) => s.(fields := s.fields + fields)
  }

  ghost function LeafEffects(s: Settings<LeafRow>, calls: seq<LeafCall>): Settings<LeafRow>
    decreases |calls|
  {
    if calls == [] then s else LeafEffects(LeafEffect(s, calls[0]), calls[1..])
  }

  ghost function Effect(q: AccountPlan, call: Call, c: Client): AccountPlan
    decreases call, 0
  {
    match call
    case Where(p) => q.(s := Constrain(q.s, p))
    case OrderBy(o) => q.(s := q.s.(order := Then(q.s.order, o)))
    case Limit(n) => q.(s := q.s.(limit := Some(n)))
    case Offset(n) => q.(s := q.s.(offset := Some(n)))
    case Select(fields) => q.(s := q.s.(fields := q.s.fields + fields))
    case WithGroups(leaf) => q.(w := q.w.(groups := Some(LeafEffects(Initial(c.groups), leaf))))
    case WithProxy(leaf) => q.(w := q.w.(proxy := Some(LeafEffects(Initial(c.proxies), leaf))))
    case WithParent(opts) => q.(w := q.w.(parent := Some(Effects(NewPlan(c), opts, c))))
    case WithChildren(opts) => q.(w := q.w.(children := Some(Effects(NewPlan(c), opts, c))))
    case WithUsageLogs(leaf) => q.(w := q.w.(usageLogs := Some(LeafEffects(Initial(c.usageLogs), leaf))))
    case WithAccountGroups(members) => q.(w := q.w.(accountGroups := Some(MemberEffects(NewMemberPlan(c), members, c))))
  }

  ghost function Effects(q: AccountPlan, calls: seq<Call>, c: Client): AccountPlan
    decreases calls, 1
  {
    if calls == [] then q else Effects(Effect(q, calls[0], c), calls[1..], c)
  }

  ghost function MemberEffect(q: AccountGroupPlan, call: MemberCall, c: Client): AccountGroupPlan
    decreases call, 0
  {
    match call
    case MemberWhere(p) => q.(s := Constrain(q.s, p))
    case MemberOrderBy(o) => q.(s := q.s.(order := Then(q.s.order, o)))
    case MemberLimit(n) => q.(s := q.s.(limit := Some(n)))
    case MemberOffset(n) => q.(s := q.s.(offset := Some(n)))
    case MemberSelect(fields) => q.(s := q.s.(fields := q.s.fields + fields))
    case WithAccount(account) => q.(w := q.w.(account := Some(Effects(NewPlan(c), account, c))))
    case WithGroup(group) => q.(w := q.w.(group := Some(LeafEffects(Initial(c.groups), group))))
  }

  ghost function MemberEffects(q: AccountGroupPlan, calls: seq<MemberCall>, c: Client): AccountGroupPlan
    decreases calls, 1
  {
    if calls == [] then q else MemberEffects(MemberEffect(q, calls[0], c), calls[1..], c)
  }

  ghost function NewPlan(c: Client): AccountPlan {
    AccountPlan(Initial(c.accounts), AccountWith(None, None, None, None, None, None))
  }

  ghost function NewMemberPlan(c: Client): AccountGroupPlan {
    AccountGroupPlan(Initial(c.members), AccountGroupWith(None, None))
  }

  // ----- performing calls

  method NewLeaf(calls: seq<LeafCall>, inters: seq<Inter<LeafRow>>) returns (query: LeafQuery)
    ensures fresh(query) && fresh(query.ctx)
    ensures query.Plan() == LeafEffects(Initial(inters), calls)
  {
    query := new LeafQuery(inters);
    for i := 0 to |calls|
      invariant fresh(query) && fresh(query.ctx)
      invariant LeafEffects(query.Plan(), calls[i..]) == LeafEffects(Initial(inters), calls)
    {
      assert calls[i..][1..] == calls[i + 1..];
      match calls[i] {
        case LeafWhere(p) => query.Where(p);
        case LeafOrderBy(o, j) => query.OrderBy(o, j);
        case LeafLimit(n) => query.Limit(n);
        case LeafOffset(n) => query.Offset(n);
        case LeafSelect(fields) => query.Select(fields);
      }
    }
  }

  method Perform(q: AccountQuery, call: Call, c: Client)
    requires q.Valid()
    modifies q, q.ctx
    ensures q.Valid() && q.ctx == old(q.ctx) && fresh(q.Repr - old(q.Repr))
    ensures q.Plan() == Effect(old(q.Plan()), call, c)
    decreases call, 1
  {
    match call
    case Where(p) => q.Where(p);
    case OrderBy(o) => q.OrderBy(o);
    case Limit(n) => q.Limit(n);
    case Offset(n) => q.Offset(n);
    case Select(fields) => q.Select(fields);
    case WithGroups(leaf) => AttachGroups(q, leaf, c);
    case WithProxy(leaf) => AttachProxy(q, leaf, c);
    case WithParent(opts) => AttachParent(q, opts, c);
    case WithChildren(opts) => AttachChildren(q, opts, c);
    case WithUsageLogs(leaf) => AttachUsageLogs(q, leaf, c);
    case WithAccountGroups(members) => AttachAccountGroups(q, members, c);
  }

  /** The With calls: configure a fresh sub-query, then attach it. */
  method AttachGroups(q: AccountQuery, leaf: seq<LeafCall>, c: Client)
    requires q.Valid()
    modifies q
    ensures q.Valid() && q.ctx == old(q.ctx) && fresh(q.Repr - old(q.Repr))
    ensures q.Plan() == Effect(old(q.Plan()), WithGroups(leaf), c)
  {
    var query := NewLeaf(leaf, c.groups);
    q.WithGroups(query);
  }

  method AttachProxy(q: AccountQuery, leaf: seq<LeafCall>, c: Client)
    requires q.Valid()
    modifies q
    ensures q.Valid() && q.ctx == old(q.ctx) && fresh(q.Repr - old(q.Repr))
    ensures q.Plan() == Effect(old(q.Plan()), WithProxy(leaf), c)
  {
    var query := NewLeaf(leaf, c.proxies);
    q.WithProxy(query);
  }

  method AttachUsageLogs(q: AccountQuery, leaf: seq<LeafCall>, c: Client)
    requires q.Valid()
    modifies q
    ensures q.Valid() && q.ctx == old(q.ctx) && fresh(q.Repr - old(q.Repr))
    ensures q.Plan() == Effect(old(q.Plan()), WithUsageLogs(leaf), c)
  {
    var query := NewLeaf(leaf, c.usageLogs);
    q.WithUsageLogs(query);
  }

  method AttachParent(q: AccountQuery, opts: seq<Call>, c: Client)
    requires q.Valid()
    modifies q
    ensures q.Valid() && q.ctx == old(q.ctx) && fresh(q.Repr - old(q.Repr))
    ensures q.Plan() == Effect(old(q.Plan()), WithParent(opts), c)
    decreases opts, 4
  {
    var query := NewQuery(opts, c);
    q.WithParent(query);
  }

  method AttachChildren(q: AccountQuery, opts: seq<Call>, c: Client)
    requires q.Valid()
    modifies q
    ensures q.Valid() && q.ctx == old(q.ctx) && fresh(q.Repr - old(q.Repr))
    ensures q.Plan() == Effect(old(q.Plan()), WithChildren(opts), c)
    decreases opts, 4
  {
    var query := NewQuery(opts, c);
    q.WithChildren(query);
  }

  method AttachAccountGroups(q: AccountQuery, members: seq<MemberCall>, c: Client)
    requires q.Valid()
    modifies q
    ensures q.Valid() && q.ctx == old(q.ctx) && fresh(q.Repr - old(q.Repr))
    ensures q.Plan() == Effect(old(q.Plan()), WithAccountGroups(members), c)
    decreases members, 4
  {
    var query := NewMembers(members, c);
    q.WithAccountGroups(query);
  }

  method NewQuery(opts: seq<Call>, c: Client) returns (query: AccountQuery)
    ensures query.Valid() && fresh(query.Repr)
    ensures query.Plan() == Effects(NewPlan(c), opts, c)
    decreases opts, 3
  {
    query := new AccountQuery(c.accounts);
    PerformAll(query, opts, c);
  }

  method PerformAll(q: AccountQuery, calls: seq<Call>, c: Client)
    requires q.Valid()
    modifies q, q.ctx
    ensures q.Valid() && q.ctx == old(q.ctx) && fresh(q.Repr - old(q.Repr))
    ensures q.Plan() == Effects(old(q.Plan()), calls, c)
    decreases calls, 2
  {
    if calls != [] {
      Perform(q, calls[0], c);
      PerformAll(q, calls[1..], c);
    }
  }

  method PerformMember(q: AccountGroupQuery, call: MemberCall, c: Client)
    requires q.Valid()
    modifies q, q.ctx
    ensures q.Valid() && q.ctx == old(q.ctx) && fresh(q.Repr - old(q.Repr))
    ensures q.Plan() == MemberEffect(old(q.Plan()), call, c)
    decreases call, 0
  {
    match call
    case MemberWhere(p) => q.Where(p);
    case MemberOrderBy(o) => q.OrderBy(o);
    case MemberLimit(n) => q.Limit(n);
    case MemberOffset(n) => q.Offset(n);
    case MemberSelect(fields) => q.Select(fields);
    case WithAccount(account) => AttachAccount(q, account, c);
    case WithGroup(group) => AttachGroup(q, group, c);
  }

  method AttachAccount(q: AccountGroupQuery, account: seq<Call>, c: Client)
    requires q.Valid()
    modifies q
    ensures q.Valid() && q.ctx == old(q.ctx) && fresh(q.Repr - old(q.Repr))
    ensures q.Plan() == MemberEffect(old(q.Plan()), WithAccount(account), c)
    decreases account, 4
  {
    var query := NewQuery(account, c);
    q.WithAccount(query);
  }

  method AttachGroup(q: AccountGroupQuery, group: seq<LeafCall>, c: Client)
    requires q.Valid()
    modifies q
    ensures q.Valid() && q.ctx == old(q.ctx) && fresh(q.Repr - old(q.Repr))
    ensures q.Plan() == MemberEffect(old(q.Plan()), WithGroup(group), c)
  {
    var query := NewLeaf(group, c.groups);
    q.WithGroup(query);
  }

  method NewMembers(calls: seq<MemberCall>, c: Client) returns (query: AccountGroupQuery)
    ensures query.Valid() && fresh(query.Repr)
    ensures query.Plan() == MemberEffects(NewMemberPlan(c), calls, c)
    decreases calls, 3
  {
    var ctx := new QueryContext();
    query := new AccountGroupQuery.Of(ctx, [], Unordered(), Unordered(), c.members, null, null);
    PerformMembers(query, calls, c);
  }

  method PerformMembers(q: AccountGroupQuery, calls: seq<MemberCall>, c: Client)
    requires q.Valid()
    modifies q, q.ctx
    ensures q.Valid() && q.ctx == old(q.ctx) && fresh(q.Repr - old(q.Repr))
    ensures q.Plan() == MemberEffects(old(q.Plan()), calls, c)
    decreases calls, 2
  {
    if calls != [] {
      PerformMember(q, calls[0], c);
      PerformMembers(q, calls[1..], c);
    }
  }

  // ----- a builder and its clone

  /** One call on one of the two. */
  datatype Turn<C> = OnOriginal(call: C) | OnClone(call: C)

  ghost function OriginalCalls<C>(turns: seq<Turn<C>>): seq<C> {
    if turns == [] then [] else (if turns[0].OnOriginal? then [turns[0].call] else []) + OriginalCalls(turns[1..])
  }

  ghost function CloneCalls<C>(turns: seq<Turn<C>>): seq<C> {
    if turns == [] then [] else (if turns[0].OnClone? then [turns[0].call] else []) + CloneCalls(turns[1..])
  }

  lemma EffectsFirst(q: AccountPlan, call: Call, calls: seq<Call>, c: Client)
    ensures Effects(q, [call] + calls, c) == Effects(Effect(q, call, c), calls, c)
  {
    assert ([call] + calls)[1..] == calls;
  }

  lemma MemberEffectsFirst(q: AccountGroupPlan, call: MemberCall, calls: seq<MemberCall>, c: Client)
    ensures MemberEffects(q, [call] + calls, c) == MemberEffects(MemberEffect(q, call, c), calls, c)
  {
    assert ([call] + calls)[1..] == calls;
  }

  lemma FirstTurn<C>(turns: seq<Turn<C>>)
    requires turns != []
    ensures turns[0].OnOriginal? ==>
      OriginalCalls(turns) == [turns[0].call] + OriginalCalls(turns[1..]) && OriginalCalls(turns)[1..] == OriginalCalls(turns[1..])
      && CloneCalls(turns) == CloneCalls(turns[1..])
    ensures turns[0].OnClone? ==>
      CloneCalls(turns) == [turns[0].call] + CloneCalls(turns[1..]) && CloneCalls(turns)[1..] == CloneCalls(turns[1..])
      && OriginalCalls(turns) == OriginalCalls(turns[1..])
  {
  }

  /** A call on one builder does not reach another one that shares nothing with it. */
  method PerformBeside(q: AccountQuery, other: AccountQuery, call: Call, c: Client)
    requires q.Valid() && other.Valid() && q.Repr !! other.Repr
    modifies q, q.ctx
    ensures q.Valid() && other.Valid() && q.Repr !! other.Repr && q.ctx == old(q.ctx)
    ensures q.Plan() == Effect(old(q.Plan()), call, c) && other.Plan() == old(other.Plan())
  {
    Perform(q, call, c);
  }

  /** Any interleaving of calls on two builders that share nothing: each sees only its own. */
  method TakeTurns(q: AccountQuery, other: AccountQuery, turns: seq<Turn<Call>>, c: Client)
    requires q.Valid() && other.Valid() && q.Repr !! other.Repr
    modifies q, q.ctx, other, other.ctx
    ensures q.Valid() && other.Valid() && q.Repr !! other.Repr
    ensures q.Plan() == Effects(old(q.Plan()), OriginalCalls(turns), c)
    ensures other.Plan() == Effects(old(other.Plan()), CloneCalls(turns), c)
    decreases turns
  {
    if turns != [] {
      FirstTurn(turns);
      match turns[0] {
        case OnOriginal(call) =>
          EffectsFirst(q.Plan(), call, OriginalCalls(turns[1..]), c);
          PerformBeside(q, other, call, c);
        case OnClone(call) =>
          EffectsFirst(other.Plan(), call, CloneCalls(turns[1..]), c);
          PerformBeside(other, q, call, c);
      }
      TakeTurns(q, other, turns[1..], c);
    }
  }

  method PerformMemberBeside(q: AccountGroupQuery, other: AccountGroupQuery, call: MemberCall, c: Client)
    requires q.Valid() && other.Valid() && q.Repr !! other.Repr
    modifies q, q.ctx
    ensures q.Valid() && other.Valid() && q.Repr !! other.Repr && q.ctx == old(q.ctx)
    ensures q.Plan() == MemberEffect(old(q.Plan()), call, c) && other.Plan() == old(other.Plan())
  {
    PerformMember(q, call, c);
  }

  method TakeMemberTurns(q: AccountGroupQuery, other: AccountGroupQuery, turns: seq<Turn<MemberCall>>, c: Client)
    requires q.Valid() && other.Valid() && q.Repr !! other.Repr
    modifies q, q.ctx, other, other.ctx
    ensures q.Valid() && other.Valid() && q.Repr !! other.Repr
    ensures q.Plan() == MemberEffects(old(q.Plan()), OriginalCalls(turns), c)
    ensures other.Plan() == MemberEffects(old(other.Plan()), CloneCalls(turns), c)
    decreases turns
  {
    if turns != [] {
      FirstTurn(turns);
      match turns[0] {
        case OnOriginal(call) =>
          MemberEffectsFirst(q.Plan(), call, OriginalCalls(turns[1..]), c);
          PerformMemberBeside(q, other, call, c);
        case OnClone(call) =>
          MemberEffectsFirst(other.Plan(), call, CloneCalls(turns[1..]), c);
          PerformMemberBeside(other, q, call, c);
      }
      TakeMemberTurns(q, other, turns[1..], c);
    }
  }

  /**
   Clone, then any interleaving of builder calls on the two: each ends up meaning what it would have meant
   had the other never been touched.
   */
  method Diverge(q: AccountQuery, turns: seq<Turn<Call>>, c: Client) returns (clone: AccountQuery)
    requires q.Valid()
    modifies q, q.ctx
    ensures q.Valid() && clone.Valid() && q.Repr !! clone.Repr
    ensures q.Plan() == Effects(old(q.Plan()), OriginalCalls(turns), c)
    ensures clone.Plan() == Effects(old(q.Plan()), CloneCalls(turns), c)
  {
    clone := AccountQuery.Clone(q);
    TakeTurns(q, clone, turns, c);
  }

  /** The same for a query of join rows. */
  method DivergeMembers(q: AccountGroupQuery, turns: seq<Turn<MemberCall>>, c: Client) returns (clone: AccountGroupQuery)
    requires q.Valid()
    modifies q, q.ctx
    ensures q.Valid() && clone.Valid() && q.Repr !! clone.Repr
    ensures q.Plan() == MemberEffects(old(q.Plan()), OriginalCalls(turns), c)
    ensures clone.Plan() == MemberEffects(old(q.Plan()), CloneCalls(turns), c)
  {
    clone := AccountGroupQuery.Clone(q);
    TakeMemberTurns(q, clone, turns, c);
  }
}

/**
 The query builders as mutable objects: a context object of their own, predicates, arrangement and
 interceptors, and a tree of `with*` sub-queries. Plan() is what a builder means (module QueryPlan).
 */
module Builders {
  import opened Collections
  import opened Schema
  import opened QueryPlan

  function Unordered<R>(): seq<R> -> seq<R> { (t: seq<R>) => t }

  /** Appending a sort key: the earlier keys are applied last, hence dominate. */
  function Then<R>(first: seq<R> -> seq<R>, next: seq<R> -> seq<R>): seq<R> -> seq<R> {
    (t: seq<R>) => first(next(t))
  }

  /** The settings of a builder straight from the client. */
  function Initial<R>(inters: seq<Inter<R>>): Settings<R> {
    Settings([], [], Unordered(), Unordered(), None, None, inters)
  }

  class QueryContext {
    var fields: seq<Column>
    var limit: Option<nat>
    var offset: Option<nat>

    constructor ()
      ensures fields == [] && limit == None && offset == None
    {
      fields, limit, offset := [], None, None;
    }

    method Clone() returns (c: QueryContext)
      ensures fresh(c) && c.fields == fields && c.limit == limit && c.offset == offset
    {
      c := new QueryContext();
      c.fields, c.limit, c.offset := fields, limit, offset;
    }
  }

  // ----- queries without modelled sub-queries: groups, proxies, usage logs

  class LeafQuery {
    var ctx: QueryContext
    var predicates: seq<LeafRow -> bool>
    var order: seq<LeafRow> -> seq<LeafRow>
    var joined: seq<Pair> -> seq<Pair>
    var inters: seq<Inter<LeafRow>>

    constructor (inters: seq<Inter<LeafRow>>)
      ensures fresh(ctx)
      ensures Plan() == Initial(inters)
    {
      ctx := new QueryContext();
      predicates, order, joined, this.inters := [], Unordered(), Unordered(), inters;
    }

    ghost function Repr(): set<object>
      reads this
    {
      {this, ctx}
    }

    function Plan(): Settings<LeafRow>
      reads this, ctx
    {
      Settings(ctx.fields, predicates, order, joined, ctx.limit, ctx.offset, inters)
    }

    method Where(p: LeafRow -> bool)
      modifies this`predicates
      ensures Plan() == Constrain(old(Plan()), p)
    {
      predicates := predicates + [p];
    }

    /** A sort key arranges the rows of the query and of its join. */
    method OrderBy(o: seq<LeafRow> -> seq<LeafRow>, j: seq<Pair> -> seq<Pair>)
      modifies this`order, this`joined
      ensures Plan() == old(Plan()).(order := Then(old(order), o), joined := Then(old(joined), j))
    {
      order, joined := Then(order, o), Then(joined, j);
    }

    method Limit(n: nat)
      modifies ctx`limit
      ensures Plan() == old(Plan()).(limit := Some(n))
    {
      ctx.limit := Some(n);
    }

    method Offset(n: nat)
      modifies ctx`offset
      ensures Plan() == old(Plan()).(offset := Some(n))
    {
      ctx.offset := Some(n);
    }

    method Select(fields: seq<Column>)
      modifies ctx`fields
      ensures Plan() == old(Plan()).(fields := old(ctx.fields) + fields)
    {
      ctx.fields := ctx.fields + fields;
    }

    static method Clone(q: LeafQuery?) returns (c: LeafQuery?)
      ensures (c == null) == (q == null)
      ensures c != null ==> fresh(c.Repr()) && c.Plan() == q.Plan()
    {
      if q == null {
        return null;
      }
      c := new LeafQuery(q.inters);
      c.ctx := q.ctx.Clone();
      c.predicates, c.order, c.joined := q.predicates, q.order, q.joined;
    }
  }

  ghost function LeafRepr(q: LeafQuery?): set<object>
    reads q
  {
    if q == null then {} else q.Repr()
  }

  function LeafPlan(q: LeafQuery?): Option<Settings<LeafRow>>
    reads q, if q == null then {} else {q.ctx}
  {
    if q == null then None else Some(q.Plan())
  }

  // ----- account_groups queries

  class AccountGroupQuery {
    var ctx: QueryContext
    var predicates: seq<AccountGroupRow -> bool>
    var order: seq<AccountGroupRow> -> seq<AccountGroupRow>
    var joined: seq<Pair> -> seq<Pair>
    var inters: seq<Inter<AccountGroupRow>>
    var withAccount: AccountQuery?
    var withGroup: LeafQuery?
    ghost var Repr: set<object>

    constructor Of(ctx: QueryContext, predicates: seq<AccountGroupRow -> bool>, order: seq<AccountGroupRow> -> seq<AccountGroupRow>,
                   joined: seq<Pair> -> seq<Pair>, inters: seq<Inter<AccountGroupRow>>,
                   withAccount: AccountQuery?, withGroup: LeafQuery?)
      requires withAccount != null ==> withAccount.Valid() && ctx !in withAccount.Repr
      requires withGroup != null ==> ctx != withGroup.ctx
      ensures Valid() && fresh(Repr - {ctx} - AccountRepr(withAccount) - LeafRepr(withGroup))
      ensures Plan() == AccountGroupPlan(Settings(ctx.fields, predicates, order, joined, ctx.limit, ctx.offset, inters),
                                         AccountGroupWith(if withAccount == null then None else Some(withAccount.Plan()), LeafPlan(withGroup)))
    {
      this.ctx, this.predicates, this.order, this.joined, this.inters := ctx, predicates, order, joined, inters;
      this.withAccount, this.withGroup := withAccount, withGroup;
      Repr := {this, ctx} + AccountRepr(withAccount) + LeafRepr(withGroup);
    }

    ghost predicate Valid()
      reads this, Repr
      decreases Repr
    {
      && this in Repr && ctx in Repr
      && (withAccount != null ==> withAccount in Repr && Owns(withAccount.Repr) && withAccount.Valid())
      && (withGroup != null ==> withGroup in Repr && Owns(withGroup.Repr()))
    }

    /** The part belongs to this builder, and this builder's own two objects are not inside it. */
    ghost predicate Owns(part: set<object>)
      reads this
    {
      part <= Repr && this !in part && ctx !in part
    }

    function Plan(): AccountGroupPlan
      requires Valid()
      reads this, Repr
      decreases Repr, 1
    {
      AccountGroupPlan(Settings(ctx.fields, predicates, order, joined, ctx.limit, ctx.offset, inters),
                       AccountGroupWith(if withAccount == null then None else Some(withAccount.Plan()), LeafPlan(withGroup)))
    }

    function With(): AccountGroupWith
      requires Valid()
      reads this, Repr
    {
      Plan().w
    }

    method Where(p: AccountGroupRow -> bool)
      requires Valid()
      modifies this`predicates
      ensures Valid() && Plan() == old(Plan()).(s := Constrain(old(Plan()).s, p))
    {
      predicates := predicates + [p];
    }

    method OrderBy(o: seq<AccountGroupRow> -> seq<AccountGroupRow>)
      requires Valid()
      modifies this`order
      ensures Valid() && Plan() == old(Plan()).(s := old(Plan()).s.(order := Then(old(order), o)))
    {
      order := Then(order, o);
    }

    method Limit(n: nat)
      requires Valid()
      modifies ctx`limit
      ensures Valid() && Plan() == old(Plan()).(s := old(Plan()).s.(limit := Some(n)))
    {
      ctx.limit := Some(n);
    }

    method Offset(n: nat)
      requires Valid()
      modifies ctx`offset
      ensures Valid() && Plan() == old(Plan()).(s := old(Plan()).s.(offset := Some(n)))
    {
      ctx.offset := Some(n);
    }

    method Select(fields: seq<Column>)
      requires Valid()
      modifies ctx`fields
      ensures Valid() && Plan() == old(Plan()).(s := old(Plan()).s.(fields := old(ctx.fields) + fields))
    {
      ctx.fields := ctx.fields + fields;
    }

    method WithAccount(query: AccountQuery)
      requires Valid() && query.Valid() && this !in query.Repr && ctx !in query.Repr
      modifies this`withAccount, this`Repr
      ensures Valid() && Repr == old(Repr) + query.Repr
      ensures Plan() == old(Plan()).(w := old(With()).(account := Some(query.Plan())))
    {
      withAccount := query;
      Repr := Repr + query.Repr;
    }

    method WithGroup(query: LeafQuery)
      requires Valid() && ctx !in query.Repr()
      modifies this`withGroup, this`Repr
      ensures Valid() && Repr == old(Repr) + query.Repr()
      ensures Plan() == old(Plan()).(w := old(With()).(group := Some(query.Plan())))
    {
      withGroup := query;
      Repr := Repr + query.Repr();
    }

    static method Clone(q: AccountGroupQuery?) returns (c: AccountGroupQuery?)
      requires q != null ==> q.Valid()
      ensures (c == null) == (q == null)
      ensures c != null ==> c.Valid() && fresh(c.Repr) && c.Plan() == old(q.Plan())
      decreases AccountGroupRepr(q), 1
    {
      if q == null {
        return null;
      }
      var account := AccountQuery.Clone(q.withAccount);
      var group := LeafQuery.Clone(q.withGroup);
      var ctx := q.ctx.Clone();
      c := new AccountGroupQuery.Of(ctx, q.predicates, q.order, q.joined, q.inters, account, group);
    }
  }

  // ----- account queries

  ghost function AccountRepr(q: AccountQuery?): set<object>
    reads q
  {
    if q == null then {} else q.Repr
  }

  ghost function AccountGroupRepr(q: AccountGroupQuery?): set<object>
    reads q
  {
    if q == null then {} else q.Repr
  }

  function AccountPlanOf(q: AccountQuery?): Option<AccountPlan>
    requires q != null ==> q.Valid()
    reads if q == null then {} else {q} + q.Repr
    decreases AccountRepr(q), 2
  {
    if q == null then None else Some(q.Plan())
  }

  function AccountGroupPlanOf(q: AccountGroupQuery?): Option<AccountGroupPlan>
    requires q != null ==> q.Valid()
    reads if q == null then {} else {q} + q.Repr
    decreases AccountGroupRepr(q), 2
  {
    if q == null then None else Some(q.Plan())
  }

  class AccountQuery {
    var ctx: QueryContext
    var predicates: seq<AccountRow -> bool>
    var order: seq<AccountRow> -> seq<AccountRow>
    var joined: seq<Pair> -> seq<Pair>
    var inters: seq<Inter<AccountRow>>
    var withGroups: LeafQuery?
    var withProxy: LeafQuery?
    var withParent: AccountQuery?
    var withChildren: AccountQuery?
    var withUsageLogs: LeafQuery?
    var withAccountGroups: AccountGroupQuery?
    ghost var Repr: set<object>

    constructor (inters: seq<Inter<AccountRow>>)
      ensures Valid() && fresh(Repr)
      ensures Plan() == AccountPlan(Initial(inters), AccountWith(None, None, None, None, None, None))
    {
      ctx := new QueryContext();
      predicates, order, joined, this.inters := [], Unordered(), Unordered(), inters;
      withGroups, withProxy, withParent, withChildren, withUsageLogs, withAccountGroups := null, null, null, null, null, null;
      Repr := {this, ctx};
      new;
      assert With() == AccountWith(None, None, None, None, None, None);
    }

    constructor Of(ctx: QueryContext, predicates: seq<AccountRow -> bool>, order: seq<AccountRow> -> seq<AccountRow>,
                   joined: seq<Pair> -> seq<Pair>, inters: seq<Inter<AccountRow>>,
                   withGroups: LeafQuery?, withProxy: LeafQuery?, withParent: AccountQuery?, withChildren: AccountQuery?,
                   withUsageLogs: LeafQuery?, withAccountGroups: AccountGroupQuery?,
                   ghost leaves: set<object>, ghost trees: set<object>, ghost w: AccountWith)
      requires withParent != null ==> withParent.Valid()
      requires withChildren != null ==> withChildren.Valid()
      requires withAccountGroups != null ==> withAccountGroups.Valid()
      requires leaves == LeafRepr(withGroups) + LeafRepr(withProxy) + LeafRepr(withUsageLogs)
      requires trees == AccountRepr(withParent) + AccountRepr(withChildren) + AccountGroupRepr(withAccountGroups)
      requires ctx !in leaves && ctx !in trees
      requires w.groups == LeafPlan(withGroups) && w.proxy == LeafPlan(withProxy) && w.usageLogs == LeafPlan(withUsageLogs)
      requires w.parent == AccountPlanOf(withParent) && w.children == AccountPlanOf(withChildren)
      requires w.accountGroups == AccountGroupPlanOf(withAccountGroups)
      ensures Valid() && Repr == {this, ctx} + leaves + trees
      ensures Plan() == AccountPlan(Settings(ctx.fields, predicates, order, joined, ctx.limit, ctx.offset, inters), w)
    {
      this.ctx, this.predicates, this.order, this.joined, this.inters := ctx, predicates, order, joined, inters;
      this.withGroups, this.withProxy, this.withParent, this.withChildren := withGroups, withProxy, withParent, withChildren;
      this.withUsageLogs, this.withAccountGroups := withUsageLogs, withAccountGroups;
      Repr := {this, ctx} + leaves + trees;
    }

    /** A builder owns its context and, recursively, its sub-queries. */
    ghost predicate Valid()
      reads this, Repr
      decreases Repr
    {
      && this in Repr && ctx in Repr
      && (withGroups != null ==> withGroups in Repr && Owns(withGroups.Repr()))
      && (withProxy != null ==> withProxy in Repr && Owns(withProxy.Repr()))
      && (withUsageLogs != null ==> withUsageLogs in Repr && Owns(withUsageLogs.Repr()))
      && (withParent != null ==> withParent in Repr && Owns(withParent.Repr) && withParent.Valid())
      && (withChildren != null ==> withChildren in Repr && Owns(withChildren.Repr) && withChildren.Valid())
      && (withAccountGroups != null ==> withAccountGroups in Repr && Owns(withAccountGroups.Repr) && withAccountGroups.Valid())
    }

    /** The part belongs to this builder, and this builder's own two objects are not inside it. */
    ghost predicate Owns(part: set<object>)
      reads this
    {
      part <= Repr && this !in part && ctx !in part
    }

    function Plan(): AccountPlan
      requires Valid()
      reads this, Repr
      decreases Repr, 1
    {
      AccountPlan(Settings(ctx.fields, predicates, order, joined, ctx.limit, ctx.offset, inters), With())
    }

    function With(): AccountWith
      requires Valid()
      reads this, Repr
      decreases Repr, 0
    {
      AccountWith(LeafPlan(withGroups), LeafPlan(withProxy),
                  AccountPlanOf(withParent), AccountPlanOf(withChildren),
                  LeafPlan(withUsageLogs), AccountGroupPlanOf(withAccountGroups))
    }

    static method Clone(q: AccountQuery?) returns (c: AccountQuery?)
      requires q != null ==> q.Valid()
      ensures (c == null) == (q == null)
      ensures c != null ==> c.Valid() && fresh(c.Repr) && c.Plan() == old(q.Plan())
      decreases AccountRepr(q), 3
    {
      if q == null {
        return null;
      }
      var ctx, groups, proxy, usageLogs, leaves := q.CloneLeaves();
      c := q.CloneOnto(ctx, groups, proxy, usageLogs, leaves);
    }

    /** The second half of Clone: the account sub-queries, and the new builder itself. */
    method CloneOnto(ctx: QueryContext, groups: LeafQuery?, proxy: LeafQuery?, usageLogs: LeafQuery?, ghost leaves: set<object>)
      returns (c: AccountQuery)
      requires Valid() && ctx !in leaves
      requires leaves == LeafRepr(groups) + LeafRepr(proxy) + LeafRepr(usageLogs)
      requires ctx.fields == this.ctx.fields && ctx.limit == this.ctx.limit && ctx.offset == this.ctx.offset
      requires LeafPlan(groups) == LeafPlan(withGroups)
      requires LeafPlan(proxy) == LeafPlan(withProxy)
      requires LeafPlan(usageLogs) == LeafPlan(withUsageLogs)
      ensures c.Valid() && fresh(c.Repr - {ctx} - leaves) && c.Plan() == old(Plan())
      decreases Repr, 2
    {
      ghost var w := With();
      var parent, children, accountGroups, trees := CloneTrees();
      c := new AccountQuery.Of(ctx, predicates, order, joined, inters, groups, proxy, parent, children, usageLogs, accountGroups,
                               leaves, trees, w);
    }

    method CloneLeaves() returns (ctx: QueryContext, groups: LeafQuery?, proxy: LeafQuery?, usageLogs: LeafQuery?, ghost parts: set<object>)
      ensures fresh(ctx) && fresh(parts) && ctx !in parts
      ensures parts == LeafRepr(groups) + LeafRepr(proxy) + LeafRepr(usageLogs)
      ensures ctx.fields == this.ctx.fields && ctx.limit == this.ctx.limit && ctx.offset == this.ctx.offset
      ensures LeafPlan(groups) == LeafPlan(withGroups)
      ensures LeafPlan(proxy) == LeafPlan(withProxy)
      ensures LeafPlan(usageLogs) == LeafPlan(withUsageLogs)
    {
      groups := LeafQuery.Clone(withGroups);
      proxy := LeafQuery.Clone(withProxy);
      usageLogs := LeafQuery.Clone(withUsageLogs);
      parts := LeafRepr(groups) + LeafRepr(proxy) + LeafRepr(usageLogs);
      ctx := this.ctx.Clone();
    }

    method CloneTrees() returns (parent: AccountQuery?, children: AccountQuery?, accountGroups: AccountGroupQuery?, ghost parts: set<object>)
      requires Valid()
      ensures fresh(parts) && parts == AccountRepr(parent) + AccountRepr(children) + AccountGroupRepr(accountGroups)
      ensures parent != null ==> parent.Valid()
      ensures children != null ==> children.Valid()
      ensures accountGroups != null ==> accountGroups.Valid()
      ensures AccountPlanOf(parent) == old(AccountPlanOf(withParent))
      ensures AccountPlanOf(children) == old(AccountPlanOf(withChildren))
      ensures AccountGroupPlanOf(accountGroups) == old(AccountGroupPlanOf(withAccountGroups))
      decreases Repr, 1
    {
      parent, children, parts := CloneAccounts();
      accountGroups := AccountGroupQuery.Clone(withAccountGroups);
      parts := parts + AccountGroupRepr(accountGroups);
    }

    method CloneAccounts() returns (parent: AccountQuery?, children: AccountQuery?, ghost parts: set<object>)
      requires Valid()
      ensures fresh(parts) && parts == AccountRepr(parent) + AccountRepr(children)
      ensures parent != null ==> parent.Valid()
      ensures children != null ==> children.Valid()
      ensures AccountPlanOf(parent) == old(AccountPlanOf(withParent))
      ensures AccountPlanOf(children) == old(AccountPlanOf(withChildren))
      decreases Repr, 0
    {
      parent := Clone(withParent);
      children := Clone(withChildren);
      parts := AccountRepr(parent) + AccountRepr(children);
    }

    // ----- builder calls

    method Where(p: AccountRow -> bool)
      requires Valid()
      modifies this`predicates
      ensures Valid() && Plan() == old(Plan()).(s := Constrain(old(Plan()).s, p))
    {
      predicates := predicates + [p];
    }

    method OrderBy(o: seq<AccountRow> -> seq<AccountRow>)
      requires Valid()
      modifies this`order
      ensures Valid() && Plan() == old(Plan()).(s := old(Plan()).s.(order := Then(old(order), o)))
    {
      order := Then(order, o);
    }

    method Limit(n: nat)
      requires Valid()
      modifies ctx`limit
      ensures Valid() && Plan() == old(Plan()).(s := old(Plan()).s.(limit := Some(n)))
    {
      ctx.limit := Some(n);
    }

    method Offset(n: nat)
      requires Valid()
      modifies ctx`offset
      ensures Valid() && Plan() == old(Plan()).(s := old(Plan()).s.(offset := Some(n)))
    {
      ctx.offset := Some(n);
    }

    method Select(fields: seq<Column>)
      requires Valid()
      modifies ctx`fields
      ensures Valid() && Plan() == old(Plan()).(s := old(Plan()).s.(fields := old(ctx.fields) + fields))
    {
      ctx.fields := ctx.fields + fields;
    }

    method WithParent(query: AccountQuery)
      requires Valid() && query.Valid() && this !in query.Repr && ctx !in query.Repr
      modifies this`withParent, this`Repr
      ensures Valid() && Repr == old(Repr) + query.Repr
      ensures Plan() == old(Plan()).(w := old(With()).(parent := Some(query.Plan())))
    {
      ghost var w := With();
      withParent := query;
      Repr := Repr + query.Repr;
      assert AccountPlanOf(withChildren) == old(AccountPlanOf(withChildren));
      assert AccountGroupPlanOf(withAccountGroups) == old(AccountGroupPlanOf(withAccountGroups));
      assert AccountPlanOf(withParent) == Some(query.Plan());
      assert With() == w.(parent := Some(query.Plan()));
    }

    method WithChildren(query: AccountQuery)
      requires Valid() && query.Valid() && this !in query.Repr && ctx !in query.Repr
      modifies this`withChildren, this`Repr
      ensures Valid() && Repr == old(Repr) + query.Repr
      ensures Plan() == old(Plan()).(w := old(With()).(children := Some(query.Plan())))
    {
      ghost var w := With();
      withChildren := query;
      Repr := Repr + query.Repr;
      assert AccountPlanOf(withParent) == old(AccountPlanOf(withParent));
      assert AccountGroupPlanOf(withAccountGroups) == old(AccountGroupPlanOf(withAccountGroups));
      assert AccountPlanOf(withChildren) == Some(query.Plan());
      assert With() == w.(children := Some(query.Plan()));
    }

    method WithGroups(query: LeafQuery)
      requires Valid() && ctx !in query.Repr()
      modifies this`withGroups, this`Repr
      ensures Valid() && Repr == old(Repr) + query.Repr()
      ensures Plan() == old(Plan()).(w := old(With()).(groups := Some(query.Plan())))
    {
      ghost var w := With();
      withGroups := query;
      Repr := Repr + query.Repr();
      assert AccountPlanOf(withParent) == old(AccountPlanOf(withParent));
      assert AccountPlanOf(withChildren) == old(AccountPlanOf(withChildren));
      assert AccountGroupPlanOf(withAccountGroups) == old(AccountGroupPlanOf(withAccountGroups));
      assert LeafPlan(withProxy) == w.proxy && LeafPlan(withUsageLogs) == w.usageLogs && LeafPlan(withGroups) == Some(query.Plan());
      assert With() == w.(groups := Some(query.Plan()));
    }

    method WithProxy(query: LeafQuery)
      requires Valid() && ctx !in query.Repr()
      modifies this`withProxy, this`Repr
      ensures Valid() && Repr == old(Repr) + query.Repr()
      ensures Plan() == old(Plan()).(w := old(With()).(proxy := Some(query.Plan())))
    {
      ghost var w := With();
      withProxy := query;
      Repr := Repr + query.Repr();
      assert AccountPlanOf(withParent) == old(AccountPlanOf(withParent));
      assert AccountPlanOf(withChildren) == old(AccountPlanOf(withChildren));
      assert AccountGroupPlanOf(withAccountGroups) == old(AccountGroupPlanOf(withAccountGroups));
      assert LeafPlan(withGroups) == w.groups && LeafPlan(withUsageLogs) == w.usageLogs && LeafPlan(withProxy) == Some(query.Plan());
      assert With() == w.(proxy := Some(query.Plan()));
    }

    method WithUsageLogs(query: LeafQuery)
      requires Valid() && ctx !in query.Repr()
      modifies this`withUsageLogs, this`Repr
      ensures Valid() && Repr == old(Repr) + query.Repr()
      ensures Plan() == old(Plan()).(w := old(With()).(usageLogs := Some(query.Plan())))
    {
      ghost var w := With();
      withUsageLogs := query;
      Repr := Repr + query.Repr();
      assert AccountPlanOf(withParent) == old(AccountPlanOf(withParent));
      assert AccountPlanOf(withChildren) == old(AccountPlanOf(withChildren));
      assert AccountGroupPlanOf(withAccountGroups) == old(AccountGroupPlanOf(withAccountGroups));
      assert LeafPlan(withGroups) == w.groups && LeafPlan(withProxy) == w.proxy && LeafPlan(withUsageLogs) == Some(query.Plan());
      assert With() == w.(usageLogs := Some(query.Plan()));
    }

    method WithAccountGroups(query: AccountGroupQuery)
      requires Valid() && query.Valid() && this !in query.Repr && ctx !in query.Repr
      modifies this`withAccountGroups, this`Repr
      ensures Valid() && Repr == old(Repr) + query.Repr
      ensures Plan() == old(Plan()).(w := old(With()).(accountGroups := Some(query.Plan())))
    {
      ghost var w := With();
      withAccountGroups := query;
      Repr := Repr + query.Repr;
      assert AccountPlanOf(withParent) == old(AccountPlanOf(withParent));
      assert AccountPlanOf(withChildren) == old(AccountPlanOf(withChildren));
      assert AccountGroupPlanOf(withAccountGroups) == Some(query.Plan());
      assert With() == w.(accountGroups := Some(query.Plan()));
    }
  }
}

/**
 Tables, rows and column lists.

 Groups, proxies and usage logs appear in the model as tables without outgoing eager-loaded edges of
 their own; they share one row type. `accountId` is the owner of a usage log and 0 in the other two.
 */
module Schema {
  import opened Collections

  /** A column: the keys the edges are built on, and every other column by name. */
  datatype Column = Id | ProxyId | ParentAccountId | AccountId | GroupId | Data(name: string)

  /** The value held by a data column. Its interpretation never matters to the edges. */
  datatype Cell = Null | Int(i: int) | Float(f: real) | Bool(b: bool) | Text(s: string) | Time(t: int) | Json(doc: string)

  datatype AccountRow = AccountRow(id: int, proxyId: Option<int>, parentId: Option<int>, data: map<string, Cell>)

  datatype AccountGroupRow = AccountGroupRow(accountId: int, groupId: int, data: map<string, Cell>)

  datatype LeafRow = LeafRow(id: int, accountId: int, data: map<string, Cell>)

  /** One row of groups JOIN account_groups: the account id selected in front of the group's columns. */
  datatype Pair = Pair(owner: int, group: LeafRow)

  datatype Table<R> = Table(rows: seq<R>, columns: seq<Column>)

  /** One snapshot of the database: what every statement of one execution reads. */
  datatype Db = Db(accounts: Table<AccountRow>, accountGroups: Table<AccountGroupRow>,
                   groups: Table<LeafRow>, proxies: Table<LeafRow>, usageLogs: Table<LeafRow>) {

    /** The primary keys, and the key columns each table has. */
    ghost predicate Valid() {
      && (forall i, j :: 0 <= i < j < |accounts.rows| ==> accounts.rows[i].id != accounts.rows[j].id)
      && (forall i, j :: 0 <= i < j < |groups.rows| ==> groups.rows[i].id != groups.rows[j].id)
      && Columned()
    }

    /** Every table has the key columns its edges are built on. */
    ghost predicate Columned() {
      && Id in accounts.columns && ProxyId in accounts.columns && ParentAccountId in accounts.columns
      && AccountId in accountGroups.columns && GroupId in accountGroups.columns
      && Id in groups.columns && Id in proxies.columns
      && Id in usageLogs.columns && AccountId in usageLogs.columns
    }
  }

  // ----- the row a node is given when only some columns are scanned

  function Scanned(cols: seq<Column>, data: map<string, Cell>): map<string, Cell> {
    map name | name in data && Data(name) in cols :: data[name]
  }

  function LoadAccount(cols: seq<Column>, r: AccountRow): AccountRow {
    AccountRow(if Id in cols then r.id else 0,
               if ProxyId in cols then r.proxyId else None,
               if ParentAccountId in cols then r.parentId else None,
               Scanned(cols, r.data))
  }

  function LoadAccountGroup(cols: seq<Column>, r: AccountGroupRow): AccountGroupRow {
    AccountGroupRow(if AccountId in cols then r.accountId else 0,
                    if GroupId in cols then r.groupId else 0,
                    Scanned(cols, r.data))
  }

  function LoadLeaf(cols: seq<Column>, r: LeafRow): LeafRow {
    LeafRow(if Id in cols then r.id else 0, if AccountId in cols then r.accountId else 0, Scanned(cols, r.data))
  }

  function LoadAccounts(cols: seq<Column>, rows: seq<AccountRow>): (r: seq<AccountRow>)
    ensures |r| == |rows|
    ensures forall i :: 0 <= i < |rows| ==> r[i] == LoadAccount(cols, rows[i])
  {
    seq(|rows|, i requires 0 <= i < |rows| => LoadAccount(cols, rows[i]))
  }

  function LoadAccountGroups(cols: seq<Column>, rows: seq<AccountGroupRow>): (r: seq<AccountGroupRow>)
    ensures |r| == |rows|
    ensures forall i :: 0 <= i < |rows| ==> r[i] == LoadAccountGroup(cols, rows[i])
  {
    seq(|rows|, i requires 0 <= i < |rows| => LoadAccountGroup(cols, rows[i]))
  }

  function LoadLeaves(cols: seq<Column>, rows: seq<LeafRow>): (r: seq<LeafRow>)
    ensures |r| == |rows|
    ensures forall i :: 0 <= i < |rows| ==> r[i] == LoadLeaf(cols, rows[i])
  {
    seq(|rows|, i requires 0 <= i < |rows| => LoadLeaf(cols, rows[i]))
  }

  // ----- the key columns of a list of rows

  ghost function AccountIds(rows: seq<AccountRow>): (r: seq<int>)
    ensures |r| == |rows|
    ensures forall i :: 0 <= i < |rows| ==> r[i] == rows[i].id
  {
    seq(|rows|, i requires 0 <= i < |rows| => rows[i].id)
  }

  ghost function ProxyIds(rows: seq<AccountRow>): (r: seq<Option<int>>)
    ensures |r| == |rows|
    ensures forall i :: 0 <= i < |rows| ==> r[i] == rows[i].proxyId
  {
    seq(|rows|, i requires 0 <= i < |rows| => rows[i].proxyId)
  }

  ghost function ParentIds(rows: seq<AccountRow>): (r: seq<Option<int>>)
    ensures |r| == |rows|
    ensures forall i :: 0 <= i < |rows| ==> r[i] == rows[i].parentId
  {
    seq(|rows|, i requires 0 <= i < |rows| => rows[i].parentId)
  }

  ghost function LeafIds(rows: seq<LeafRow>): (r: seq<int>)
    ensures |r| == |rows|
    ensures forall i :: 0 <= i < |rows| ==> r[i] == rows[i].id
  {
    seq(|rows|, i requires 0 <= i < |rows| => rows[i].id)
  }

  ghost function OwnerIds(rows: seq<LeafRow>): (r: seq<int>)
    ensures |r| == |rows|
    ensures forall i :: 0 <= i < |rows| ==> r[i] == rows[i].accountId
  {
    seq(|rows|, i requires 0 <= i < |rows| => rows[i].accountId)
  }

  /** `account_id` of the join rows; never null, hence always Some. */
  ghost function MemberIds(rows: seq<AccountGroupRow>): (r: seq<int>)
    ensures |r| == |rows|
    ensures forall i :: 0 <= i < |rows| ==> r[i] == rows[i].accountId
  {
    seq(|rows|, i requires 0 <= i < |rows| => rows[i].accountId)
  }

  ghost function MemberKeys(rows: seq<AccountGroupRow>): (r: seq<Option<int>>)
    ensures |r| == |rows|
    ensures forall i :: 0 <= i < |rows| ==> r[i] == Some(rows[i].accountId)
  {
    seq(|rows|, i requires 0 <= i < |rows| => Some(rows[i].accountId))
  }

  ghost function GroupKeys(rows: seq<AccountGroupRow>): (r: seq<Option<int>>)
    ensures |r| == |rows|
    ensures forall i :: 0 <= i < |rows| ==> r[i] == Some(rows[i].groupId)
  {
    seq(|rows|, i requires 0 <= i < |rows| => Some(rows[i].groupId))
  }
}

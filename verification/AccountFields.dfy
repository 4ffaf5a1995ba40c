/**
 The columns of an account: the holders allocated for scanning a row, the assignment of the scanned values to
 the node's fields, and the spec of a new row.
 */
module AccountFields {
  import opened Collections
  import opened Schema

  /** The account columns, and anything else a modifier may select. */
  datatype Col =
    | ID | CreatedAt | UpdatedAt | DeletedAt | Name | Notes | Platform | Type | Credentials | Extra | ProxyID
    | ProxyFallbackOriginID | Concurrency | LoadFactor | Priority | RateMultiplier | Status | ErrorMessage | LastUsedAt
    | ExpiresAt | AutoPauseOnExpired | Schedulable | RateLimitedAt | RateLimitResetAt | OverloadUntil
    | TempUnschedulableUntil | TempUnschedulableReason | SessionWindowStart | SessionWindowEnd | SessionWindowStatus
    | ParentAccountID | QuotaDimension | Other(name: string)

  datatype Kind = Bytes | BoolKind | FloatKind | IntKind | StringKind | TimeKind | AnyKind

  /** A destination for one scanned value; Null until a non-null value is scanned into it. */
  datatype Holder = Holder(kind: Kind, cell: Cell)

  function KindOf(cell: Cell): Kind {
    match cell
    case Null => AnyKind
    case Int(_) => IntKind
    case Float(_) => FloatKind
    case Bool(_) => BoolKind
    case Text(_) => StringKind
    case Time(_) => TimeKind
    case Json(_) => Bytes
  }

  /** The switch of scanValues. */
  function HolderKind(c: Col): Kind {
    match c
    case Credentials | Extra => Bytes
    case AutoPauseOnExpired | Schedulable => BoolKind
    case RateMultiplier => FloatKind
    case ID | ProxyID | ProxyFallbackOriginID | Concurrency | LoadFactor | Priority | ParentAccountID => IntKind
    case Name | Notes | Platform | Type | Status | ErrorMessage | TempUnschedulableReason | SessionWindowStatus | QuotaDimension => StringKind
    case CreatedAt | UpdatedAt | DeletedAt | LastUsedAt | ExpiresAt | RateLimitedAt | RateLimitResetAt | OverloadUntil
       | TempUnschedulableUntil | SessionWindowStart | SessionWindowEnd => TimeKind
    case Other(_) => AnyKind
  }

  /** The type assertion of each case of assignValues; None in the default case. */
  function Wanted(c: Col): Option<Kind> {
    match c
    case ID => Some(IntKind)
    case CreatedAt => Some(TimeKind)
    case UpdatedAt => Some(TimeKind)
    case DeletedAt => Some(TimeKind)
    case Name => Some(StringKind)
    case Notes => Some(StringKind)
    case Platform => Some(StringKind)
    case Type => Some(StringKind)
    case Credentials => Some(Bytes)
    case Extra => Some(Bytes)
    case ProxyID => Some(IntKind)
    case ProxyFallbackOriginID => Some(IntKind)
    case Concurrency => Some(IntKind)
    case LoadFactor => Some(IntKind)
    case Priority => Some(IntKind)
    case RateMultiplier => Some(FloatKind)
    case Status => Some(StringKind)
    case ErrorMessage => Some(StringKind)
    case LastUsedAt => Some(TimeKind)
    case ExpiresAt => Some(TimeKind)
    case AutoPauseOnExpired => Some(BoolKind)
    case Schedulable => Some(BoolKind)
    case RateLimitedAt => Some(TimeKind)
    case RateLimitResetAt => Some(TimeKind)
    case OverloadUntil => Some(TimeKind)
    case TempUnschedulableUntil => Some(TimeKind)
    case TempUnschedulableReason => Some(StringKind)
    case SessionWindowStart => Some(TimeKind)
    case SessionWindowEnd => Some(TimeKind)
    case SessionWindowStatus => Some(StringKind)
    case ParentAccountID => Some(IntKind)
    case QuotaDimension => Some(StringKind)
    case Other(_) => None
  }

  /** The value of a field nothing was assigned to: nil for pointers and maps, otherwise the zero value. */
  function Zero(c: Col): Cell {
    match c
    case ID | Concurrency | Priority => Int(0)
    case CreatedAt | UpdatedAt => Time(0)
    case Name | Platform | Type | Status | QuotaDimension => Text("")
    case RateMultiplier => Float(0.0)
    case AutoPauseOnExpired | Schedulable => Bool(false)
    case _ => Null
  }

  /** The fields that are pointers or maps, and what is kept beyond the fields. */
  predicate Nullable(c: Col) {
    match c
    case DeletedAt | Notes | Credentials | Extra | ProxyID | ProxyFallbackOriginID | LoadFactor | ErrorMessage | LastUsedAt | ExpiresAt
       | RateLimitedAt | RateLimitResetAt | OverloadUntil | TempUnschedulableUntil | TempUnschedulableReason | SessionWindowStart
       | SessionWindowEnd | SessionWindowStatus | ParentAccountID | Other(_) => true
    case _ => false
  }

  /** A nullable field starts as nil, any other as the zero of the kind it is read with. */
  lemma ZeroExact(c: Col)
    ensures if Nullable(c) then Zero(c) == Null
            else Wanted(c).Some? && match Wanted(c).value
                                    case IntKind => Zero(c) == Int(0)
                                    case FloatKind => Zero(c) == Float(0.0)
                                    case BoolKind => Zero(c) == Bool(false)
                                    case StringKind => Zero(c) == Text("")
                                    case TimeKind => Zero(c) == Time(0)
                                    case _ => false
  {
  }

  /** JSON documents as stored, and as decoded into a field; decoding can fail. */
  datatype Codec = Codec(encode: string -> string, decode: string -> Option<string>)

  datatype Error = Mismatch | UnexpectedType(c: Col) | Unmarshal(c: Col)

  /** The fields assigned so far, the values selected beyond them, and the error that stopped the pass. */
  datatype Progress = Progress(fields: map<Col, Cell>, selected: map<Col, Cell>, err: Option<Error>)

  /** One case of assignValues. */
  function AssignOne(codec: Codec, p: Progress, c: Col, h: Holder): Progress {
    if Wanted(c).None? then p.(selected := p.selected[c := h.cell])
    else if h.kind != Wanted(c).value then p.(err := Some(UnexpectedType(c)))
    else if c == ID then p.(fields := p.fields[ID := if h.cell.Int? then h.cell else Int(0)])
    else if h.cell.Null? then p
    else if h.cell.Json? then
      if h.cell.doc == "" then p
      else
        var decoded := codec.decode(h.cell.doc);
        if decoded.None? then p.(err := Some(Unmarshal(c))) else p.(fields := p.fields[c := Json(decoded.value)])
    else p.(fields := p.fields[c := h.cell])
  }

  /** The columns in order, up to the first error. */
  function Assign(codec: Codec, p: Progress, columns: seq<Col>, values: seq<Holder>): Progress
    requires |columns| <= |values|
  {
    if columns == [] then p
    else
      var n := |columns| - 1;
      var before := Assign(codec, p, columns[..n], values[..n]);
      if before.err.Some? then before else AssignOne(codec, before, columns[n], values[n])
  }

  function FieldOf(fields: map<Col, Cell>, c: Col): Cell {
    if c in fields then fields[c] else Zero(c)
  }

  class AccountStruct {
    var fields: map<Col, Cell>
    var selected: map<Col, Cell>

    constructor ()
      ensures fields == map[] && selected == map[]
    {
      fields, selected := map[], map[];
    }

    /** assignValues */
    method AssignValues(codec: Codec, columns: seq<Col>, values: array<Holder>) returns (err: Option<Error>)
      modifies this
      ensures if values.Length < |columns| then err == Some(Mismatch) && fields == old(fields) && selected == old(selected)
              else Progress(fields, selected, err) == Assign(codec, Progress(old(fields), old(selected), None), columns, values[..])
    {
      if values.Length < |columns| {
        return Some(Mismatch);
      }
      ghost var start := Progress(fields, selected, None);
      for i := 0 to |columns|
        invariant Progress(fields, selected, None) == Assign(codec, start, columns[..i], values[..i])
      {
        AssignStep(codec, start, columns, values[..], i);
        assert values[..][..i] == values[..i] && values[..][..i + 1] == values[..i + 1];
        var p := AssignOne(codec, Progress(fields, selected, None), columns[i], values[i]);
        fields, selected := p.fields, p.selected;
        if p.err.Some? {
          return p.err;
        }
      }
      assert columns[..|columns|] == columns;
      AssignLength(codec, start, columns, values[..]);
      assert values[..][..|columns|] == values[..|columns|];
      return None;
    }
  }

  lemma {:induction false} AssignStep(codec: Codec, p: Progress, columns: seq<Col>, values: seq<Holder>, i: nat)
    requires i < |columns| <= |values|
    ensures Assign(codec, p, columns[..i + 1], values[..i + 1]) ==
            var before := Assign(codec, p, columns[..i], values[..i]);
            if before.err.Some? then before else AssignOne(codec, before, columns[i], values[i])
    ensures Assign(codec, p, columns[..i + 1], values[..i + 1]).err.Some? ==> Assign(codec, p, columns, values) == Assign(codec, p, columns[..i + 1], values[..i + 1])
    decreases |columns| - i
  {
    assert columns[..i + 1][..i] == columns[..i] && values[..i + 1][..i] == values[..i];
    if i + 1 < |columns| {
      AssignStep(codec, p, columns, values, i + 1);
    } else {
      assert columns[..i + 1] == columns;
      AssignLength(codec, p, columns, values);
    }
  }

  /** Further values are not looked at. */
  lemma AssignLength(codec: Codec, p: Progress, columns: seq<Col>, values: seq<Holder>)
    requires |columns| <= |values|
    ensures Assign(codec, p, columns, values[..|columns|]) == Assign(codec, p, columns, values)
  {
    if columns != [] {
      var n := |columns| - 1;
      assert values[..|columns|][..n] == values[..n];
    }
  }

  /** scanValues */
  method ScanValues(columns: seq<Col>) returns (values: array<Holder>)
    ensures fresh(values) && values.Length == |columns|
    ensures forall i :: 0 <= i < |columns| ==> values[i] == Holder(HolderKind(columns[i]), Null)
  {
    values := new Holder[|columns|](_ => Holder(AnyKind, Null));
    for i := 0 to |columns|
      invariant forall j :: 0 <= j < i ==> values[j] == Holder(HolderKind(columns[j]), Null)
    {
      values[i] := Holder(HolderKind(columns[i]), Null);
    }
  }

  // ----- what comes back

  /** A stored row: every account column holds a null or a value of the column's type, its id is set, its documents can be decoded. */
  ghost predicate Stored(codec: Codec, row: map<Col, Cell>) {
    && (forall c :: c in row && Wanted(c).Some? ==> row[c].Null? || KindOf(row[c]) == Wanted(c).value)
    && (ID in row ==> row[ID].Int?)
    && (forall c :: c in row && Wanted(c).Some? && row[c].Json? ==> row[c].doc == "" || codec.decode(row[c].doc).Some?)
  }

  /** The holders after the driver has scanned the row into them. */
  ghost function ScannedRow(row: map<Col, Cell>, columns: seq<Col>): (r: seq<Holder>)
    ensures |r| == |columns|
    ensures forall i :: 0 <= i < |r| ==> r[i] == Holder(HolderKind(columns[i]), if columns[i] in row then row[columns[i]] else Null)
  {
    seq(|columns|, i requires 0 <= i < |columns| => Holder(HolderKind(columns[i]), if columns[i] in row then row[columns[i]] else Null))
  }

  /** The field a stored value becomes; an empty document is not looked at. */
  function Loaded(codec: Codec, row: map<Col, Cell>, c: Col): Cell {
    if c !in row || row[c].Null? || row[c] == Json("") then Zero(c)
    else if row[c].Json? then (var d := codec.decode(row[c].doc); if d.Some? then Json(d.value) else Null)
    else row[c]
  }

  /** Assigning one column leaves the other fields alone. */
  lemma OtherFieldsKept(codec: Codec, p: Progress, c: Col, h: Holder)
    ensures var q := AssignOne(codec, p, c, h);
            && (forall d :: d != c ==> (d in q.fields <==> d in p.fields))
            && (forall d :: d != c ==> FieldOf(q.fields, d) == FieldOf(p.fields, d))
  {
  }

  /** One column: its holder is accepted, and the field gets the row's value. */
  lemma OneAccepted(codec: Codec, row: map<Col, Cell>, p: Progress, c: Col)
    requires Stored(codec, row) && p.err.None? && (c in p.fields ==> p.fields[c] == Loaded(codec, row, c))
    ensures var q := AssignOne(codec, p, c, Holder(HolderKind(c), if c in row then row[c] else Null));
            && q.err.None?
            && (Wanted(c).None? ==> q.fields == p.fields && q.selected == p.selected[c := if c in row then row[c] else Null])
            && (Wanted(c).Some? ==> q.selected == p.selected)
            && (Wanted(c).Some? ==> FieldOf(q.fields, c) == Loaded(codec, row, c))
            && (c in q.fields ==> q.fields[c] == Loaded(codec, row, c))
  {
    HolderWanted(c);
  }

  /** For every column list: no holder is refused, a listed column holds the row's value, every other field its zero. */
  lemma {:induction false} HoldersAccepted(codec: Codec, row: map<Col, Cell>, columns: seq<Col>)
    requires Stored(codec, row)
    ensures var p := Assign(codec, Progress(map[], map[], None), columns, ScannedRow(row, columns));
            && p.err.None?
            && (forall c :: c in p.fields ==> Wanted(c).Some? && c in columns)
            && (forall c :: c in p.selected <==> Wanted(c).None? && c in columns)
            && (forall c :: c in p.selected ==> p.selected[c] == if c in row then row[c] else Null)
            && forall c :: Wanted(c).Some? ==> FieldOf(p.fields, c) == if c in columns then Loaded(codec, row, c) else Zero(c)
  {
    if columns != [] {
      var n := |columns| - 1;
      var before := Assign(codec, Progress(map[], map[], None), columns[..n], ScannedRow(row, columns[..n]));
      HoldersAccepted(codec, row, columns[..n]);
      assert ScannedRow(row, columns)[..n] == ScannedRow(row, columns[..n]);
      assert columns == columns[..n] + [columns[n]];
      OneAccepted(codec, row, before, columns[n]);
      OtherFieldsKept(codec, before, columns[n], ScannedRow(row, columns)[n]);
    }
  }

  /** The driver's part between scanValues and assignValues: every non-null value goes into its holder. */
  method ScanRow(row: map<Col, Cell>, columns: seq<Col>, values: array<Holder>)
    requires values.Length == |columns| && forall i :: 0 <= i < |columns| ==> values[i] == Holder(HolderKind(columns[i]), Null)
    modifies values
    ensures values[..] == ScannedRow(row, columns)
  {
    for i := 0 to |columns|
      invariant forall j :: 0 <= j < i ==> values[j] == ScannedRow(row, columns)[j]
      invariant forall j :: i <= j < |columns| ==> values[j] == Holder(HolderKind(columns[j]), Null)
    {
      if columns[i] in row {
        values[i] := Holder(values[i].kind, row[columns[i]]);
      }
    }
  }

  /**
   One row of a query: holders are allocated, scanned into and assigned. A stored row is never refused, whatever the
   column list; a listed column holds the row's value, every other field its zero.
   */
  method LoadRow(codec: Codec, row: map<Col, Cell>, columns: seq<Col>) returns (node: AccountStruct, err: Option<Error>)
    ensures fresh(node)
    ensures Progress(node.fields, node.selected, err) == Assign(codec, Progress(map[], map[], None), columns, ScannedRow(row, columns))
    ensures Stored(codec, row) ==> err.None?
    ensures Stored(codec, row) ==> forall c :: Wanted(c).Some? ==> FieldOf(node.fields, c) == if c in columns then Loaded(codec, row, c) else Zero(c)
    ensures Stored(codec, row) ==> forall c :: c in node.selected <==> Wanted(c).None? && c in columns
    ensures Stored(codec, row) ==> forall c :: c in node.selected ==> node.selected[c] == if c in row then row[c] else Null
  {
    node := new AccountStruct();
    var values := ScanValues(columns);
    ScanRow(row, columns, values);
    err := node.AssignValues(codec, columns, values);
    if Stored(codec, row) {
      HoldersAccepted(codec, row, columns);
    }
  }

  lemma HolderWanted(c: Col)
    ensures Wanted(c).Some? ==> Wanted(c).value == HolderKind(c)
  {
  }

  // ----- creating a row

  /** The columns createSpec writes from the mutation's fields, in order. */
  function CreateColumns(): seq<Col> {
    EarlyColumns() + LateColumns()
  }

  function EarlyColumns(): seq<Col> {
    [CreatedAt, UpdatedAt, DeletedAt, Name, Notes, Platform, Type, Credentials, Extra, ProxyFallbackOriginID, Concurrency, LoadFactor,
     Priority, RateMultiplier]
  }

  function LateColumns(): seq<Col> {
    [Status, ErrorMessage, LastUsedAt, ExpiresAt, AutoPauseOnExpired, Schedulable, RateLimitedAt,
     RateLimitResetAt, OverloadUntil, TempUnschedulableUntil, TempUnschedulableReason, SessionWindowStart, SessionWindowEnd,
     SessionWindowStatus, QuotaDimension]
  }

  datatype FieldType = TypeTime | TypeString | TypeJSON | TypeInt64 | TypeInt | TypeFloat64 | TypeBool | TypeEnum

  /** The type createSpec names for each column. */
  function SpecType(c: Col): FieldType {
    match c
    case CreatedAt | UpdatedAt | DeletedAt | LastUsedAt | ExpiresAt | RateLimitedAt | RateLimitResetAt | OverloadUntil
       | TempUnschedulableUntil | SessionWindowStart | SessionWindowEnd => TypeTime
    case Credentials | Extra => TypeJSON
    case ProxyFallbackOriginID => TypeInt64
    case Concurrency | LoadFactor | Priority => TypeInt
    case RateMultiplier => TypeFloat64
    case AutoPauseOnExpired | Schedulable => TypeBool
    case QuotaDimension => TypeEnum
    case _ => TypeString
  }

  /** Which columns each type is named for. */
  lemma ColumnTypes(c: Col)
    requires Settable(c)
    ensures SpecType(c) == TypeEnum <==> c == QuotaDimension
    ensures SpecType(c) == TypeInt64 <==> c == ProxyFallbackOriginID
    ensures SpecType(c) == TypeFloat64 <==> c == RateMultiplier
    ensures SpecType(c) == TypeJSON <==> c == Credentials || c == Extra
    ensures SpecType(c) == TypeInt <==> c == Concurrency || c == LoadFactor || c == Priority
    ensures SpecType(c) == TypeBool <==> c == AutoPauseOnExpired || c == Schedulable
    ensures SpecType(c) == TypeString <==>
              c == Name || c == Notes || c == Platform || c == Type || c == Status || c == ErrorMessage || c == TempUnschedulableReason || c == SessionWindowStatus
  {
  }

  function TypeKind(t: FieldType): Kind {
    match t
    case TypeTime => TimeKind
    case TypeString => StringKind
    case TypeEnum => StringKind
    case TypeJSON => Bytes
    case TypeInt64 => IntKind
    case TypeInt => IntKind
    case TypeFloat64 => FloatKind
    case TypeBool => BoolKind
  }

  /** What a create mutation holds: the fields set, and the ids of the two edges that are foreign keys. */
  datatype Pending = Pending(fields: map<Col, Cell>, proxyIDs: seq<int>, parentIDs: seq<int>)

  /** The columns with a setter of their own: all but the id, the two foreign keys, and what is no column of the schema. */
  predicate Settable(c: Col) {
    !c.ID? && !c.ProxyID? && !c.ParentAccountID? && !c.Other?
  }

  /** The setters take values of their field's type, and one id per unique edge. */
  ghost predicate Typed(m: Pending) {
    && (forall c :: Settable(c) && c in m.fields ==> Wanted(c) == Some(KindOf(m.fields[c])))
    && |m.proxyIDs| <= 1 && |m.parentIDs| <= 1
  }

  /** What the mutation says of a column: the value set, the id of the edge, or nothing. */
  function Given(m: Pending, c: Col): Cell {
    match c
    case ProxyID => if m.proxyIDs == [] then Null else Int(m.proxyIDs[0])
    case ParentAccountID => if m.parentIDs == [] then Null else Int(m.parentIDs[0])
    case _ => if Settable(c) && c in m.fields then m.fields[c] else Zero(c)
  }

  /** The spec names every field the mutation holds, once, with its value and a type of its kind, and no other. */
  ghost predicate SpecGiven(fields: seq<SpecField>, m: Pending) {
    && (forall c :: Settable(c) && c in m.fields ==> exists f :: f in fields && f.c == c)
    && (forall f :: f in fields ==> Settable(f.c) && f.c in m.fields && f.cell == m.fields[f.c] && Wanted(f.c) == Some(TypeKind(f.t)))
    && (forall i, j :: 0 <= i < j < |fields| ==> fields[i].c != fields[j].c)
  }

  datatype SpecField = SpecField(c: Col, t: FieldType, cell: Cell)

  /** The edges are those that end up in a foreign key of the row. */
  datatype Spec = Spec(fields: seq<SpecField>, edges: seq<KeyEdge>)
  datatype KeyEdge = KeyEdge(c: Col, nodes: seq<int>)

  /** `if value, ok := mutation.X(); ok { _spec.SetField(...); _node.X = value }`, column by column. */
  method WriteScalars(m: Pending, columns: seq<Col>) returns (node: AccountStruct, fields: seq<SpecField>)
    ensures fresh(node) && node.fields == Set(m.fields, columns) && node.selected == map[]
    ensures fields == SpecFields(m.fields, columns)
  {
    node := new AccountStruct();
    fields := [];
    for i := 0 to |columns|
      invariant node.fields == Set(m.fields, columns[..i]) && node.selected == map[]
      invariant fields == SpecFields(m.fields, columns[..i])
    {
      var c := columns[i];
      assert columns[..i + 1][..i] == columns[..i] && columns[..i + 1] == columns[..i] + [c];
      if c in m.fields {
        fields := fields + [SpecField(c, SpecType(c), m.fields[c])];
        node.fields := node.fields[c := m.fields[c]];
      }
    }
    assert columns[..|columns|] == columns;
  }

  /** createSpec: the node that will be returned, and the spec of its row. */
  method CreateSpec(m: Pending) returns (node: AccountStruct, spec: Spec)
    ensures fresh(node) && node.fields == NodeFields(m) && node.selected == map[]
    ensures spec == Spec(SpecFields(m.fields, CreateColumns()), KeyEdges(m))
    ensures (forall c :: Known(c) ==> FieldOf(node.fields, c) == if c == ID then Int(0) else Given(m, c)) && SpecGiven(spec.fields, m)
    ensures spec.edges == (if m.proxyIDs == [] then [] else [KeyEdge(ProxyID, m.proxyIDs)])
                          + (if m.parentIDs == [] then [] else [KeyEdge(ParentAccountID, m.parentIDs)])
  {
    NodeIsGiven(m);
    SpecIsGiven(m);
    var fields;
    node, fields := WriteScalars(m, CreateColumns());
    spec := Spec(fields, []);
    if |m.proxyIDs| > 0 {
      node.fields := node.fields[ProxyID := Int(m.proxyIDs[0])];
      spec := spec.(edges := spec.edges + [KeyEdge(ProxyID, m.proxyIDs)]);
    }
    if |m.parentIDs| > 0 {
      node.fields := node.fields[ParentAccountID := Int(m.parentIDs[0])];
      spec := spec.(edges := spec.edges + [KeyEdge(ParentAccountID, m.parentIDs)]);
    }
  }

  /** The fields set among the columns. */
  ghost function Set(fields: map<Col, Cell>, columns: seq<Col>): map<Col, Cell> {
    map c | c in fields && c in columns :: fields[c]
  }

  ghost function NodeFields(m: Pending): map<Col, Cell> {
    Linked(Set(m.fields, CreateColumns()), m)
  }

  /** With the foreign keys of the two unique edges. */
  ghost function Linked(fields: map<Col, Cell>, m: Pending): map<Col, Cell> {
    var linked := if m.proxyIDs == [] then fields else fields[ProxyID := Int(m.proxyIDs[0])];
    if m.parentIDs == [] then linked else linked[ParentAccountID := Int(m.parentIDs[0])]
  }

  ghost function SpecFields(fields: map<Col, Cell>, columns: seq<Col>): seq<SpecField> {
    if columns == [] then []
    else
      var n := |columns| - 1;
      var c := columns[n];
      SpecFields(fields, columns[..n]) + if c in fields then [SpecField(c, SpecType(c), fields[c])] else []
  }

  ghost function KeyEdges(m: Pending): seq<KeyEdge> {
    (if m.proxyIDs == [] then [] else [KeyEdge(ProxyID, m.proxyIDs)])
    + (if m.parentIDs == [] then [] else [KeyEdge(ParentAccountID, m.parentIDs)])
  }

  /** The row the driver inserts: documents encoded, edges as foreign keys, columns not named null. */
  function RowOfFields(codec: Codec, fields: seq<SpecField>): map<Col, Cell> {
    if fields == [] then map[]
    else
      var n := |fields| - 1;
      RowOfFields(codec, fields[..n])[fields[n].c := if fields[n].cell.Json? then Json(codec.encode(fields[n].cell.doc)) else fields[n].cell]
  }

  function RowOfEdges(row: map<Col, Cell>, edges: seq<KeyEdge>): map<Col, Cell>
    requires forall e :: e in edges ==> e.nodes != []
    decreases |edges|
  {
    if edges == [] then row else RowOfEdges(row[edges[0].c := Int(edges[0].nodes[0])], edges[1..])
  }

  function InsertedRow(codec: Codec, spec: Spec, id: int): map<Col, Cell>
    requires forall e :: e in spec.edges ==> e.nodes != []
  {
    RowOfEdges(RowOfFields(codec, spec.fields), spec.edges)[ID := Int(id)]
  }

  lemma {:induction false} RowOfSpecFields(codec: Codec, fields: map<Col, Cell>, columns: seq<Col>)
    ensures var row := RowOfFields(codec, SpecFields(fields, columns));
            && row.Keys == Set(fields, columns).Keys
            && forall c :: c in row ==> row[c] == if fields[c].Json? then Json(codec.encode(fields[c].doc)) else fields[c]
  {
    if columns != [] {
      var n := |columns| - 1;
      RowOfSpecFields(codec, fields, columns[..n]);
      assert columns == columns[..n] + [columns[n]];
      var before, all := SpecFields(fields, columns[..n]), SpecFields(fields, columns);
      if columns[n] in fields {
        assert all[..|all| - 1] == before;
      } else {
        assert all == before;
      }
    }
  }

  /** The encoded documents of the mutation can be decoded, to whatever. */
  ghost predicate Decodable(codec: Codec, m: Pending) {
    forall c :: Settable(c) && c in m.fields && m.fields[c].Json? ==> DocDecodable(codec, m.fields[c].doc)
  }

  ghost predicate DocDecodable(codec: Codec, doc: string) {
    codec.encode(doc) == "" || codec.decode(codec.encode(doc)).Some?
  }

  /** A document survives when it is not encoded as nothing and decoding undoes encoding; other values always do. */
  ghost predicate Survives(codec: Codec, value: Cell) {
    value.Json? ==> codec.encode(value.doc) != "" && codec.decode(codec.encode(value.doc)) == Some(value.doc)
  }

  /** The columns a row is read back with: every account column but those beyond the schema. */
  ghost predicate Known(c: Col) {
    Wanted(c).Some?
  }

  /**
   A new account is read back as it was set, for any column list: every listed column of the row createSpec describes gives
   what the mutation said of it, a document exactly if it survives.
   */
  lemma RowRoundTrip(codec: Codec, m: Pending, id: int, columns: seq<Col>)
    requires Decodable(codec, m) && Typed(m)
    ensures var row := InsertedRow(codec, Spec(SpecFields(m.fields, CreateColumns()), KeyEdges(m)), id);
            var p := Assign(codec, Progress(map[], map[], None), columns, ScannedRow(row, columns));
            && p.err.None?
            && (ID in columns ==> FieldOf(p.fields, ID) == Int(id))
            && (forall c :: Known(c) && c in columns && c != ID ==> (FieldOf(p.fields, c) == Given(m, c) <==> Survives(codec, Given(m, c))))
            && (forall c :: Known(c) && c !in columns ==> FieldOf(p.fields, c) == Zero(c))
  {
    var row := InsertedRow(codec, Spec(SpecFields(m.fields, CreateColumns()), KeyEdges(m)), id);
    RowOfSpecFields(codec, m.fields, CreateColumns());
    RowIsStored(codec, m, id);
    NodeIsGiven(m);
    HoldersAccepted(codec, row, columns);
  }

  // ----- the columns createSpec goes through are those that can be set

  lemma SettableIsCreated(c: Col)
    ensures Settable(c) <==> c in CreateColumns()
  {
    if c in CreateColumns() {
      assert c in EarlyColumns() || c in LateColumns();
    } else {
      NotEarly(c);
      NotLate(c);
    }
  }

  lemma NotEarly(c: Col)
    requires c !in EarlyColumns()
    ensures c != CreatedAt && c != UpdatedAt && c != DeletedAt && c != Name && c != Notes && c != Platform && c != Type && c != Credentials
            && c != Extra && c != ProxyFallbackOriginID && c != Concurrency && c != LoadFactor && c != Priority && c != RateMultiplier
  {
    var e := EarlyColumns();
    assert e[0] in e && e[1] in e && e[2] in e && e[3] in e && e[4] in e && e[5] in e && e[6] in e;
    assert e[7] in e && e[8] in e && e[9] in e && e[10] in e && e[11] in e && e[12] in e && e[13] in e;
  }

  lemma NotLate(c: Col)
    requires c !in LateColumns()
    ensures c != Status && c != ErrorMessage && c != LastUsedAt && c != ExpiresAt && c != AutoPauseOnExpired && c != Schedulable
            && c != RateLimitedAt && c != RateLimitResetAt && c != OverloadUntil && c != TempUnschedulableUntil && c != TempUnschedulableReason
            && c != SessionWindowStart && c != SessionWindowEnd && c != SessionWindowStatus && c != QuotaDimension
  {
    var l := LateColumns();
    assert l[0] in l && l[1] in l && l[2] in l && l[3] in l && l[4] in l && l[5] in l && l[6] in l;
    assert l[7] in l && l[8] in l && l[9] in l && l[10] in l && l[11] in l && l[12] in l && l[13] in l && l[14] in l;
  }

  lemma NodeIsGiven(m: Pending)
    ensures forall c :: Known(c) && c != ID ==> FieldOf(NodeFields(m), c) == Given(m, c)
    ensures ID !in NodeFields(m)
  {
    forall c ensures Settable(c) <==> c in CreateColumns() {
      SettableIsCreated(c);
    }
  }

  lemma CreatedApart()
    ensures Distinct(CreateColumns())
  {
    assert Distinct(EarlyColumns());
    assert Distinct(LateColumns());
  }

  lemma {:induction false} SpecFieldsAre(fields: map<Col, Cell>, columns: seq<Col>)
    requires Distinct(columns)
    ensures var written := SpecFields(fields, columns);
            && (forall c :: c in columns && c in fields ==> exists f :: f in written && f.c == c)
            && (forall f :: f in written ==> f.c in columns && f.c in fields && f.t == SpecType(f.c) && f.cell == fields[f.c])
            && (forall i, j :: 0 <= i < j < |written| ==> written[i].c != written[j].c)
  {
    if columns != [] {
      var n := |columns| - 1;
      SpecFieldsAre(fields, columns[..n]);
      assert columns == columns[..n] + [columns[n]];
      var before, all := SpecFields(fields, columns[..n]), SpecFields(fields, columns);
      forall f | f in before ensures f in all && f.c != columns[n] {
        assert f.c in columns[..n];
      }
      if columns[n] in fields {
        assert all[|all| - 1].c == columns[n] && all[|all| - 1] in all;
      }
    }
  }

  lemma SpecIsGiven(m: Pending)
    ensures SpecGiven(SpecFields(m.fields, CreateColumns()), m)
  {
    CreatedApart();
    SpecFieldsAre(m.fields, CreateColumns());
    forall c ensures (Settable(c) <==> c in CreateColumns()) && (c in CreateColumns() ==> Wanted(c) == Some(TypeKind(SpecType(c)))) {
      SettableIsCreated(c);
      if c in CreateColumns() {
        CreatedAsWanted(c);
      }
    }
  }

  /** Every column is written with the type it is read with. */
  lemma CreatedAsWanted(c: Col)
    requires c in CreateColumns()
    ensures Wanted(c) == Some(TypeKind(SpecType(c)))
  {
    if c in EarlyColumns() {
      EarlyAsWanted(c);
    } else {
      LateAsWanted(c);
    }
  }

  lemma EarlyAsWanted(c: Col)
    requires c in EarlyColumns()
    ensures Wanted(c) == Some(TypeKind(SpecType(c)))
  {
  }

  lemma LateAsWanted(c: Col)
    requires c in LateColumns()
    ensures Wanted(c) == Some(TypeKind(SpecType(c)))
  {
  }

  /** No column of the schema is read as a value of any type. */
  lemma NotAny(c: Col)
    ensures Wanted(c) != Some(AnyKind)
  {
  }

  lemma RowWithKeys(m: Pending, row: map<Col, Cell>)
    requires |m.proxyIDs| <= 1 && |m.parentIDs| <= 1
    ensures RowOfEdges(row, KeyEdges(m)) == Linked(row, m)
  {
    var p, q, none: seq<KeyEdge> := KeyEdge(ProxyID, m.proxyIDs), KeyEdge(ParentAccountID, m.parentIDs), [];
    assert [p, q][1..] == [q] && [p][1..] == none && [q][1..] == none;
    if m.parentIDs == [] {
      assert KeyEdges(m) == if m.proxyIDs == [] then none else [p];
    } else {
      assert KeyEdges(m) == if m.proxyIDs == [] then [q] else [p, q];
      var linked := if m.proxyIDs == [] then row else row[ProxyID := Int(m.proxyIDs[0])];
      assert RowOfEdges(linked, [q]) == linked[ParentAccountID := Int(m.parentIDs[0])] by {
        assert RowOfEdges(linked[ParentAccountID := Int(m.parentIDs[0])], none) == linked[ParentAccountID := Int(m.parentIDs[0])];
      }
    }
  }

  /** The stored row, for any list of scalar columns written as they are read. */
  lemma ColumnsStored(codec: Codec, m: Pending, id: int, columns: seq<Col>)
    requires forall c :: c in columns && c in m.fields ==> Wanted(c) == Some(KindOf(m.fields[c])) && !m.fields[c].Null?
    requires forall c :: c in columns && c in m.fields && m.fields[c].Json? ==> DocDecodable(codec, m.fields[c].doc)
    ensures var row, node := Linked(RowOfFields(codec, SpecFields(m.fields, columns)), m)[ID := Int(id)], Linked(Set(m.fields, columns), m)[ID := Int(id)];
            Stored(codec, row) && forall c :: Known(c) ==> (Loaded(codec, row, c) == FieldOf(node, c) <==> Survives(codec, FieldOf(node, c)))
  {
    var scalars := RowOfFields(codec, SpecFields(m.fields, columns));
    var row, node := Linked(scalars, m)[ID := Int(id)], Linked(Set(m.fields, columns), m)[ID := Int(id)];
    RowOfSpecFields(codec, m.fields, columns);
    forall c
      ensures c in row <==> c in node
      ensures c in row && Known(c) ==> row[c] == StoredForm(codec, node[c]) && Some(KindOf(row[c])) == Wanted(c) && !node[c].Null?
      ensures c in row && Known(c) && node[c].Json? ==> DocDecodable(codec, node[c].doc)
    {
      ColumnStored(codec, m, id, Set(m.fields, columns), scalars, c);
    }
  }

  lemma RowIsStored(codec: Codec, m: Pending, id: int)
    requires Decodable(codec, m) && Typed(m)
    ensures var row := InsertedRow(codec, Spec(SpecFields(m.fields, CreateColumns()), KeyEdges(m)), id);
            var node := NodeFields(m)[ID := Int(id)];
            Stored(codec, row) && forall c :: Known(c) ==> (Loaded(codec, row, c) == FieldOf(node, c) <==> Survives(codec, FieldOf(node, c)))
  {
    var columns := CreateColumns();
    forall c | c in columns && c in m.fields
      ensures Wanted(c) == Some(KindOf(m.fields[c])) && !m.fields[c].Null? && (m.fields[c].Json? ==> DocDecodable(codec, m.fields[c].doc))
    {
      SettableIsCreated(c);
      NotAny(c);
    }
    RowWithKeys(m, RowOfFields(codec, SpecFields(m.fields, columns)));
    ColumnsStored(codec, m, id, columns);
  }

  lemma ColumnStored(codec: Codec, m: Pending, id: int, fields: map<Col, Cell>, scalars: map<Col, Cell>, c: Col)
    requires scalars.Keys == fields.Keys
    requires c in fields ==> Wanted(c) == Some(KindOf(fields[c])) && !fields[c].Null?
    requires c in fields ==> scalars[c] == StoredForm(codec, fields[c]) && (fields[c].Json? ==> DocDecodable(codec, fields[c].doc))
    ensures var row, node := Linked(scalars, m)[ID := Int(id)], Linked(fields, m)[ID := Int(id)];
            && (c in row <==> c in node)
            && (c in row && Known(c) ==> row[c] == StoredForm(codec, node[c]) && Some(KindOf(row[c])) == Wanted(c) && !node[c].Null?)
            && (c in row && Known(c) && node[c].Json? ==> DocDecodable(codec, node[c].doc))
  {
  }

  /** The stored form of a field's value. */
  function StoredForm(codec: Codec, value: Cell): Cell {
    if value.Json? then Json(codec.encode(value.doc)) else value
  }
}

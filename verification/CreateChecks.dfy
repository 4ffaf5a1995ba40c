/**
 Defaults and checks of a new account: the values unset fields get before it is saved, and the rules its fields
 must keep.
 */
module CreateChecks {
  import opened Collections
  import opened Schema

  type Fields = map<string, Cell>

  datatype Error =
    | MissingField(name: string)
    | InvalidField(name: string)
    | Rejected(code: nat)
    | ConstraintError(code: nat)
    | DriverError(code: nat)

  // ----- defaults and checks

  /** What the runtime package installs: default values (None while uninitialized) and field validators. */
  datatype Runtime = Runtime(createdAt: Option<Cell>, updatedAt: Option<Cell>, credentials: Option<Cell>, extra: Option<Cell>,
                             concurrency: Cell, priority: Cell, rateMultiplier: Cell, status: Cell, autoPause: Cell, schedulable: Cell,
                             validator: (string, Cell) -> bool)

  datatype Default = Default(name: string, value: Option<Cell>)

  function Defaults(rt: Runtime): seq<Default> {
    [Default("created_at", rt.createdAt), Default("updated_at", rt.updatedAt),
     Default("credentials", rt.credentials), Default("extra", rt.extra),
     Default("concurrency", Some(rt.concurrency)), Default("priority", Some(rt.priority)),
     Default("rate_multiplier", Some(rt.rateMultiplier)), Default("status", Some(rt.status)),
     Default("auto_pause_on_expired", Some(rt.autoPause)), Default("schedulable", Some(rt.schedulable)),
     Default("quota_dimension", Some(Text("global")))]
  }

  /** Unset fields get their default, in order; an uninitialized default stops the pass. */
  function Defaulted(defaults: seq<Default>, fields: Fields): Fields {
    if defaults == [] then fields
    else if defaults[0].name in fields then Defaulted(defaults[1..], fields)
    else if defaults[0].value.None? then fields
    else Defaulted(defaults[1..], fields[defaults[0].name := defaults[0].value.value])
  }

  datatype Rule = Required(name: string) | Validated(name: string)

  function Rules(): seq<Rule> {
    [Required("created_at"), Required("updated_at"),
     Required("name"), Validated("name"), Required("platform"), Validated("platform"), Required("type"), Validated("type"),
     Required("credentials"), Required("extra"), Required("concurrency"), Required("priority"), Required("rate_multiplier"),
     Required("status"), Validated("status"), Required("auto_pause_on_expired"), Required("schedulable"),
     Validated("session_window_status"), Required("quota_dimension"), Validated("quota_dimension")]
  }

  predicate Holds(rt: Runtime, rule: Rule, fields: Fields) {
    match rule
    case Required(name) => name in fields
    case Validated(name) => name in fields ==> rt.validator(name, fields[name])
  }

  function Violation(rule: Rule): Error {
    match rule
    case Required(name) => MissingField(name)
    case Validated(name) => InvalidField(name)
  }

  /** The first rule that fails, in order. */
  function Check(rt: Runtime, rules: seq<Rule>, fields: Fields): Option<Error> {
    if rules == [] then None
    else if !Holds(rt, rules[0], fields) then Some(Violation(rules[0]))
    else Check(rt, rules[1..], fields)
  }

  lemma {:induction false} CheckExact(rt: Runtime, rules: seq<Rule>, fields: Fields)
    ensures Check(rt, rules, fields).None? <==> forall i :: 0 <= i < |rules| ==> Holds(rt, rules[i], fields)
    ensures Check(rt, rules, fields).Some? ==>
      exists i :: 0 <= i < |rules| && Check(rt, rules, fields).value == Violation(rules[i]) && !Holds(rt, rules[i], fields)
        && forall j :: 0 <= j < i ==> Holds(rt, rules[j], fields)
  {
    if rules != [] && Holds(rt, rules[0], fields) {
      CheckExact(rt, rules[1..], fields);
      assert forall i :: 0 < i < |rules| ==> rules[i] == rules[1..][i - 1];
      if Check(rt, rules[1..], fields).Some? {
        var i :| 0 <= i < |rules[1..]| && Check(rt, rules[1..], fields).value == Violation(rules[1..][i]) && !Holds(rt, rules[1..][i], fields)
          && forall j :: 0 <= j < i ==> Holds(rt, rules[1..][j], fields);
        assert rules[i + 1] == rules[1..][i];
      }
    }
  }

  /** Defaults never touch a field that is set. */
  lemma {:induction false} DefaultedKeeps(defaults: seq<Default>, fields: Fields, name: string)
    requires name in fields
    ensures name in Defaulted(defaults, fields) && Defaulted(defaults, fields)[name] == fields[name]
  {
    if defaults != [] {
      if defaults[0].name in fields {
        DefaultedKeeps(defaults[1..], fields, name);
      } else if defaults[0].value.Some? {
        DefaultedKeeps(defaults[1..], fields[defaults[0].name := defaults[0].value.value], name);
      }
    }
  }

  /** Once every default is initialized, the pass leaves all defaulted fields set. */
  lemma {:induction false} DefaultedSets(defaults: seq<Default>, fields: Fields, i: nat)
    requires i < |defaults| && forall j :: 0 <= j < |defaults| ==> defaults[j].value.Some?
    ensures defaults[i].name in Defaulted(defaults, fields)
  {
    var d := defaults[0];
    var next := if d.name in fields then fields else fields[d.name := d.value.value];
    if i == 0 {
      DefaultedKeeps(defaults[1..], next, d.name);
    } else {
      DefaultedSets(defaults[1..], next, i - 1);
    }
  }

  /** No default is missing for a field that is not set. */
  ghost predicate Initialized(defaults: seq<Default>, fields: Fields) {
    forall i :: 0 <= i < |defaults| ==> defaults[i].name in fields || defaults[i].value.Some?
  }

  ghost predicate NamesApart(defaults: seq<Default>) {
    forall i, j :: 0 <= i < j < |defaults| ==> defaults[i].name != defaults[j].name
  }

  lemma DefaultNamesApart(rt: Runtime)
    ensures NamesApart(Defaults(rt))
  {
  }

  /** A default without a value leaves its field unset, and every default behind it. */
  lemma {:induction false} DefaultedStops(defaults: seq<Default>, fields: Fields, i: nat)
    requires NamesApart(defaults) && i < |defaults| && defaults[i].name !in fields && defaults[i].value.None?
    ensures defaults[i].name !in Defaulted(defaults, fields)
  {
    if i > 0 {
      assert defaults[0].name != defaults[i].name;
      var next := if defaults[0].name in fields then fields else if defaults[0].value.Some? then fields[defaults[0].name := defaults[0].value.value] else fields;
      assert NamesApart(defaults[1..]) by {
        assert forall k :: 0 <= k < |defaults[1..]| ==> defaults[1..][k] == defaults[k + 1];
      }
      DefaultedStops(defaults[1..], next, i - 1);
    }
  }

  /** Every defaulted field is a required one. */
  lemma DefaultsAreRequired(rt: Runtime, i: nat)
    requires i < |Defaults(rt)|
    ensures Required(Defaults(rt)[i].name) in Rules()
  {
    var rules, at := Rules(), [0, 1, 8, 9, 10, 11, 12, 13, 15, 16, 18];
    assert rules[at[i]] in rules && rules[at[i]] == Required(Defaults(rt)[i].name);
  }

  /**
   Save ignores the error of defaults; it is never lost: whenever the pass stops at an uninitialized default, the check
   fails too.
   */
  lemma IgnoredDefaultsErrorSurfaces(rt: Runtime, fields: Fields)
    requires !Initialized(Defaults(rt), fields)
    ensures Check(rt, Rules(), Defaulted(Defaults(rt), fields)).Some?
  {
    var i :| 0 <= i < |Defaults(rt)| && Defaults(rt)[i].name !in fields && Defaults(rt)[i].value.None?;
    DefaultNamesApart(rt);
    DefaultedStops(Defaults(rt), fields, i);
    DefaultsAreRequired(rt, i);
    var r := Rules();
    var k :| 0 <= k < |r| && r[k] == Required(Defaults(rt)[i].name);
    CheckExact(rt, r, Defaulted(Defaults(rt), fields));
    assert !Holds(rt, r[k], Defaulted(Defaults(rt), fields));
  }

  // ----- what the defaults are

  /** The field keeps its value, or gets this one. */
  ghost predicate Filled(fields: Fields, after: Fields, name: string, value: Option<Cell>) {
    name in after && Some(after[name]) == if name in fields then Some(fields[name]) else value
  }

  /** A default whose value is known is filled in. */
  lemma {:induction false} DefaultedFills(defaults: seq<Default>, fields: Fields, i: nat)
    requires NamesApart(defaults) && Initialized(defaults, fields) && i < |defaults|
    ensures Filled(fields, Defaulted(defaults, fields), defaults[i].name, defaults[i].value)
  {
    var d := defaults[0];
    var next := if d.name in fields then fields else fields[d.name := d.value.value];
    if i == 0 {
      DefaultedKeeps(defaults[1..], next, d.name);
    } else {
      assert NamesApart(defaults[1..]) && Initialized(defaults[1..], next) by {
        assert forall k :: 0 <= k < |defaults[1..]| ==> defaults[1..][k] == defaults[k + 1];
      }
      DefaultedFills(defaults[1..], next, i - 1);
      assert defaults[1..][i - 1] == defaults[i];
    }
  }

  /** Nothing else is set. */
  lemma {:induction false} DefaultedOnly(defaults: seq<Default>, fields: Fields, name: string)
    requires forall i :: 0 <= i < |defaults| ==> defaults[i].name != name
    ensures name in Defaulted(defaults, fields) <==> name in fields
  {
    if defaults != [] {
      var d := defaults[0];
      if d.name in fields {
        DefaultedOnly(defaults[1..], fields, name);
      } else if d.value.Some? {
        DefaultedOnly(defaults[1..], fields[d.name := d.value.value], name);
      }
    }
  }

  /** The eleven defaults by name, when none that is needed is missing; every other field is left as it is. */
  lemma DefaultsMean(rt: Runtime, fields: Fields)
    requires ("created_at" !in fields ==> rt.createdAt.Some?) && ("updated_at" !in fields ==> rt.updatedAt.Some?)
    requires ("credentials" !in fields ==> rt.credentials.Some?) && ("extra" !in fields ==> rt.extra.Some?)
    ensures var after := Defaulted(Defaults(rt), fields);
            && Filled(fields, after, "created_at", rt.createdAt) && Filled(fields, after, "updated_at", rt.updatedAt)
            && Filled(fields, after, "credentials", rt.credentials) && Filled(fields, after, "extra", rt.extra)
            && Filled(fields, after, "concurrency", Some(rt.concurrency)) && Filled(fields, after, "priority", Some(rt.priority))
            && Filled(fields, after, "rate_multiplier", Some(rt.rateMultiplier)) && Filled(fields, after, "status", Some(rt.status))
            && Filled(fields, after, "auto_pause_on_expired", Some(rt.autoPause)) && Filled(fields, after, "schedulable", Some(rt.schedulable))
            && Filled(fields, after, "quota_dimension", Some(Text("global")))
    ensures forall name :: name !in DefaultedNames() ==>
              (name in Defaulted(Defaults(rt), fields) <==> name in fields) && (name in fields ==> Defaulted(Defaults(rt), fields)[name] == fields[name])
  {
    var ds := Defaults(rt);
    DefaultNamesApart(rt);
    forall i | 0 <= i < |ds| ensures Filled(fields, Defaulted(ds, fields), ds[i].name, ds[i].value) {
      DefaultedFills(ds, fields, i);
    }
    DefaultsByName(rt, fields, Defaulted(ds, fields));
    forall name | name !in DefaultedNames()
      ensures (name in Defaulted(ds, fields) <==> name in fields) && (name in fields ==> Defaulted(ds, fields)[name] == fields[name])
    {
      DefaultedOnly(ds, fields, name);
      if name in fields {
        DefaultedKeeps(ds, fields, name);
      }
    }
  }

  function DefaultedNames(): set<string> {
    {"created_at", "updated_at", "credentials", "extra", "concurrency", "priority", "rate_multiplier", "status",
     "auto_pause_on_expired", "schedulable", "quota_dimension"}
  }

  lemma DefaultsByName(rt: Runtime, fields: Fields, after: Fields)
    requires forall i :: 0 <= i < |Defaults(rt)| ==> Filled(fields, after, Defaults(rt)[i].name, Defaults(rt)[i].value)
    ensures Filled(fields, after, "created_at", rt.createdAt) && Filled(fields, after, "updated_at", rt.updatedAt)
    ensures Filled(fields, after, "credentials", rt.credentials) && Filled(fields, after, "extra", rt.extra)
    ensures Filled(fields, after, "concurrency", Some(rt.concurrency)) && Filled(fields, after, "priority", Some(rt.priority))
    ensures Filled(fields, after, "rate_multiplier", Some(rt.rateMultiplier)) && Filled(fields, after, "status", Some(rt.status))
    ensures Filled(fields, after, "auto_pause_on_expired", Some(rt.autoPause)) && Filled(fields, after, "schedulable", Some(rt.schedulable))
    ensures Filled(fields, after, "quota_dimension", Some(Text("global")))
  {
    var ds := Defaults(rt);
    assert ds[0] == Default("created_at", rt.createdAt) && ds[1] == Default("updated_at", rt.updatedAt);
    assert ds[2] == Default("credentials", rt.credentials) && ds[3] == Default("extra", rt.extra);
    assert ds[4] == Default("concurrency", Some(rt.concurrency)) && ds[5] == Default("priority", Some(rt.priority));
    assert ds[6] == Default("rate_multiplier", Some(rt.rateMultiplier)) && ds[7] == Default("status", Some(rt.status));
    assert ds[8] == Default("auto_pause_on_expired", Some(rt.autoPause)) && ds[9] == Default("schedulable", Some(rt.schedulable));
    assert ds[10] == Default("quota_dimension", Some(Text("global")));
  }

  // ----- what the rules are

  /** Every required field is there. */
  predicate Filling(fields: Fields) {
    && "created_at" in fields && "updated_at" in fields && "name" in fields && "platform" in fields && "type" in fields
    && "credentials" in fields && "extra" in fields && "concurrency" in fields && "priority" in fields && "rate_multiplier" in fields
    && "status" in fields && "auto_pause_on_expired" in fields && "schedulable" in fields && "quota_dimension" in fields
  }

  /** The field's validator, if it is set. */
  predicate Fits(rt: Runtime, fields: Fields, name: string) {
    name in fields ==> rt.validator(name, fields[name])
  }

  /** No required field is missing, and no validator refuses its value. */
  predicate Sound(rt: Runtime, fields: Fields) {
    && Filling(fields)
    && Fits(rt, fields, "name") && Fits(rt, fields, "platform") && Fits(rt, fields, "type") && Fits(rt, fields, "status")
    && Fits(rt, fields, "session_window_status") && Fits(rt, fields, "quota_dimension")
  }

  /** From the `k`-th rule on, when it asks for a field. */
  lemma MissingStep(rt: Runtime, fields: Fields, k: nat, name: string)
    requires k < |Rules()| && Rules()[k] == Required(name)
    ensures Check(rt, Rules()[k..], fields) == if name in fields then Check(rt, Rules()[k + 1..], fields) else Some(MissingField(name))
  {
    assert Rules()[k..][1..] == Rules()[k + 1..];
  }

  /** From the `k`-th rule on, when it runs a validator. */
  lemma InvalidStep(rt: Runtime, fields: Fields, k: nat, name: string)
    requires k < |Rules()| && Rules()[k] == Validated(name)
    ensures Check(rt, Rules()[k..], fields) == if Fits(rt, fields, name) then Check(rt, Rules()[k + 1..], fields) else Some(InvalidField(name))
  {
    assert Rules()[k..][1..] == Rules()[k + 1..];
  }

  /** The rules hold of exactly the sound fields. */
  lemma RulesMean(rt: Runtime, fields: Fields)
    ensures Check(rt, Rules(), fields).None? <==> Sound(rt, fields)
  {
    assert Rules()[0..] == Rules();
    FirstMean(rt, fields);
    KindsMean(rt, fields);
    NumbersMean(rt, fields);
    StatusMeans(rt, fields);
    LastMean(rt, fields);
  }

  lemma FirstMean(rt: Runtime, fields: Fields)
    ensures Check(rt, Rules()[0..], fields).None? <==>
      "created_at" in fields && "updated_at" in fields && "name" in fields && Fits(rt, fields, "name") && Check(rt, Rules()[4..], fields).None?
  {
    MissingStep(rt, fields, 0, "created_at");
    MissingStep(rt, fields, 1, "updated_at");
    MissingStep(rt, fields, 2, "name");
    InvalidStep(rt, fields, 3, "name");
  }

  lemma KindsMean(rt: Runtime, fields: Fields)
    ensures Check(rt, Rules()[4..], fields).None? <==>
      "platform" in fields && Fits(rt, fields, "platform") && "type" in fields && Fits(rt, fields, "type") && Check(rt, Rules()[8..], fields).None?
  {
    MissingStep(rt, fields, 4, "platform");
    InvalidStep(rt, fields, 5, "platform");
    MissingStep(rt, fields, 6, "type");
    InvalidStep(rt, fields, 7, "type");
  }

  lemma NumbersMean(rt: Runtime, fields: Fields)
    ensures Check(rt, Rules()[8..], fields).None? <==>
      "credentials" in fields && "extra" in fields && "concurrency" in fields && "priority" in fields && Check(rt, Rules()[12..], fields).None?
  {
    MissingStep(rt, fields, 8, "credentials");
    MissingStep(rt, fields, 9, "extra");
    MissingStep(rt, fields, 10, "concurrency");
    MissingStep(rt, fields, 11, "priority");
  }

  lemma StatusMeans(rt: Runtime, fields: Fields)
    ensures Check(rt, Rules()[12..], fields).None? <==>
      "rate_multiplier" in fields && "status" in fields && Fits(rt, fields, "status") && Check(rt, Rules()[15..], fields).None?
  {
    MissingStep(rt, fields, 12, "rate_multiplier");
    MissingStep(rt, fields, 13, "status");
    InvalidStep(rt, fields, 14, "status");
  }

  lemma LastMean(rt: Runtime, fields: Fields)
    ensures Check(rt, Rules()[15..], fields).None? <==>
      && "auto_pause_on_expired" in fields && "schedulable" in fields && Fits(rt, fields, "session_window_status")
      && "quota_dimension" in fields && Fits(rt, fields, "quota_dimension")
  {
    MissingStep(rt, fields, 15, "auto_pause_on_expired");
    MissingStep(rt, fields, 16, "schedulable");
    InvalidStep(rt, fields, 17, "session_window_status");
    MissingStep(rt, fields, 18, "quota_dimension");
    InvalidStep(rt, fields, 19, "quota_dimension");
  }

  /** check: field by field, first whether a required one is there, then what its validator says. */
  method CheckFields(rt: Runtime, fields: Fields) returns (err: Option<Error>)
    ensures err == Check(rt, Rules(), fields)
    ensures err.None? <==> Sound(rt, fields)
    ensures err.Some? ==> Explains(rt, fields, err.value)
  {
    assert Rules()[0..] == Rules();
    err := CheckFirst(rt, fields);
    if err.Some? {
      return;
    }
    err := CheckKind(rt, fields);
    if err.Some? {
      return;
    }
    err := CheckNumbers(rt, fields);
    if err.Some? {
      return;
    }
    err := CheckStatus(rt, fields);
    if err.Some? {
      return;
    }
    err := CheckLast(rt, fields);
  }

  method CheckFirst(rt: Runtime, fields: Fields) returns (err: Option<Error>)
    ensures Check(rt, Rules()[0..], fields) == if err.Some? then err else Check(rt, Rules()[4..], fields)
    ensures err.None? <==> "created_at" in fields && "updated_at" in fields && "name" in fields && Fits(rt, fields, "name")
    ensures err.Some? ==> Explains(rt, fields, err.value)
  {
    MissingStep(rt, fields, 0, "created_at");
    if "created_at" !in fields { return Some(MissingField("created_at")); }
    MissingStep(rt, fields, 1, "updated_at");
    if "updated_at" !in fields { return Some(MissingField("updated_at")); }
    MissingStep(rt, fields, 2, "name");
    if "name" !in fields { return Some(MissingField("name")); }
    InvalidStep(rt, fields, 3, "name");
    if !rt.validator("name", fields["name"]) { return Some(InvalidField("name")); }
    return None;
  }

  method CheckKind(rt: Runtime, fields: Fields) returns (err: Option<Error>)
    ensures Check(rt, Rules()[4..], fields) == if err.Some? then err else Check(rt, Rules()[8..], fields)
    ensures err.None? <==> "platform" in fields && Fits(rt, fields, "platform") && "type" in fields && Fits(rt, fields, "type")
    ensures err.Some? ==> Explains(rt, fields, err.value)
  {
    MissingStep(rt, fields, 4, "platform");
    if "platform" !in fields { return Some(MissingField("platform")); }
    InvalidStep(rt, fields, 5, "platform");
    if !rt.validator("platform", fields["platform"]) { return Some(InvalidField("platform")); }
    MissingStep(rt, fields, 6, "type");
    if "type" !in fields { return Some(MissingField("type")); }
    InvalidStep(rt, fields, 7, "type");
    if !rt.validator("type", fields["type"]) { return Some(InvalidField("type")); }
    return None;
  }

  method CheckNumbers(rt: Runtime, fields: Fields) returns (err: Option<Error>)
    ensures Check(rt, Rules()[8..], fields) == if err.Some? then err else Check(rt, Rules()[12..], fields)
    ensures err.None? <==> "credentials" in fields && "extra" in fields && "concurrency" in fields && "priority" in fields
    ensures err.Some? ==> Explains(rt, fields, err.value)
  {
    MissingStep(rt, fields, 8, "credentials");
    if "credentials" !in fields { return Some(MissingField("credentials")); }
    MissingStep(rt, fields, 9, "extra");
    if "extra" !in fields { return Some(MissingField("extra")); }
    MissingStep(rt, fields, 10, "concurrency");
    if "concurrency" !in fields { return Some(MissingField("concurrency")); }
    MissingStep(rt, fields, 11, "priority");
    if "priority" !in fields { return Some(MissingField("priority")); }
    return None;
  }

  method CheckStatus(rt: Runtime, fields: Fields) returns (err: Option<Error>)
    ensures Check(rt, Rules()[12..], fields) == if err.Some? then err else Check(rt, Rules()[15..], fields)
    ensures err.None? <==> "rate_multiplier" in fields && "status" in fields && Fits(rt, fields, "status")
    ensures err.Some? ==> Explains(rt, fields, err.value)
  {
    MissingStep(rt, fields, 12, "rate_multiplier");
    if "rate_multiplier" !in fields { return Some(MissingField("rate_multiplier")); }
    MissingStep(rt, fields, 13, "status");
    if "status" !in fields { return Some(MissingField("status")); }
    InvalidStep(rt, fields, 14, "status");
    if !rt.validator("status", fields["status"]) { return Some(InvalidField("status")); }
    return None;
  }

  method CheckLast(rt: Runtime, fields: Fields) returns (err: Option<Error>)
    ensures Check(rt, Rules()[15..], fields) == err
    ensures err.None? <==>
      && "auto_pause_on_expired" in fields && "schedulable" in fields && Fits(rt, fields, "session_window_status")
      && "quota_dimension" in fields && Fits(rt, fields, "quota_dimension")
    ensures err.Some? ==> Explains(rt, fields, err.value)
  {
    MissingStep(rt, fields, 15, "auto_pause_on_expired");
    if "auto_pause_on_expired" !in fields { return Some(MissingField("auto_pause_on_expired")); }
    MissingStep(rt, fields, 16, "schedulable");
    if "schedulable" !in fields { return Some(MissingField("schedulable")); }
    InvalidStep(rt, fields, 17, "session_window_status");
    if "session_window_status" in fields && !rt.validator("session_window_status", fields["session_window_status"]) {
      return Some(InvalidField("session_window_status"));
    }
    MissingStep(rt, fields, 18, "quota_dimension");
    if "quota_dimension" !in fields { return Some(MissingField("quota_dimension")); }
    InvalidStep(rt, fields, 19, "quota_dimension");
    if !rt.validator("quota_dimension", fields["quota_dimension"]) { return Some(InvalidField("quota_dimension")); }
    return None;
  }

  lemma {:induction false} CheckExplains(rt: Runtime, rules: seq<Rule>, fields: Fields)
    ensures Check(rt, rules, fields).Some? ==> Explains(rt, fields, Check(rt, rules, fields).value)
  {
    if rules != [] {
      CheckExplains(rt, rules[1..], fields);
    }
  }

  /** The error names a field that is missing, or one whose value its validator refuses. */
  ghost predicate Explains(rt: Runtime, fields: Fields, e: Error) {
    || (e.MissingField? && e.name !in fields)
    || (e.InvalidField? && e.name in fields && !rt.validator(e.name, fields[e.name]))
  }
}

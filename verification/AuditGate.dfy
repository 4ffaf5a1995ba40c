/**
 The audit gate: an index of accepted exceptions, a scan over the reported vulnerabilities that looks at each
 (package, advisory) key once, and one exit code.
 */
module AuditGate {
  import opened Collections
  import opened ExceptionRecords
  import opened ExceptionFile

  // ----- the audit report

  /** A JSON value, as json.load delivers it. */
  datatype Json = Null | Bool(b: bool) | Num(n: real) | Str(s: string) | List(items: seq<Json>) | Obj(members: seq<Member>)
  datatype Member = Member(name: string, value: Json)

  predicate Truthful(v: Json) {
    match v
    case Null => false
    case Bool(b) => b
    case Num(n) => n != 0.0
    case Str(s) => s != ""
    case List(items) => items != []
    case Obj(members) => members != []
  }

  /** dict.get: Null when the member is missing. */
  function Get(members: seq<Member>, name: string): Json {
    if members == [] then Null
    else
      var n := |members| - 1;
      if members[n].name == name then members[n].value else Get(members[..n], name)
  }

  /** The first truthy value, or the last one: a chain of `or`. */
  function FirstTruthy(values: seq<Json>): (r: Json)
    requires values != []
    ensures r in values
    ensures Truthful(r) <==> exists v :: v in values && Truthful(v)
  {
    if |values| == 1 || Truthful(values[0]) then values[0]
    else
      var r := FirstTruthy(values[1..]);
      assert values == [values[0]] + values[1..];
      r
  }

  /** What the scan looks at. */
  datatype Vuln = Vuln(name: Json, severity: Json, advisory: Json)

  /** What the library provides: str() of a value that is not a string, str.lower, date.fromisoformat and date.today. */
  datatype Env = Env(render: Json -> string, lower: string -> string, parseDate: string -> Option<int>, today: int)

  function Str(env: Env, v: Json): string {
    if v.Str? then v.s else env.render(v)
  }

  /** `(cves or [None])[0]`; None when indexing raises. */
  function FirstOf(cves: Json): Option<Json> {
    if !Truthful(cves) then Some(Null)
    else match cves
      case List(items) => Some(items[0])
      case Str(s) => Some(Json.Str([s[0]]))
      case _ => None
  }

  /** pick_advisory_id: the cves are only looked at when nothing stands before them. */
  function PickAdvisoryId(env: Env, a: seq<Member>): Option<Json> {
    if Truthful(Get(a, "github_advisory_id")) then Some(Get(a, "github_advisory_id"))
    else if Truthful(Get(a, "url")) then Some(Get(a, "url"))
    else
      var cve := FirstOf(Get(a, "cves"));
      if cve.None? then None
      else
        var id := if Get(a, "id").Null? then Null else Json.Str(Str(env, Get(a, "id")));
        Some(FirstTruthy([cve.value, id, Get(a, "title"), Get(a, "advisory"), Get(a, "overview")]))
  }

  /** `advisories`: one entry each, or None when something other than an object is in the way. */
  function OfAdvisory(env: Env, a: Json): Option<Vuln> {
    if !a.Obj? then None
    else
      var id := PickAdvisoryId(env, a.members);
      if id.None? then None
      else Some(Vuln(FirstTruthy([Get(a.members, "module_name"), Get(a.members, "name")]), Get(a.members, "severity"), id.value))
  }

  /** What an element of `via` identifies. */
  function Identifier(item: Json): Option<Json> {
    match item
    case Obj(m) => Some(FirstTruthy([Get(m, "github_advisory_id"), Get(m, "url"), Get(m, "source"), Get(m, "title"), Get(m, "name")]))
    case Str(_) => Some(item)
    case _ => None
  }

  function TitleOf(item: Json): Json {
    match item
    case Obj(m) => FirstTruthy([Get(m, "title"), Get(m, "url"), Get(m, "advisory"), Get(m, "source")])
    case _ => item
  }

  /** The elements of `via`; a string counts as one element. */
  function ViaItems(via: Json): seq<Json> {
    match via
    case List(items) => items
    case Str(_) => [via]
    case _ => []
  }

  /** The non-empty identifiers, in order. */
  function Identifiers(items: seq<Json>): seq<Json> {
    if items == [] then []
    else
      var n := |items| - 1;
      var id := Identifier(items[n]);
      Identifiers(items[..n]) + (if id.Some? && Truthful(id.value) then [id.value] else [])
  }

  /** Joining the titles raises when one of them is truthy and no string, such as a numeric source. */
  predicate Joinable(items: seq<Json>) {
    forall i :: 0 <= i < |items| && Identifier(items[i]).Some? && Truthful(TitleOf(items[i])) ==> TitleOf(items[i]).Str?
  }

  function Entries(name: Json, severity: Json, ids: seq<Json>): (r: seq<Vuln>)
    ensures |r| == |ids| && forall i :: 0 <= i < |r| ==> r[i] == Vuln(name, severity, ids[i])
  {
    seq(|ids|, i requires 0 <= i < |ids| => Vuln(name, severity, ids[i]))
  }

  function OfVulnerability(name: string, v: Json): Option<seq<Vuln>> {
    if !v.Obj? then None
    else
      var items := ViaItems(Get(v.members, "via"));
      if !Joinable(items) then None
      else Some(Entries(Json.Str(name), Get(v.members, "severity"), Identifiers(items)))
  }

  function OfAdvisories(env: Env, members: seq<Member>): Option<seq<Vuln>> {
    if members == [] then Some([])
    else
      var n := |members| - 1;
      var before, last := OfAdvisories(env, members[..n]), OfAdvisory(env, members[n].value);
      if before.None? || last.None? then None else Some(before.value + [last.value])
  }

  function OfVulnerabilities(members: seq<Member>): Option<seq<Vuln>> {
    if members == [] then Some([])
    else
      var n := |members| - 1;
      var before, last := OfVulnerabilities(members[..n]), OfVulnerability(members[n].name, members[n].value);
      if before.None? || last.None? then None else Some(before.value + last.value)
  }

  function MembersOf(v: Json): seq<Member> {
    if v.Obj? then v.members else []
  }

  /** Everything iter_vulns yields; None when it raises. */
  function Yielded(env: Env, data: Json): Option<seq<Vuln>> {
    if !data.Obj? then None
    else
      var first := OfAdvisories(env, MembersOf(Get(data.members, "advisories")));
      var second := OfVulnerabilities(MembersOf(Get(data.members, "vulnerabilities")));
      if first.None? || second.None? then None else Some(first.value + second.value)
  }

  ghost predicate TruthyStrings(titles: seq<Json>) {
    forall t :: t in titles && Truthful(t) ==> t.Str?
  }

  /** The loop over `via`: the two lists it fills. */
  method CollectVia(items: seq<Json>) returns (ids: seq<Json>, titles: seq<Json>)
    ensures Truthfuls(ids) == Identifiers(items)
    ensures TruthyStrings(titles) <==> Joinable(items)
  {
    ids, titles := [], [];
    for i := 0 to |items|
      invariant Truthfuls(ids) == Identifiers(items[..i])
      invariant TruthyStrings(titles) <==> Joinable(items[..i])
    {
      assert items[..i + 1][..i] == items[..i] && items[..i + 1][i] == items[i];
      JoinableStep(items, i);
      var id := Identifier(items[i]);
      if id.Some? {
        TruthfulsSnoc(ids, id.value);
        TruthyStringsSnoc(titles, TitleOf(items[i]));
        ids, titles := ids + [id.value], titles + [TitleOf(items[i])];
      }
    }
    assert items[..|items|] == items;
  }

  lemma TruthyStringsSnoc(titles: seq<Json>, t: Json)
    ensures TruthyStrings(titles + [t]) <==> TruthyStrings(titles) && (Truthful(t) ==> t.Str?)
  {
    assert t in titles + [t];
    assert forall u :: u in titles ==> u in titles + [t];
  }

  lemma JoinableStep(items: seq<Json>, i: nat)
    requires i < |items|
    ensures Joinable(items[..i + 1]) <==>
      Joinable(items[..i]) && (Identifier(items[i]).Some? && Truthful(TitleOf(items[i])) ==> TitleOf(items[i]).Str?)
  {
    if Joinable(items[..i + 1]) {
      forall j | 0 <= j < i ensures items[..i + 1][j] == items[..i][j] { }
      assert items[..i + 1][i] == items[i];
    }
  }

  lemma TruthfulsSnoc(values: seq<Json>, v: Json)
    ensures Truthfuls(values + [v]) == Truthfuls(values) + if Truthful(v) then [v] else []
  {
    assert (values + [v])[..|values|] == values;
  }

  function Truthfuls(values: seq<Json>): seq<Json> {
    if values == [] then []
    else
      var n := |values| - 1;
      Truthfuls(values[..n]) + (if Truthful(values[n]) then [values[n]] else [])
  }

  /** iter_vulns: the advisories, then the vulnerabilities. */
  method IterVulns(env: Env, data: Json) returns (r: Option<seq<Vuln>>)
    ensures r == Yielded(env, data)
  {
    if !data.Obj? {
      return None;
    }
    var first := IterAdvisories(env, MembersOf(Get(data.members, "advisories")));
    var second := IterVulnerabilities(MembersOf(Get(data.members, "vulnerabilities")));
    if first.None? || second.None? {
      return None;
    }
    return Some(first.value + second.value);
  }

  method IterAdvisories(env: Env, advisories: seq<Member>) returns (r: Option<seq<Vuln>>)
    ensures r == OfAdvisories(env, advisories)
  {
    var vulns: seq<Vuln> := [];
    for i := 0 to |advisories|
      invariant OfAdvisories(env, advisories[..i]) == Some(vulns)
    {
      AdvisoriesStep(env, advisories, i);
      var v := OfAdvisory(env, advisories[i].value);
      if v.None? {
        return None;
      }
      vulns := vulns + [v.value];
    }
    assert advisories[..|advisories|] == advisories;
    return Some(vulns);
  }

  method IterVulnerabilities(vulnerabilities: seq<Member>) returns (r: Option<seq<Vuln>>)
    ensures r == OfVulnerabilities(vulnerabilities)
  {
    var vulns: seq<Vuln> := [];
    for i := 0 to |vulnerabilities|
      invariant OfVulnerabilities(vulnerabilities[..i]) == Some(vulns)
    {
      VulnerabilitiesStep(vulnerabilities, i);
      var more := IterVulnerability(vulnerabilities[i].name, vulnerabilities[i].value);
      if more.None? {
        return None;
      }
      vulns := vulns + more.value;
    }
    assert vulnerabilities[..|vulnerabilities|] == vulnerabilities;
    return Some(vulns);
  }

  method IterVulnerability(name: string, vuln: Json) returns (r: Option<seq<Vuln>>)
    ensures r == OfVulnerability(name, vuln)
  {
    if !vuln.Obj? {
      return None;
    }
    var ids, titles := CollectVia(ViaItems(Get(vuln.members, "via")));
    if t :| t in titles && Truthful(t) && !t.Str? {
      return None;
    }
    return Some(Entries(Json.Str(name), Get(vuln.members, "severity"), Truthfuls(ids)));
  }

  lemma {:induction false} AdvisoriesStep(env: Env, members: seq<Member>, i: nat)
    requires i < |members|
    ensures OfAdvisories(env, members[..i + 1]) ==
            if OfAdvisories(env, members[..i]).None? || OfAdvisory(env, members[i].value).None? then None
            else Some(OfAdvisories(env, members[..i]).value + [OfAdvisory(env, members[i].value).value])
    ensures OfAdvisories(env, members[..i + 1]).None? ==> OfAdvisories(env, members).None?
    decreases |members| - i
  {
    assert members[..i + 1][..i] == members[..i] && members[..i + 1][i] == members[i];
    if i + 1 < |members| {
      AdvisoriesStep(env, members, i + 1);
    } else {
      assert members[..i + 1] == members;
    }
  }

  lemma {:induction false} VulnerabilitiesStep(members: seq<Member>, i: nat)
    requires i < |members|
    ensures OfVulnerabilities(members[..i + 1]) ==
            if OfVulnerabilities(members[..i]).None? || OfVulnerability(members[i].name, members[i].value).None? then None
            else Some(OfVulnerabilities(members[..i]).value + OfVulnerability(members[i].name, members[i].value).value)
    ensures OfVulnerabilities(members[..i + 1]).None? ==> OfVulnerabilities(members).None?
    decreases |members| - i
  {
    assert members[..i + 1][..i] == members[..i] && members[..i + 1][i] == members[i];
    if i + 1 < |members| {
      VulnerabilitiesStep(members, i + 1);
    } else {
      assert members[..i + 1] == members;
    }
  }

  /** A vulnerability entry yields one finding per usable identifier: none at all when `via` names nothing. */
  lemma YieldsPerIdentifier(name: string, members: seq<Member>)
    requires Joinable(ViaItems(Get(members, "via")))
    ensures OfVulnerability(name, Obj(members)) == Some([]) <==>
      forall item :: item in ViaItems(Get(members, "via")) ==> Identifier(item).None? || !Truthful(Identifier(item).value)
  {
    IdentifiersEmpty(ViaItems(Get(members, "via")));
  }

  lemma {:induction false} IdentifiersEmpty(items: seq<Json>)
    ensures Identifiers(items) == [] <==> forall item :: item in items ==> Identifier(item).None? || !Truthful(Identifier(item).value)
  {
    if items != [] {
      var n := |items| - 1;
      IdentifiersEmpty(items[..n]);
      assert items == items[..n] + [items[n]];
    }
  }

  // ----- normalizing

  /** normalize_severity; None when the value is truthy and no string. */
  function NormalizeSeverity(env: Env, severity: Json): Option<string> {
    if !Truthful(severity) then Some(env.lower(Strip("")))
    else if severity.Str? then Some(env.lower(Strip(severity.s)))
    else None
  }

  function NormalizePackage(env: Env, name: Json): string {
    if name.Null? then "" else Strip(Str(env, name))
  }

  function NormalizeAdvisory(env: Env, advisory: Json): string {
    if advisory.Null? then "" else env.lower(Strip(Str(env, advisory)))
  }

  datatype Key = Key(package: string, advisory: string)

  function VulnKey(env: Env, v: Vuln): Key {
    Key(NormalizePackage(env, v.name), NormalizeAdvisory(env, v.advisory))
  }

  predicate High(severity: string) {
    severity == "high" || severity == "critical"
  }

  /** The severity can be read. */
  predicate Readable(env: Env, v: Vuln) {
    NormalizeSeverity(env, v.severity).Some?
  }

  function Severity(env: Env, v: Vuln): string
    requires Readable(env, v)
  {
    NormalizeSeverity(env, v.severity).value
  }

  /** A high or critical finding with a name. */
  predicate Relevant(env: Env, v: Vuln) {
    Readable(env, v) && High(Severity(env, v)) && Truthful(v.name)
  }

  /** A relevant finding with an advisory. */
  predicate Keyed(env: Env, v: Vuln) {
    Relevant(env, v) && VulnKey(env, v).advisory != ""
  }

  // ----- the index of exceptions

  datatype Rule = Rule(severity: string, expires: int)

  datatype Fault =
    | Incomplete(exc: Record)
    | BadDate(exc: Record)
    | NoKey
    | Duplicate(key: Key)
    | NoAdvisory(v: Vuln)
    | Mismatch(f: Finding, severity: string)
    | MissingHeader
    | Missing(f: Finding)
    | ExpiredHeader
    | Expired(f: Finding)

  function Required(): seq<string> {
    ["package", "advisory", "severity", "mitigation", "expires_on"]
  }

  predicate Has(exc: Record, field: string) {
    field in exc && exc[field] != ""
  }

  predicate Complete(exc: Record) {
    forall field :: field in Required() ==> Has(exc, field)
  }

  lemma CompleteHas(exc: Record)
    requires Complete(exc)
    ensures Has(exc, "package") && Has(exc, "advisory") && Has(exc, "severity") && Has(exc, "mitigation") && Has(exc, "expires_on")
  {
    var r := Required();
    assert r[0] in r && r[1] in r && r[2] in r && r[3] in r && r[4] in r;
  }

  function FieldOf(exc: Record, field: string): string {
    if field in exc then exc[field] else ""
  }

  function KeyOf(env: Env, exc: Record): Key {
    Key(Strip(FieldOf(exc, "package")), env.lower(Strip(FieldOf(exc, "advisory"))))
  }

  function RuleOf(env: Env, exc: Record): Rule
    requires env.parseDate(FieldOf(exc, "expires_on")).Some?
  {
    Rule(env.lower(Strip(FieldOf(exc, "severity"))), env.parseDate(FieldOf(exc, "expires_on")).value)
  }

  /** Complete, dated, and with a package and an advisory left after normalizing. */
  predicate Usable(env: Env, exc: Record) {
    && Complete(exc) && env.parseDate(FieldOf(exc, "expires_on")).Some?
    && KeyOf(env, exc).package != "" && KeyOf(env, exc).advisory != ""
  }

  datatype Claim = Claim(key: Key, rule: Rule)

  /** What the index loop makes of one exception before it looks at the index. */
  function Examine(env: Env, exc: Record): Result<Claim, Fault> {
    if !Complete(exc) then Err(Incomplete(exc))
    else
      CompleteHas(exc);
      var date := env.parseDate(exc["expires_on"]);
      if date.None? then Err(BadDate(exc))
      else
        var key := Key(Strip(exc["package"]), env.lower(Strip(exc["advisory"])));
        if key.package == "" || key.advisory == "" then Err(NoKey)
        else Ok(Claim(key, Rule(env.lower(Strip(exc["severity"])), date.value)))
  }

  lemma ExamineExact(env: Env, exc: Record)
    ensures Examine(env, exc).Ok? <==> Usable(env, exc)
    ensures Examine(env, exc).Ok? ==> Examine(env, exc).value == Claim(KeyOf(env, exc), RuleOf(env, exc))
  {
    if Complete(exc) {
      CompleteHas(exc);
    }
  }

  /** What every exception would put in the index. */
  ghost function Claims(env: Env, excs: seq<Record>): (r: seq<Option<Claim>>)
    ensures |r| == |excs|
    ensures forall i :: 0 <= i < |r| ==> r[i] == if Examine(env, excs[i]).Ok? then Some(Examine(env, excs[i]).value) else None
  {
    seq(|excs|, i requires 0 <= i < |excs| => if Examine(env, excs[i]).Ok? then Some(Examine(env, excs[i]).value) else None)
  }

  lemma ClaimsUsable(env: Env, excs: seq<Record>)
    ensures forall i :: 0 <= i < |excs| ==>
      Claims(env, excs)[i] == if Usable(env, excs[i]) then Some(Claim(KeyOf(env, excs[i]), RuleOf(env, excs[i]))) else None
  {
    forall i | 0 <= i < |excs|
      ensures Claims(env, excs)[i] == if Usable(env, excs[i]) then Some(Claim(KeyOf(env, excs[i]), RuleOf(env, excs[i]))) else None
    {
      ExamineExact(env, excs[i]);
    }
  }

  ghost function Keys(claims: seq<Option<Claim>>): (r: seq<Option<Key>>)
    ensures |r| == |claims|
    ensures forall i :: 0 <= i < |r| ==> r[i] == if claims[i].Some? then Some(claims[i].value.key) else None
  {
    seq(|claims|, i requires 0 <= i < |claims| => if claims[i].Some? then Some(claims[i].value.key) else None)
  }

  /** The first position with its key. */
  ghost predicate First(keys: seq<Option<Key>>, i: nat)
    requires i < |keys|
  {
    keys[i].Some? && keys[i] !in keys[..i]
  }

  ghost function KeySet(keys: seq<Option<Key>>): (r: set<Key>) {
    set i | 0 <= i < |keys| && keys[i].Some? :: keys[i].value
  }

  /** The rules of the claims that are first with their key. */
  ghost function IndexOf(claims: seq<Option<Claim>>): map<Key, Rule> {
    if claims == [] then map[] else Entered(IndexOf(claims[..|claims| - 1]), claims[|claims| - 1])
  }

  /** The index loop: every exception ends either in the index or as an error. */
  method Index(env: Env, excs: seq<Record>) returns (index: map<Key, Rule>, errors: seq<Fault>)
    ensures index == IndexOf(Claims(env, excs))
    ensures |index| + |errors| == |excs|
  {
    index, errors := map[], [];
    ghost var claims := Claims(env, excs);
    IndexEnds(claims);
    for i := 0 to |excs|
      invariant index == IndexAt(claims, i)
      invariant |index| + |errors| == i
    {
      IndexStep(claims, i);
      index, errors := Enter(Examine(env, excs[i]), index, errors);
    }
  }

  /** The end of the loop's body: an exception that was examined is entered, or reported. */
  method Enter(examined: Result<Claim, Fault>, was: map<Key, Rule>, before: seq<Fault>) returns (index: map<Key, Rule>, errors: seq<Fault>)
    ensures index == Entered(was, if examined.Ok? then Some(examined.value) else None)
    ensures |index| + |errors| == |was| + |before| + 1
  {
    index, errors := was, before;
    if examined.Err? {
      errors := errors + [examined.error];
      return;
    }
    var claim := examined.value;
    if claim.key in index {
      errors := errors + [Duplicate(claim.key)];
      return;
    }
    index := index[claim.key := claim.rule];
  }

  function Entered(index: map<Key, Rule>, claim: Option<Claim>): map<Key, Rule> {
    if claim.Some? && claim.value.key !in index then index[claim.value.key := claim.value.rule] else index
  }

  /** The index after `i` exceptions. */
  ghost function IndexAt(claims: seq<Option<Claim>>, i: nat): map<Key, Rule>
    requires i <= |claims|
  {
    IndexOf(claims[..i])
  }

  lemma IndexEnds(claims: seq<Option<Claim>>)
    ensures IndexAt(claims, 0) == map[] && IndexAt(claims, |claims|) == IndexOf(claims)
  {
    assert claims[..|claims|] == claims;
  }

  lemma IndexStep(claims: seq<Option<Claim>>, i: nat)
    requires i < |claims|
    ensures IndexAt(claims, i + 1) == Entered(IndexAt(claims, i), claims[i])
  {
    assert claims[..i + 1][..i] == claims[..i];
  }

  lemma KeySetSnoc(keys: seq<Option<Key>>)
    requires keys != []
    ensures KeySet(keys) == KeySet(keys[..|keys| - 1]) + if keys[|keys| - 1].Some? then {keys[|keys| - 1].value} else {}
  {
    var n := |keys| - 1;
    assert forall i :: 0 <= i < n ==> keys[..n][i] == keys[i];
    forall k | k in KeySet(keys) ensures k in KeySet(keys[..n]) || keys[n] == Some(k) {
      var i :| 0 <= i < |keys| && keys[i] == Some(k);
      if i < n {
        assert keys[..n][i] == Some(k);
      }
    }
  }

  lemma FirstPrefix(keys: seq<Option<Key>>, n: nat, i: nat)
    requires i < n <= |keys|
    ensures First(keys[..n], i) <==> First(keys, i)
  {
    assert keys[..n][..i] == keys[..i];
  }

  lemma KeysPrefix(claims: seq<Option<Claim>>, n: nat)
    requires n <= |claims|
    ensures Keys(claims[..n]) == Keys(claims)[..n]
  {
  }

  /** A key is in the index exactly when some claim has it. */
  lemma {:induction false} IndexKeys(claims: seq<Option<Claim>>)
    ensures IndexOf(claims).Keys == KeySet(Keys(claims))
  {
    if claims != [] {
      var n := |claims| - 1;
      IndexKeys(claims[..n]);
      KeysPrefix(claims, n);
      KeySetSnoc(Keys(claims));
    }
  }

  /** The first claim of a key decides its rule. */
  lemma {:induction false} IndexRules(claims: seq<Option<Claim>>, i: nat)
    requires i < |claims| && First(Keys(claims), i)
    ensures claims[i].value.key in IndexOf(claims) && IndexOf(claims)[claims[i].value.key] == claims[i].value.rule
  {
    var n, keys := |claims| - 1, Keys(claims);
    KeysPrefix(claims, n);
    IndexKeys(claims[..n]);
    if i < n {
      FirstPrefix(keys, n, i);
      IndexRules(claims[..n], i);
    } else {
      KeyIsNew(keys, n);
    }
  }

  /** Every position has a key of its own. */
  ghost predicate AllFirst(keys: seq<Option<Key>>) {
    forall i :: 0 <= i < |keys| ==> First(keys, i)
  }

  lemma AllFirstSnoc(keys: seq<Option<Key>>)
    requires keys != []
    ensures AllFirst(keys) <==> AllFirst(keys[..|keys| - 1]) && First(keys, |keys| - 1)
  {
    var n := |keys| - 1;
    forall i | 0 <= i < n ensures First(keys[..n], i) <==> First(keys, i) {
      FirstPrefix(keys, n, i);
    }
  }

  /** The index has an entry per exception exactly when every exception is usable and no key occurs twice. */
  lemma {:induction false} IndexFull(claims: seq<Option<Claim>>)
    ensures |IndexOf(claims)| <= |claims|
    ensures |IndexOf(claims)| == |claims| <==> AllFirst(Keys(claims))
  {
    if claims != [] {
      var n, keys := |claims| - 1, Keys(claims);
      IndexFull(claims[..n]);
      KeysPrefix(claims, n);
      IndexKeys(claims[..n]);
      AllFirstSnoc(keys);
      KeyIsNew(keys, n);
      var before := IndexOf(claims[..n]);
      if First(keys, n) {
        assert IndexOf(claims).Keys == before.Keys + {claims[n].value.key};
        MapSize(before);
        MapSize(IndexOf(claims));
      }
    }
  }

  lemma MapSize(m: map<Key, Rule>)
    ensures |m| == |m.Keys|
  {
  }

  lemma KeyIsNew(keys: seq<Option<Key>>, n: nat)
    requires n < |keys|
    ensures First(keys, n) <==> keys[n].Some? && keys[n].value !in KeySet(keys[..n])
  {
    if keys[n].Some? && keys[n] in keys[..n] {
      var i :| 0 <= i < n && keys[..n][i] == keys[n];
      assert keys[..n][i].value in KeySet(keys[..n]);
    }
  }

  // ----- the scan

  /** A high or critical finding under its key. */
  datatype Finding = Finding(v: Vuln, key: Key, severity: string)

  /** What the scan makes of one yielded entry before it looks at other entries. */
  datatype Look = Unreadable | Ignored | Unidentified(v: Vuln) | Candidate(f: Finding)

  function Classify(env: Env, v: Vuln): Look {
    var severity := NormalizeSeverity(env, v.severity);
    if severity.None? then Unreadable
    else if !High(severity.value) || !Truthful(v.name) then Ignored
    else
      var advisory := NormalizeAdvisory(env, v.advisory);
      if advisory == "" then Unidentified(v)
      else Candidate(Finding(v, Key(NormalizePackage(env, v.name), advisory), severity.value))
  }

  lemma ClassifyExact(env: Env, v: Vuln)
    ensures Classify(env, v).Unreadable? <==> !Readable(env, v)
    ensures Classify(env, v).Unidentified? || Classify(env, v).Candidate? <==> Relevant(env, v)
    ensures Classify(env, v).Candidate? <==> Keyed(env, v)
    ensures Classify(env, v).Candidate? ==> Classify(env, v).f == Finding(v, VulnKey(env, v), Severity(env, v))
  {
  }

  ghost function Looks(env: Env, vulns: seq<Vuln>): (r: seq<Look>)
    ensures |r| == |vulns| && forall i :: 0 <= i < |r| ==> r[i] == Classify(env, vulns[i])
  {
    seq(|vulns|, i requires 0 <= i < |vulns| => Classify(env, vulns[i]))
  }

  ghost function LookKeys(looks: seq<Look>): (r: seq<Option<Key>>)
    ensures |r| == |looks| && forall i :: 0 <= i < |r| ==> r[i] == if looks[i].Candidate? then Some(looks[i].f.key) else None
  {
    seq(|looks|, i requires 0 <= i < |looks| => if looks[i].Candidate? then Some(looks[i].f.key) else None)
  }

  /** The first finding of every key, in order. */
  ghost function Firsts(looks: seq<Look>): seq<Finding> {
    if looks == [] then []
    else
      var n := |looks| - 1;
      Firsts(looks[..n]) + if First(LookKeys(looks), n) then [looks[n].f] else []
  }

  ghost function Only(findings: seq<Finding>, p: Finding -> bool): seq<Finding> {
    if findings == [] then []
    else
      var n := |findings| - 1;
      Only(findings[..n], p) + if p(findings[n]) then [findings[n]] else []
  }

  predicate Uncovered(index: map<Key, Rule>, f: Finding) {
    f.key !in index
  }

  predicate Outdated(today: int, index: map<Key, Rule>, f: Finding) {
    f.key in index && index[f.key].expires < today
  }

  /** The rule names another severity; an empty one fits all. */
  predicate Mismatched(index: map<Key, Rule>, f: Finding) {
    f.key in index && index[f.key].severity != "" && index[f.key].severity != f.severity
  }

  /** The errors of the scan itself, in order: findings without an advisory, and severity mismatches of first findings. */
  ghost function ScanFaults(index: map<Key, Rule>, looks: seq<Look>): seq<Fault> {
    if looks == [] then []
    else
      var n := |looks| - 1;
      ScanFaults(index, looks[..n])
      + (if looks[n].Unidentified? then [NoAdvisory(looks[n].v)]
         else if First(LookKeys(looks), n) && Mismatched(index, looks[n].f) then [Mismatch(looks[n].f, index[looks[n].f.key].severity)]
         else [])
  }

  datatype Scanned = Scanned(missing: seq<Finding>, expired: seq<Finding>, errors: seq<Fault>)

  ghost function Reports(today: int, index: map<Key, Rule>, looks: seq<Look>): Scanned {
    Scanned(Only(Firsts(looks), f => Uncovered(index, f)), Only(Firsts(looks), f => Outdated(today, index, f)), ScanFaults(index, looks))
  }

  ghost predicate AllReadable(looks: seq<Look>) {
    forall i :: 0 <= i < |looks| ==> !looks[i].Unreadable?
  }

  /** The scan loop; None when normalizing a severity raises. */
  method Scan(env: Env, index: map<Key, Rule>, vulns: seq<Vuln>) returns (r: Option<Scanned>)
    ensures r.None? <==> !AllReadable(Looks(env, vulns))
    ensures r.Some? ==> r.value == Reports(env.today, index, Looks(env, vulns))
  {
    var reports, seen: set<Key> := Scanned([], [], []), {};
    ghost var looks := Looks(env, vulns);
    ReportsEnds(env.today, index, looks);
    for i := 0 to |vulns|
      invariant ReadableTo(looks, i)
      invariant seen == SeenAt(looks, i)
      invariant reports == ReportsAt(env.today, index, looks, i)
    {
      var look := Classify(env, vulns[i]);
      assert look == looks[i];
      if look.Unreadable? {
        return None;
      }
      reports, seen := Consider(env.today, index, look, reports, seen);
    }
    ReadableAll(looks, |looks|);
    return Some(reports);
  }

  ghost predicate ReadableTo(looks: seq<Look>, i: nat)
    requires i <= |looks|
  {
    i == 0 || (ReadableTo(looks, i - 1) && !looks[i - 1].Unreadable?)
  }

  lemma {:induction false} ReadableAll(looks: seq<Look>, i: nat)
    requires i <= |looks|
    ensures ReadableTo(looks, i) <==> forall j :: 0 <= j < i ==> !looks[j].Unreadable?
  {
    if i > 0 {
      ReadableAll(looks, i - 1);
    }
  }

  /** The body of the loop, once the severity is read. */
  method Consider(today: int, index: map<Key, Rule>, look: Look, before: Scanned, was: set<Key>) returns (after: Scanned, seen: set<Key>)
    ensures after == Next(today, index, was, before, look)
    ensures seen == was + if look.Candidate? then {look.f.key} else {}
  {
    var missing, expired, errors := before.missing, before.expired, before.errors;
    seen := was;
    match look {
      case Unidentified(v) =>
        errors := errors + [NoAdvisory(v)];
      case Candidate(f) =>
        if f.key in seen {
          return before, seen;
        }
        seen := seen + {f.key};
        if f.key !in index {
          missing := missing + [f];
        } else {
          var rule := index[f.key];
          if rule.severity != "" && rule.severity != f.severity {
            errors := errors + [Mismatch(f, rule.severity)];
          }
          if rule.expires < today {
            expired := expired + [f];
          }
        }
      case _ =>
    }
    return Scanned(missing, expired, errors), seen;
  }

  lemma OnlySnoc(findings: seq<Finding>, f: Finding, p: Finding -> bool)
    ensures Only(findings + [f], p) == Only(findings, p) + if p(f) then [f] else []
  {
    assert (findings + [f])[..|findings|] == findings;
  }

  /** What one more look adds to the reports. */
  ghost function Next(today: int, index: map<Key, Rule>, seen: set<Key>, before: Scanned, look: Look): Scanned {
    match look
    case Unidentified(v) => before.(errors := before.errors + [NoAdvisory(v)])
    case Candidate(f) =>
      if f.key in seen then before
      else Scanned(before.missing + (if Uncovered(index, f) then [f] else []),
                   before.expired + (if Outdated(today, index, f) then [f] else []),
                   before.errors + (if Mismatched(index, f) then [Mismatch(f, index[f.key].severity)] else []))
    case _ => before
  }

  /** The reports after `i` entries, entry by entry. */
  ghost function ReportsAt(today: int, index: map<Key, Rule>, looks: seq<Look>, i: nat): Scanned
    requires i <= |looks|
  {
    if i == 0 then Scanned([], [], []) else Next(today, index, SeenAt(looks, i - 1), ReportsAt(today, index, looks, i - 1), looks[i - 1])
  }

  /** The keys seen after `i` entries. */
  ghost function SeenAt(looks: seq<Look>, i: nat): set<Key>
    requires i <= |looks|
  {
    if i == 0 then {} else SeenAt(looks, i - 1) + if looks[i - 1].Candidate? then {looks[i - 1].f.key} else {}
  }

  lemma ReportsEnds(today: int, index: map<Key, Rule>, looks: seq<Look>)
    ensures ReportsAt(today, index, looks, |looks|) == Reports(today, index, looks)
  {
    ReportsUpTo(today, index, looks, |looks|);
    assert looks[..|looks|] == looks;
  }

  lemma {:induction false} SeenUpTo(looks: seq<Look>, i: nat)
    requires i <= |looks|
    ensures SeenAt(looks, i) == KeySet(LookKeys(looks[..i]))
  {
    if i > 0 {
      SeenUpTo(looks, i - 1);
      assert LookKeys(looks[..i])[..i - 1] == LookKeys(looks[..i - 1]);
      KeySetSnoc(LookKeys(looks[..i]));
    }
  }

  /** Entry by entry is what the first findings give. */
  lemma {:induction false} ReportsUpTo(today: int, index: map<Key, Rule>, looks: seq<Look>, i: nat)
    requires i <= |looks|
    ensures ReportsAt(today, index, looks, i) == Reports(today, index, looks[..i])
  {
    if i > 0 {
      ReportsUpTo(today, index, looks, i - 1);
      SeenUpTo(looks, i - 1);
      ReportsStep(today, index, looks, i - 1);
    }
  }

  lemma NewKey(looks: seq<Look>, i: nat)
    requires i < |looks|
    ensures First(LookKeys(looks[..i + 1]), i) <==> looks[i].Candidate? && looks[i].f.key !in KeySet(LookKeys(looks[..i]))
  {
    var keys := LookKeys(looks[..i + 1]);
    assert keys[..i] == LookKeys(looks[..i]);
    KeyIsNew(keys, i);
  }

  lemma ReportsStep(today: int, index: map<Key, Rule>, looks: seq<Look>, i: nat)
    requires i < |looks|
    ensures Reports(today, index, looks[..i + 1]) == Next(today, index, KeySet(LookKeys(looks[..i])), Reports(today, index, looks[..i]), looks[i])
  {
    NewKey(looks, i);
    assert looks[..i + 1][..i] == looks[..i];
    if looks[i].Candidate? {
      OnlySnoc(Firsts(looks[..i]), looks[i].f, f => Uncovered(index, f));
      OnlySnoc(Firsts(looks[..i]), looks[i].f, f => Outdated(today, index, f));
    }
    assert Firsts(looks[..i]) + [] == Firsts(looks[..i]);
  }
}

/**
 What the entries of a report yield, and when an exception covers one, in terms of the members of the report
 and the fields of the exception.
 */
module AuditEntries {
  import opened Collections
  import opened ExceptionRecords
  import opened ExceptionFile
  import opened AuditGate
  import opened AuditLaws

  // ----- values

  /** What Python takes for false. */
  lemma TruthfulExact(v: Json)
    ensures !Truthful(v) <==> v == Null || v == Bool(false) || v == Num(0.0) || v == Json.Str("") || v == List([]) || v == Obj([])
  {
  }

  /** The last member with this name. */
  ghost predicate LastNamed(members: seq<Member>, name: string, i: nat)
    requires i < |members|
  {
    members[i].name == name && forall j :: i < j < |members| ==> members[j].name != name
  }

  /** A member's value is that of the last one with its name. */
  lemma {:induction false} GetExact(members: seq<Member>, name: string, i: nat)
    requires i < |members| && LastNamed(members, name, i)
    ensures Get(members, name) == members[i].value
  {
    var n := |members| - 1;
    if i < n {
      assert members[n].name != name;
      GetExact(members[..n], name, i);
    }
  }

  /** Without a member of that name it is null. */
  lemma {:induction false} GetMissing(members: seq<Member>, name: string)
    requires forall i :: 0 <= i < |members| ==> members[i].name != name
    ensures Get(members, name) == Null
  {
    if members != [] {
      GetMissing(members[..|members| - 1], name);
    }
  }

  /** `values[0] or values[1] or ...` stops at position `i`. */
  ghost predicate OrAt(values: seq<Json>, r: Json, i: nat)
    requires i < |values|
  {
    r == values[i] && (Truthful(r) || i == |values| - 1) && forall j :: 0 <= j < i ==> !Truthful(values[j])
  }

  ghost predicate IsOr(values: seq<Json>, r: Json) {
    exists i :: 0 <= i < |values| && OrAt(values, r, i)
  }

  lemma {:induction false} FirstTruthyIsOr(values: seq<Json>)
    requires values != []
    ensures IsOr(values, FirstTruthy(values))
  {
    if |values| == 1 || Truthful(values[0]) {
      assert OrAt(values, FirstTruthy(values), 0);
    } else {
      FirstTruthyIsOr(values[1..]);
      var i :| 0 <= i < |values[1..]| && OrAt(values[1..], FirstTruthy(values[1..]), i);
      assert forall j :: 0 <= j <= i ==> values[1..][j] == values[j + 1];
      assert OrAt(values, FirstTruthy(values), i + 1);
    }
  }

  /** A chain may begin with values that are falsy. */
  lemma OrBehind(first: Json, values: seq<Json>, r: Json)
    requires !Truthful(first) && IsOr(values, r)
    ensures IsOr([first] + values, r)
  {
    var i :| 0 <= i < |values| && OrAt(values, r, i);
    assert OrAt([first] + values, r, i + 1);
  }

  // ----- an entry of `advisories`

  /** The first of the cves, if there is one. */
  function FirstCve(cves: Json): Json {
    match cves
    case List(items) => if items == [] then Null else items[0]
    case Str(s) => if s == "" then Null else Json.Str([s[0]])
    case _ => Null
  }

  function IdText(env: Env, id: Json): Json {
    match id
    case Null => Null
    case Str(_) => id
    case _ => Json.Str(env.render(id))
  }

  /** Everything an advisory may be identified by, in order of preference. */
  function AdvisoryIds(env: Env, m: seq<Member>): seq<Json> {
    [Get(m, "github_advisory_id"), Get(m, "url"), FirstCve(Get(m, "cves")), IdText(env, Get(m, "id")), Get(m, "title"), Get(m, "advisory"),
     Get(m, "overview")]
  }

  /**
   An advisory yields one entry: its module_name, or else its name; its severity; and the first of its identifiers that is
   there. It raises exactly if it has neither a GitHub id nor a url, and cves that have no first one.
   */
  lemma AdvisoryYields(env: Env, m: seq<Member>)
    ensures OfAdvisory(env, Obj(m)).None? <==>
      && !Truthful(Get(m, "github_advisory_id")) && !Truthful(Get(m, "url"))
      && Truthful(Get(m, "cves")) && !Get(m, "cves").List? && !Get(m, "cves").Str?
    ensures OfAdvisory(env, Obj(m)).Some? ==>
      var v := OfAdvisory(env, Obj(m)).value;
      IsOr([Get(m, "module_name"), Get(m, "name")], v.name) && v.severity == Get(m, "severity") && IsOr(AdvisoryIds(env, m), v.advisory)
  {
    FirstTruthyIsOr([Get(m, "module_name"), Get(m, "name")]);
    PickExact(env, m);
  }

  lemma PickExact(env: Env, m: seq<Member>)
    ensures PickAdvisoryId(env, m).None? <==>
      && !Truthful(Get(m, "github_advisory_id")) && !Truthful(Get(m, "url"))
      && Truthful(Get(m, "cves")) && !Get(m, "cves").List? && !Get(m, "cves").Str?
    ensures PickAdvisoryId(env, m).Some? ==> IsOr(AdvisoryIds(env, m), PickAdvisoryId(env, m).value)
  {
    var first, second := Get(m, "github_advisory_id"), Get(m, "url");
    var rest := [FirstCve(Get(m, "cves")), IdText(env, Get(m, "id")), Get(m, "title"), Get(m, "advisory"), Get(m, "overview")];
    assert AdvisoryIds(env, m) == [first] + ([second] + rest);
    TwoThenRest(first, second, rest);
    if FirstOf(Get(m, "cves")).Some? {
      assert FirstOf(Get(m, "cves")).value == rest[0];
    }
  }

  lemma TwoThenRest(first: Json, second: Json, rest: seq<Json>)
    requires rest != []
    ensures IsOr([first] + ([second] + rest), if Truthful(first) then first else if Truthful(second) then second else FirstTruthy(rest))
  {
    if Truthful(first) {
      assert OrAt([first] + ([second] + rest), first, 0);
    } else if Truthful(second) {
      assert OrAt([second] + rest, second, 0);
      OrBehind(first, [second] + rest, second);
    } else {
      FirstTruthyIsOr(rest);
      OrBehind(second, rest, FirstTruthy(rest));
      OrBehind(first, [second] + rest, FirstTruthy(rest));
    }
  }

  /** Anything but an object raises. */
  lemma OnlyObjectsYield(env: Env, a: Json)
    requires !a.Obj?
    ensures OfAdvisory(env, a).None?
    ensures forall name :: OfVulnerability(name, a).None?
  {
  }

  // ----- an entry of `vulnerabilities`

  /** What an element of `via` identifies: a string itself, an object the first of five members that is there. */
  ghost predicate Identifies(item: Json, id: Json) {
    match item
    case Str(_) => id == item
    case Obj(m) => IsOr([Get(m, "github_advisory_id"), Get(m, "url"), Get(m, "source"), Get(m, "title"), Get(m, "name")], id)
    case _ => false
  }

  /** What it is called. */
  ghost predicate Titles(item: Json, title: Json) {
    match item
    case Str(_) => title == item
    case Obj(m) => IsOr([Get(m, "title"), Get(m, "url"), Get(m, "advisory"), Get(m, "source")], title)
    case _ => false
  }

  lemma OrIsUnique(values: seq<Json>, r: Json, t: Json)
    requires IsOr(values, r) && IsOr(values, t)
    ensures r == t
  {
    var i :| 0 <= i < |values| && OrAt(values, r, i);
    var j :| 0 <= j < |values| && OrAt(values, t, j);
    assert i == j;
  }

  lemma IdentifierExact(item: Json, id: Json)
    ensures Identifier(item) == Some(id) <==> Identifies(item, id)
  {
    if item.Obj? {
      var m := item.members;
      var ids := [Get(m, "github_advisory_id"), Get(m, "url"), Get(m, "source"), Get(m, "title"), Get(m, "name")];
      FirstTruthyIsOr(ids);
      if IsOr(ids, id) {
        OrIsUnique(ids, FirstTruthy(ids), id);
      }
    }
  }

  lemma TitleExact(item: Json, title: Json)
    requires item.Str? || item.Obj?
    ensures TitleOf(item) == title <==> Titles(item, title)
  {
    if item.Obj? {
      var m := item.members;
      var titles := [Get(m, "title"), Get(m, "url"), Get(m, "advisory"), Get(m, "source")];
      FirstTruthyIsOr(titles);
      if IsOr(titles, title) {
        OrIsUnique(titles, FirstTruthy(titles), title);
      }
    }
  }

  /** The element identifies something. */
  ghost predicate Identifying(item: Json) {
    exists id :: Identifies(item, id) && Truthful(id)
  }

  /** `at` are the positions of the elements that identify something, in order, and `ids` what they identify. */
  ghost predicate IdentifiedAt(items: seq<Json>, ids: seq<Json>, at: seq<nat>) {
    && |at| == |ids| && Increasing(at)
    && (forall k :: 0 <= k < |at| ==> at[k] < |items| && Identifies(items[at[k]], ids[k]) && Truthful(ids[k]))
    && (forall p :: 0 <= p < |items| && Identifying(items[p]) ==> p in at)
  }

  lemma {:induction false} IdentifiersAt(items: seq<Json>) returns (at: seq<nat>)
    ensures IdentifiedAt(items, Identifiers(items), at)
  {
    at := [];
    if items != [] {
      var before := IdentifiersAt(items[..|items| - 1]);
      at := IdentifiedSnoc(items, Identifiers(items[..|items| - 1]), before);
    }
  }

  lemma IdentifiedSnoc(items: seq<Json>, ids: seq<Json>, before: seq<nat>) returns (at: seq<nat>)
    requires items != [] && IdentifiedAt(items[..|items| - 1], ids, before)
    ensures var id := Identifier(items[|items| - 1]);
            IdentifiedAt(items, ids + (if id.Some? && Truthful(id.value) then [id.value] else []), at)
  {
    var n := |items| - 1;
    var id := Identifier(items[n]);
    at := before + if id.Some? && Truthful(id.value) then [n] else [];
    if id.Some? {
      IdentifierExact(items[n], id.value);
    }
    forall p | 0 <= p < |items| && Identifying(items[p]) ensures p in at {
      if p < n {
        assert items[..n][p] == items[p] && p in before;
      } else {
        var other :| Identifies(items[n], other) && Truthful(other);
        IdentifierExact(items[n], other);
        assert at[|at| - 1] == n;
      }
    }
  }

  /** The elements of `via`: a list's items, or a string alone. */
  ghost predicate IsVia(via: Json, items: seq<Json>) {
    if via.List? then items == via.items else if via.Str? then items == [via] else items == []
  }

  /** What one vulnerability yields: one entry, under its own name and severity, per element of `via` that identifies something. */
  ghost predicate YieldsFor(name: string, m: seq<Member>, items: seq<Json>, vulns: seq<Vuln>) {
    && (forall k :: 0 <= k < |vulns| ==> vulns[k].name == Json.Str(name) && vulns[k].severity == Get(m, "severity"))
    && exists at, ids :: |ids| == |vulns| && IdentifiedAt(items, ids, at) && forall k :: 0 <= k < |vulns| ==> vulns[k].advisory == ids[k]
  }

  /** It raises exactly if an element has a title that is no string. */
  lemma VulnerabilityYields(name: string, m: seq<Member>, items: seq<Json>)
    requires IsVia(Get(m, "via"), items)
    ensures OfVulnerability(name, Obj(m)).None? <==> exists item, title :: item in items && Titles(item, title) && Truthful(title) && !title.Str?
    ensures OfVulnerability(name, Obj(m)).Some? ==> YieldsFor(name, m, items, OfVulnerability(name, Obj(m)).value)
  {
    assert ViaItems(Get(m, "via")) == items;
    JoinableExact(items);
    var at := IdentifiersAt(items);
    if Joinable(items) {
      assert OfVulnerability(name, Obj(m)).value == Entries(Json.Str(name), Get(m, "severity"), Identifiers(items));
      assert IdentifiedAt(items, Identifiers(items), at);
    }
  }

  lemma JoinableExact(items: seq<Json>)
    ensures !Joinable(items) <==> exists item, title :: item in items && Titles(item, title) && Truthful(title) && !title.Str?
  {
    if !Joinable(items) {
      var i :| 0 <= i < |items| && Identifier(items[i]).Some? && Truthful(TitleOf(items[i])) && !TitleOf(items[i]).Str?;
      TitleExact(items[i], TitleOf(items[i]));
      assert items[i] in items;
    }
    forall item, title | item in items && Titles(item, title) && Truthful(title) && !title.Str? ensures !Joinable(items) {
      TitleExact(item, title);
      var i :| 0 <= i < |items| && items[i] == item;
    }
  }

  // ----- the whole report

  function Concat(parts: seq<seq<Vuln>>): seq<Vuln> {
    if parts == [] then [] else Concat(parts[..|parts| - 1]) + parts[|parts| - 1]
  }

  /** One entry per advisory, in order. */
  ghost predicate AdvisoryParts(env: Env, members: seq<Member>, vulns: seq<Vuln>) {
    |vulns| == |members| && forall i :: 0 <= i < |members| ==> OfAdvisory(env, members[i].value) == Some(vulns[i])
  }

  /** What each vulnerability yields, one after the other. */
  ghost predicate VulnerabilityParts(members: seq<Member>, parts: seq<seq<Vuln>>) {
    |parts| == |members| && forall i :: 0 <= i < |members| ==> OfVulnerability(members[i].name, members[i].value) == Some(parts[i])
  }

  lemma {:induction false} AdvisoriesExact(env: Env, members: seq<Member>)
    ensures OfAdvisories(env, members).None? <==> exists i :: 0 <= i < |members| && OfAdvisory(env, members[i].value).None?
    ensures OfAdvisories(env, members).Some? ==> AdvisoryParts(env, members, OfAdvisories(env, members).value)
  {
    if members != [] {
      var n := |members| - 1;
      AdvisoriesExact(env, members[..n]);
      assert forall i :: 0 <= i < n ==> members[..n][i] == members[i];
      var last := OfAdvisory(env, members[n].value);
      if OfAdvisories(env, members[..n]).Some? && last.Some? {
        AdvisorySnoc(env, members, OfAdvisories(env, members[..n]).value, last.value);
      }
    }
  }

  lemma AdvisorySnoc(env: Env, members: seq<Member>, before: seq<Vuln>, last: Vuln)
    requires members != [] && AdvisoryParts(env, members[..|members| - 1], before)
    requires OfAdvisory(env, members[|members| - 1].value) == Some(last)
    ensures AdvisoryParts(env, members, before + [last])
  {
    assert forall i :: 0 <= i < |before| ==> members[..|members| - 1][i] == members[i];
  }

  lemma {:induction false} VulnerabilitiesExact(members: seq<Member>) returns (parts: seq<seq<Vuln>>)
    ensures OfVulnerabilities(members).None? <==> exists i :: 0 <= i < |members| && OfVulnerability(members[i].name, members[i].value).None?
    ensures OfVulnerabilities(members).Some? ==> VulnerabilityParts(members, parts) && OfVulnerabilities(members).value == Concat(parts)
  {
    parts := [];
    if members != [] {
      var n := |members| - 1;
      var before := VulnerabilitiesExact(members[..n]);
      assert forall i :: 0 <= i < n ==> members[..n][i] == members[i];
      var last := OfVulnerability(members[n].name, members[n].value);
      if OfVulnerabilities(members[..n]).Some? && last.Some? {
        parts := PartsSnoc(members, before, last.value);
      }
    }
  }

  lemma PartsSnoc(members: seq<Member>, before: seq<seq<Vuln>>, last: seq<Vuln>) returns (parts: seq<seq<Vuln>>)
    requires members != [] && VulnerabilityParts(members[..|members| - 1], before)
    requires OfVulnerability(members[|members| - 1].name, members[|members| - 1].value) == Some(last)
    ensures VulnerabilityParts(members, parts) && Concat(parts) == Concat(before) + last
  {
    parts := before + [last];
    assert parts[..|before|] == before;
    assert forall i :: 0 <= i < |before| ==> members[..|members| - 1][i] == members[i];
  }

  /** The members of an object; none of anything else. */
  ghost predicate IsDict(v: Json, members: seq<Member>) {
    if v.Obj? then members == v.members else members == []
  }

  /**
   Everything a report yields: its advisories' entries, then what its vulnerabilities yield, in order. It raises exactly if it
   is no object or one of them raises.
   */
  lemma YieldedExact(env: Env, report: seq<Member>, advisories: seq<Member>, vulnerabilities: seq<Member>)
    returns (first: seq<Vuln>, parts: seq<seq<Vuln>>)
    requires IsDict(Get(report, "advisories"), advisories) && IsDict(Get(report, "vulnerabilities"), vulnerabilities)
    ensures Yielded(env, Obj(report)).None? <==>
      || (exists i :: 0 <= i < |advisories| && OfAdvisory(env, advisories[i].value).None?)
      || (exists i :: 0 <= i < |vulnerabilities| && OfVulnerability(vulnerabilities[i].name, vulnerabilities[i].value).None?)
    ensures Yielded(env, Obj(report)).Some? ==>
      AdvisoryParts(env, advisories, first) && VulnerabilityParts(vulnerabilities, parts) && Yielded(env, Obj(report)).value == first + Concat(parts)
    ensures forall data: Json :: !data.Obj? ==> Yielded(env, data).None?
  {
    AdvisoriesExact(env, advisories);
    parts := VulnerabilitiesExact(vulnerabilities);
    first := if OfAdvisories(env, advisories).Some? then OfAdvisories(env, advisories).value else [];
  }

  // ----- when an exception covers a finding

  /** A value as text: a string itself, null nothing, anything else as it is rendered. */
  function TextOfValue(env: Env, v: Json): string {
    match v
    case Str(s) => s
    case Null => ""
    case _ => env.render(v)
  }

  /** The exception names its package, advisory, severity, mitigation and last day. */
  predicate Stated(exc: Record) {
    && "package" in exc && exc["package"] != "" && "advisory" in exc && exc["advisory"] != "" && "severity" in exc && exc["severity"] != ""
    && "mitigation" in exc && exc["mitigation"] != "" && "expires_on" in exc && exc["expires_on"] != ""
  }

  lemma CompleteExact(exc: Record)
    ensures Complete(exc) <==> Stated(exc)
  {
    var r := Required();
    if Complete(exc) {
      CompleteHas(exc);
    }
    if Stated(exc) {
      forall field | field in r ensures Has(exc, field) {
        var i :| 0 <= i < |r| && r[i] == field;
        assert i == 0 || i == 1 || i == 2 || i == 3 || i == 4;
      }
    }
  }

  /** Which exceptions the gate accepts. */
  lemma UsableExact(env: Env, exc: Record)
    ensures Usable(env, exc) <==>
      && Stated(exc) && env.parseDate(exc["expires_on"]).Some?
      && Strip(exc["package"]) != "" && env.lower(Strip(exc["advisory"])) != ""
  {
    CompleteExact(exc);
  }

  /** Which findings it looks at: high or critical ones with a name. */
  lemma RelevantExact(env: Env, v: Vuln)
    ensures Readable(env, v) <==> !Truthful(v.severity) || v.severity.Str?
    ensures Relevant(env, v) <==>
      && Readable(env, v) && Truthful(v.name)
      && env.lower(Strip(if v.severity.Str? then v.severity.s else "")) in ["high", "critical"]
  {
  }

  /** And under which key: the stripped name, and the stripped advisory in lower case. */
  lemma KeyExact(env: Env, v: Vuln)
    requires env.lower("") == ""
    ensures VulnKey(env, v) == Key(Strip(TextOfValue(env, v.name)), env.lower(Strip(TextOfValue(env, v.advisory))))
    ensures Keyed(env, v) <==> Relevant(env, v) && env.lower(Strip(TextOfValue(env, v.advisory))) != ""
  {
  }

  /**
   An accepted exception covers a keyed finding exactly if package and advisory agree, its severity is the finding's or
   blank, and its last day has not passed.
   */
  lemma CoversExact(env: Env, exc: Record, v: Vuln)
    requires env.lower("") == "" && Usable(env, exc) && Keyed(env, v)
    ensures "package" in exc && "advisory" in exc && "severity" in exc && "expires_on" in exc && env.parseDate(exc["expires_on"]).Some?
    ensures Covers(env, exc, v) <==>
      && Strip(exc["package"]) == Strip(TextOfValue(env, v.name))
      && env.lower(Strip(exc["advisory"])) == env.lower(Strip(TextOfValue(env, v.advisory)))
      && (env.lower(Strip(exc["severity"])) == ""
          || env.lower(Strip(exc["severity"])) == env.lower(Strip(if v.severity.Str? then v.severity.s else "")))
      && env.parseDate(exc["expires_on"]).value >= env.today
  {
    UsableExact(env, exc);
    KeyExact(env, v);
    RelevantExact(env, v);
  }
}

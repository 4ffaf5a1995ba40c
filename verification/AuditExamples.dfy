/** Concrete reports and exceptions that show what the laws of the audit gate leave open. */
module AuditExamples {
  import opened Collections
  import opened ExceptionRecords
  import opened ExceptionFile
  import opened AuditGate
  import opened AuditLaws

  /** A day on which nothing has run out, and lower-case input. */
  function PlainDay(): Env {
    Env(_ => "", s => s, _ => Some(1), 0)
  }

  function HighException(): Record {
    map["package" := "p", "advisory" := "a", "severity" := "high", "mitigation" := "m", "expires_on" := "d"]
  }

  function Reported(severity: string): Vuln {
    Vuln(Json.Str("p"), Json.Str(severity), Json.Str("a"))
  }

  /** One advisory reported as high and as critical, with an exception for high: the order decides. */
  lemma OrderDecidesHere()
    ensures VulnsCovered(PlainDay(), [HighException()], [Reported("high"), Reported("critical")])
    ensures !VulnsCovered(PlainDay(), [HighException()], [Reported("critical"), Reported("high")])
  {
    StripWord("p");
    StripWord("a");
    StripWord("high");
    StripWord("critical");
    ReportedKeyed("high");
    ReportedKeyed("critical");
    ExcusedUsable();
    OrderDecides(PlainDay(), HighException(), Reported("high"), Reported("critical"));
  }

  lemma ReportedKeyed(severity: string)
    requires High(severity) && Strip(severity) == severity && Strip("p") == "p" && Strip("a") == "a"
    ensures Keyed(PlainDay(), Reported(severity)) && VulnKey(PlainDay(), Reported(severity)) == Key("p", "a")
    ensures Severity(PlainDay(), Reported(severity)) == severity
  {
  }

  lemma ExcusedUsable()
    requires Strip("p") == "p" && Strip("a") == "a" && Strip("high") == "high"
    ensures Usable(PlainDay(), HighException()) && KeyOf(PlainDay(), HighException()) == Key("p", "a")
    ensures RuleOf(PlainDay(), HighException()) == Rule("high", 1)
  {
    var exc, r := HighException(), Required();
    forall field | field in r ensures Has(exc, field) {
      var i :| 0 <= i < |r| && r[i] == field;
      assert i == 0 || i == 1 || i == 2 || i == 3 || i == 4;
    }
  }

  // ----- a report that passes with a blank severity

  function BlankFields(): seq<ExceptionFile.Field> {
    [ExceptionFile.Field("package", "p", Plain), ExceptionFile.Field("advisory", "a", Plain), ExceptionFile.Field("severity", " ", Double),
     ExceptionFile.Field("mitigation", "m", Plain), ExceptionFile.Field("expires_on", "d", Plain)]
  }

  /** One critical vulnerability of package "p", by advisory "a". */
  function CriticalReport(): Json {
    Obj([Member("vulnerabilities", Obj([Member("p", Obj([Member("severity", Json.Str("critical")), Member("via", List([Json.Str("a")]))]))]))])
  }

  function BlankRecord(): Record {
    map["package" := "p", "advisory" := "a", "severity" := " ", "mitigation" := "m", "expires_on" := "d"]
  }

  /** Lower-case letters and underscores, at least one. */
  ghost predicate Word(s: string) {
    s != "" && forall i :: 0 <= i < |s| ==> 'a' <= s[i] <= 'z' || s[i] == '_'
  }

  lemma WordPrintable(f: ExceptionFile.Field)
    requires Word(f.key) && (f.style.Plain? ==> Word(f.value)) && (!f.style.Plain? ==> Unbroken(f.value))
    ensures Printable(f) && !StartsWith(f.key, "#") && !StartsWith(f.key, "- ")
  {
    HeadDiffers(f.key, "#");
    HeadDiffers(f.key, "- ");
    if f.style.Plain? {
      HeadDiffers(f.value, "\"");
      HeadDiffers(f.value, "'");
    }
  }

  lemma BlankFieldsWords()
    ensures Word("package") && Word("advisory") && Word("severity") && Word("mitigation") && Word("expires_on")
    ensures Word("p") && Word("a") && Word("m") && Word("d")
  {
  }

  lemma BlankFieldsPrintable()
    ensures PrintableRecord(BlankFields())
  {
    var fields := BlankFields();
    BlankFieldsWords();
    WordPrintable(fields[0]);
    WordPrintable(fields[1]);
    WordPrintable(fields[2]);
    WordPrintable(fields[3]);
    WordPrintable(fields[4]);
    assert "expires_on"[2] != "exceptions"[2];
  }

  lemma BlankFieldsRecord()
    ensures AsRecord(map[], EntriesOf(BlankFields())) == BlankRecord()
  {
    var e := EntriesOf(BlankFields());
    var r0: Record := map[];
    var r1 := Put(r0, e[0]);
    var r2 := Put(r1, e[1]);
    var r3 := Put(r2, e[2]);
    var r4 := Put(r3, e[3]);
    var r5 := Put(r4, e[4]);
    assert AsRecord(r5, e[5..]) == r5;
    assert e[4..][1..] == e[5..] && e[3..][1..] == e[4..] && e[2..][1..] == e[3..] && e[1..][1..] == e[2..] && e[0..] == e;
    assert AsRecord(r4, e[4..]) == r5;
    assert AsRecord(r3, e[3..]) == r5;
    assert AsRecord(r2, e[2..]) == r5;
    assert AsRecord(r1, e[1..]) == r5;
  }

  lemma GetOne(m: Member, name: string)
    ensures Get([m], name) == if m.name == name then m.value else Null
  {
    assert [m][..0] == [];
  }

  lemma GetTwo(m: Member, n: Member, name: string)
    ensures Get([m, n], name) == if n.name == name then n.value else if m.name == name then m.value else Null
  {
    assert [m, n][..1] == [m];
    GetOne(m, name);
  }

  lemma OneIdentifier(id: Json)
    requires id.Str? && Truthful(id)
    ensures Identifiers([id]) == [id]
  {
    var none: seq<Json> := [];
    assert [id][..0] == [] && Identifiers([id][..0]) == none && none + [id] == [id];
  }

  lemma OneVulnerability(name: string, severity: string, id: string)
    requires id != ""
    ensures OfVulnerabilities([Member(name, Obj([Member("severity", Json.Str(severity)), Member("via", List([Json.Str(id)]))]))])
         == Some([Vuln(Json.Str(name), Json.Str(severity), Json.Str(id))])
  {
    var s, via := Member("severity", Json.Str(severity)), Member("via", List([Json.Str(id)]));
    var one := [Member(name, Obj([s, via]))];
    GetTwo(s, via, "severity");
    GetTwo(s, via, "via");
    OneIdentifier(Json.Str(id));
    var v := Vuln(Json.Str(name), Json.Str(severity), Json.Str(id));
    assert ViaItems(via.value) == [Json.Str(id)] && Joinable([Json.Str(id)]);
    assert Entries(Json.Str(name), Json.Str(severity), [Json.Str(id)]) == [v];
    assert OfVulnerability(name, Obj([s, via])) == Some([v]);
    var none: seq<Vuln> := [];
    assert one[..0] == [] && OfVulnerabilities(one[..0]) == Some(none) && none + [v] == [v];
  }

  lemma CriticalReportYields()
    ensures Yielded(PlainDay(), CriticalReport()) == Some([Reported("critical")])
  {
    OneVulnerability("p", "critical", "a");
    GetOne(CriticalReport().members[0], "advisories");
    GetOne(CriticalReport().members[0], "vulnerabilities");
    var none: seq<Vuln> := [];
    assert OfAdvisories(PlainDay(), []) == Some(none) && none + [Reported("critical")] == [Reported("critical")];
  }

  lemma BlankRecordUsable()
    ensures Usable(PlainDay(), BlankRecord()) && KeyOf(PlainDay(), BlankRecord()) == Key("p", "a")
    ensures RuleOf(PlainDay(), BlankRecord()) == Rule("", 1)
  {
    StripWord("p");
    StripWord("a");
    StripBlank(" ");
    var exc, r := BlankRecord(), Required();
    forall field | field in r ensures Has(exc, field) {
      var i :| 0 <= i < |r| && r[i] == field;
      assert i == 0 || i == 1 || i == 2 || i == 3 || i == 4;
    }
  }

  lemma PrintedParses(fields: seq<ExceptionFile.Field>, exc: Record)
    requires PrintableRecord(fields) && AsRecord(map[], EntriesOf(fields)) == exc
    ensures Records(ReadLines(Lines(TextOf(Printed([fields]))))) == Some([exc])
  {
    RoundTrip([fields]);
    assert AsRecords(AllEntries([fields])) == [exc];
  }

  /** One exception printed to a file, and one finding that it covers. */
  lemma OnePasses(env: Env, audit: Json, fields: seq<ExceptionFile.Field>, exc: Record, v: Vuln)
    requires PrintableRecord(fields) && AsRecord(map[], EntriesOf(fields)) == exc && Yielded(env, audit) == Some([v])
    requires Covers(env, exc, v)
    ensures Passes(env, audit, TextOf(Printed([fields])))
  {
    PrintedParses(fields, exc);
    assert exc in [exc];
    assert Covered(env, [exc], v);
  }

  /** The whole gate lets a critical finding pass on an exception whose severity is one quoted space. */
  lemma BlankSeverityPasses()
    ensures Passes(PlainDay(), CriticalReport(), TextOf(Printed([BlankFields()])))
  {
    BlankFieldsPrintable();
    BlankFieldsRecord();
    CriticalReportYields();
    BlankRecordUsable();
    StripWord("p");
    StripWord("a");
    StripWord("critical");
    ReportedKeyed("critical");
    OnePasses(PlainDay(), CriticalReport(), BlankFields(), BlankRecord(), Reported("critical"));
  }

  // ----- a critical vulnerability that is not looked at

  /** A critical vulnerability of package "p" whose `via` is one empty object. */
  function NamelessReport(): Json {
    Obj([Member("vulnerabilities", Obj([Member("p", Obj([Member("severity", Json.Str("critical")), Member("via", List([Obj([])]))]))]))])
  }

  lemma NamelessYields()
    ensures Yielded(PlainDay(), NamelessReport()) == Some([])
  {
    var s, via := Member("severity", Json.Str("critical")), Member("via", List([Obj([])]));
    var one := [Member("p", Obj([s, via]))];
    GetTwo(s, via, "via");
    assert Identifier(Obj([])) == Some(Null);
    assert ViaItems(via.value) == [Obj([])];
    YieldsPerIdentifier("p", [s, via]);
    var none: seq<Vuln> := [];
    assert one[..0] == [] && OfVulnerabilities(one[..0]) == Some(none) && none + none == none;
    assert OfVulnerabilities(one) == Some(none);
    GetOne(NamelessReport().members[0], "advisories");
    GetOne(NamelessReport().members[0], "vulnerabilities");
    assert OfAdvisories(PlainDay(), []) == Some(none);
  }

  /** The gate passes it without any exception. */
  lemma NamelessPasses()
    ensures Passes(PlainDay(), NamelessReport(), "")
  {
    NamelessYields();
    assert ReadLines(Lines("")) == [];
    OneRecordPerOpening([]);
    FailsWithoutColon([]);
    assert Records([]) == Some([]);
  }

  // ----- an advisory that is reported by module_name

  function Lodash(): seq<Member> {
    [Member("module_name", Json.Str("lodash")), Member("severity", Json.Str("critical")), Member("github_advisory_id", Json.Str("GHSA-x"))]
  }

  function LodashReport(): Json {
    Obj([Member("advisories", Obj([Member("1", Obj(Lodash()))]))])
  }

  lemma GetThree(m: Member, n: Member, o: Member, name: string)
    ensures Get([m, n, o], name) ==
            if o.name == name then o.value else if n.name == name then n.value else if m.name == name then m.value else Null
  {
    assert [m, n, o][..2] == [m, n];
    GetTwo(m, n, name);
  }

  lemma LodashYields()
    ensures Yielded(PlainDay(), LodashReport()) == Some([Vuln(Json.Str("lodash"), Json.Str("critical"), Json.Str("GHSA-x"))])
  {
    var m := Lodash();
    GetThree(m[0], m[1], m[2], "module_name");
    GetThree(m[0], m[1], m[2], "severity");
    GetThree(m[0], m[1], m[2], "github_advisory_id");
    var one := [Member("1", Obj(m))];
    var v := Vuln(Json.Str("lodash"), Json.Str("critical"), Json.Str("GHSA-x"));
    assert OfAdvisory(PlainDay(), Obj(m)) == Some(v);
    var none: seq<Vuln> := [];
    assert one[..0] == [] && OfAdvisories(PlainDay(), one[..0]) == Some(none) && none + [v] == [v];
    GetOne(LodashReport().members[0], "advisories");
    GetOne(LodashReport().members[0], "vulnerabilities");
    assert OfVulnerabilities([]) == Some(none) && [v] + none == [v];
  }

  /** Without an exception the gate stops it. */
  lemma LodashStops()
    ensures !Passes(PlainDay(), LodashReport(), "")
  {
    LodashYields();
    assert ReadLines(Lines("")) == [];
    var v := Vuln(Json.Str("lodash"), Json.Str("critical"), Json.Str("GHSA-x"));
    StripWord("critical");
    StripWord("lodash");
    StripTrimmed("GHSA-x");
    assert Records([]) == Some([]);
    assert Relevant(PlainDay(), v) && Keyed(PlainDay(), v) && FirstSeen(PlainDay(), [v], 0);
    assert !Covered(PlainDay(), [], v);
  }
}

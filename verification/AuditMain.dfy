/** The gate from its two inputs to its exit code. */
module AuditMain {
  import opened Collections
  import opened ExceptionRecords
  import opened ExceptionFile
  import opened AuditGate
  import opened AuditLaws

  function Headed(header: Fault, reports: seq<Fault>): seq<Fault> {
    if reports == [] then [] else [header] + reports
  }

  method MissingReports(findings: seq<Finding>) returns (r: seq<Fault>)
    ensures |r| == |findings| && forall i :: 0 <= i < |r| ==> r[i] == Missing(findings[i])
  {
    r := [];
    for i := 0 to |findings|
      invariant |r| == i && forall j :: 0 <= j < i ==> r[j] == Missing(findings[j])
    {
      r := r + [Missing(findings[i])];
    }
  }

  method ExpiredReports(findings: seq<Finding>) returns (r: seq<Fault>)
    ensures |r| == |findings| && forall i :: 0 <= i < |r| ==> r[i] == Expired(findings[i])
  {
    r := [];
    for i := 0 to |findings|
      invariant |r| == i && forall j :: 0 <= j < i ==> r[j] == Expired(findings[j])
    {
      r := r + [Expired(findings[i])];
    }
  }

  /**
   main, from the decoded audit report and the text of the exception file. An exception raised anywhere ends
   the program with 1, like a reported error.
   */
  method Audit(env: Env, audit: Json, text: string) returns (code: int)
    ensures code == 0 || code == 1
    ensures code == 0 <==> Passes(env, audit, text)
  {
    var exceptions := ParseExceptions(Lines(text));
    if exceptions.None? {
      return 1;
    }
    ghost var claims := Claims(env, exceptions.value);
    var index, errors := Index(env, exceptions.value);
    IndexFull(claims);
    SoundIsAllFirst(env, exceptions.value);
    var vulns := IterVulns(env, audit);
    if vulns.None? {
      return 1;
    }
    ghost var looks := Looks(env, vulns.value);
    var scanned := Scan(env, index, vulns.value);
    NothingReported(env.today, index, looks);
    if ExceptionsSound(env, exceptions.value) {
      CleanScan(env, exceptions.value, vulns.value);
    }
    if scanned.None? {
      return 1;
    }
    var missing := MissingReports(scanned.value.missing);
    var expired := ExpiredReports(scanned.value.expired);
    errors := errors + scanned.value.errors + Headed(MissingHeader, missing) + Headed(ExpiredHeader, expired);
    return if errors != [] then 1 else 0;
  }
}

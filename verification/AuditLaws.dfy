/**
 What the audit gate decides: exactly when it exits with 0, and how far the order of the reported entries matters.
 */
module AuditLaws {
  import opened Collections
  import opened ExceptionRecords
  import opened ExceptionFile
  import opened AuditGate

  // ----- the reports

  ghost function KeysOf(findings: seq<Finding>): set<Key> {
    set f | f in findings :: f.key
  }

  ghost predicate OnePerKey(findings: seq<Finding>) {
    forall i, j :: 0 <= i < j < |findings| ==> findings[i].key != findings[j].key
  }

  /** Every key has one finding among the firsts, its first one. */
  lemma {:induction false} FirstsExact(looks: seq<Look>)
    ensures KeysOf(Firsts(looks)) == KeySet(LookKeys(looks)) && OnePerKey(Firsts(looks))
    ensures forall f :: f in Firsts(looks) <==> exists i :: 0 <= i < |looks| && First(LookKeys(looks), i) && looks[i].f == f
  {
    if looks != [] {
      var n, keys := |looks| - 1, LookKeys(looks);
      FirstsExact(looks[..n]);
      assert LookKeys(looks[..n]) == keys[..n];
      KeySetSnoc(keys);
      KeyIsNew(keys, n);
      forall i | 0 <= i < n ensures First(keys[..n], i) <==> First(keys, i) {
        FirstPrefix(keys, n, i);
      }
    }
  }

  lemma {:induction false} OnlyExact(findings: seq<Finding>, p: Finding -> bool)
    ensures forall f :: f in Only(findings, p) <==> f in findings && p(f)
  {
    if findings != [] {
      var n := |findings| - 1;
      OnlyExact(findings[..n], p);
      assert findings == findings[..n] + [findings[n]];
    }
  }

  lemma {:induction false} OnlyOnePerKey(findings: seq<Finding>, p: Finding -> bool)
    requires OnePerKey(findings)
    ensures OnePerKey(Only(findings, p))
  {
    if findings != [] {
      var n := |findings| - 1;
      OnlyOnePerKey(findings[..n], p);
      OnlyExact(findings[..n], p);
      assert forall f :: f in findings[..n] ==> f.key != findings[n].key;
      var before := Only(findings[..n], p);
      assert forall i :: 0 <= i < |before| ==> before[i] in before;
    }
  }

  /** Selecting by key. */
  lemma OnlyKeys(findings: seq<Finding>, p: Finding -> bool, keys: set<Key>)
    requires OnePerKey(findings) && forall f :: f in findings ==> (p(f) <==> f.key in keys)
    ensures KeysOf(Only(findings, p)) == KeysOf(findings) * keys
    ensures |Only(findings, p)| == |KeysOf(findings) * keys|
  {
    OnlyExact(findings, p);
    OnlyOnePerKey(findings, p);
    KeysSize(Only(findings, p));
  }

  lemma {:induction false} KeysSize(findings: seq<Finding>)
    requires OnePerKey(findings)
    ensures |KeysOf(findings)| == |findings|
  {
    if findings != [] {
      var n := |findings| - 1;
      KeysSize(findings[..n]);
      assert findings == findings[..n] + [findings[n]];
      assert KeysOf(findings) == KeysOf(findings[..n]) + {findings[n].key};
    }
  }

  /** The keys looked up, in no order. */
  ghost function Sought(env: Env, vulns: seq<Vuln>): set<Key> {
    set v | v in vulns && Keyed(env, v) :: VulnKey(env, v)
  }

  lemma LooksExact(env: Env, vulns: seq<Vuln>)
    ensures forall i :: 0 <= i < |vulns| ==>
      var look, v := Looks(env, vulns)[i], vulns[i];
      && (look.Unreadable? <==> !Readable(env, v)) && (look.Unidentified? || look.Candidate? <==> Relevant(env, v))
      && (look.Candidate? <==> Keyed(env, v)) && (look.Candidate? ==> look.f == Finding(v, VulnKey(env, v), Severity(env, v)))
  {
    forall i | 0 <= i < |vulns|
      ensures var look, v := Looks(env, vulns)[i], vulns[i];
              && (look.Unreadable? <==> !Readable(env, v)) && (look.Unidentified? || look.Candidate? <==> Relevant(env, v))
              && (look.Candidate? <==> Keyed(env, v)) && (look.Candidate? ==> look.f == Finding(v, VulnKey(env, v), Severity(env, v)))
    {
      ClassifyExact(env, vulns[i]);
    }
  }

  lemma SoughtKeys(env: Env, vulns: seq<Vuln>)
    ensures KeySet(LookKeys(Looks(env, vulns))) == Sought(env, vulns)
  {
    var keys := LookKeys(Looks(env, vulns));
    LooksExact(env, vulns);
    forall k | k in Sought(env, vulns) ensures k in KeySet(keys) {
      var i :| 0 <= i < |vulns| && Keyed(env, vulns[i]) && VulnKey(env, vulns[i]) == k;
      assert keys[i] == Some(k);
    }
    forall k | k in KeySet(keys) ensures k in Sought(env, vulns) {
      var i :| 0 <= i < |keys| && keys[i] == Some(k);
      assert vulns[i] in vulns;
    }
  }

  lemma FirstsSought(env: Env, vulns: seq<Vuln>)
    ensures KeysOf(Firsts(Looks(env, vulns))) == Sought(env, vulns) && OnePerKey(Firsts(Looks(env, vulns)))
    ensures forall f :: f in Firsts(Looks(env, vulns)) ==> f.key in Sought(env, vulns)
  {
    SoughtKeys(env, vulns);
    FirstsExact(Looks(env, vulns));
    assert forall f :: f in Firsts(Looks(env, vulns)) ==> f.key in KeysOf(Firsts(Looks(env, vulns)));
  }

  ghost function WithoutRule(keys: set<Key>, index: map<Key, Rule>): set<Key> {
    set k | k in keys && k !in index
  }

  ghost function RunOut(keys: set<Key>, index: map<Key, Rule>, today: int): set<Key> {
    set k | k in keys && k in index && index[k].expires < today
  }

  /** The missing reports: the keys looked up that have no rule, one report each. */
  lemma MissingExact(env: Env, index: map<Key, Rule>, vulns: seq<Vuln>)
    ensures var missing := Reports(env.today, index, Looks(env, vulns)).missing;
            KeysOf(missing) == WithoutRule(Sought(env, vulns), index) && |missing| == |WithoutRule(Sought(env, vulns), index)|
  {
    var firsts, keys := Firsts(Looks(env, vulns)), WithoutRule(Sought(env, vulns), index);
    FirstsSought(env, vulns);
    OnlyKeys(firsts, f => Uncovered(index, f), keys);
    assert KeysOf(firsts) * keys == keys;
  }

  /** The expired reports: the keys looked up whose rule has run out, one report each. */
  lemma ExpiredExact(env: Env, index: map<Key, Rule>, vulns: seq<Vuln>)
    ensures var expired := Reports(env.today, index, Looks(env, vulns)).expired;
            KeysOf(expired) == RunOut(Sought(env, vulns), index, env.today) && |expired| == |RunOut(Sought(env, vulns), index, env.today)|
  {
    var firsts, keys := Firsts(Looks(env, vulns)), RunOut(Sought(env, vulns), index, env.today);
    FirstsSought(env, vulns);
    OnlyKeys(firsts, f => Outdated(env.today, index, f), keys);
    assert KeysOf(firsts) * keys == keys;
  }

  /** The same keys are reported, each once, in whatever order the entries come. */
  lemma OrderIndependent(env: Env, index: map<Key, Rule>, vulns: seq<Vuln>, others: seq<Vuln>)
    requires multiset(vulns) == multiset(others)
    ensures var r, s := Reports(env.today, index, Looks(env, vulns)), Reports(env.today, index, Looks(env, others));
            && KeysOf(r.missing) == KeysOf(s.missing) && |r.missing| == |s.missing|
            && KeysOf(r.expired) == KeysOf(s.expired) && |r.expired| == |s.expired|
  {
    SameMembers(vulns, others);
    assert Sought(env, vulns) == Sought(env, others);
    MissingExact(env, index, vulns);
    MissingExact(env, index, others);
    ExpiredExact(env, index, vulns);
    ExpiredExact(env, index, others);
  }

  lemma SameMembers(vulns: seq<Vuln>, others: seq<Vuln>)
    requires multiset(vulns) == multiset(others)
    ensures forall v :: v in vulns <==> v in others
  {
    assert forall v :: v in vulns <==> v in multiset(vulns);
    assert forall v :: v in others <==> v in multiset(others);
  }

  // ----- the exit code

  /** The rule for the finding's key is there, fits and has not run out. */
  ghost predicate Excused(today: int, index: map<Key, Rule>, f: Finding) {
    !Uncovered(index, f) && !Outdated(today, index, f) && !Mismatched(index, f)
  }

  ghost predicate AllExcused(today: int, index: map<Key, Rule>, looks: seq<Look>) {
    forall i :: 0 <= i < |looks| ==> !looks[i].Unidentified? && (First(LookKeys(looks), i) ==> Excused(today, index, looks[i].f))
  }

  lemma {:induction false} NoFaults(index: map<Key, Rule>, looks: seq<Look>)
    ensures ScanFaults(index, looks) == [] <==>
      forall i :: 0 <= i < |looks| ==> !looks[i].Unidentified? && (First(LookKeys(looks), i) ==> !Mismatched(index, looks[i].f))
  {
    if looks != [] {
      var n, keys := |looks| - 1, LookKeys(looks);
      NoFaults(index, looks[..n]);
      assert LookKeys(looks[..n]) == keys[..n];
      forall i | 0 <= i < n ensures First(keys[..n], i) <==> First(keys, i) {
        FirstPrefix(keys, n, i);
      }
    }
  }

  /** The scan reports nothing exactly when every entry has an advisory and every first one of a key is excused. */
  lemma NothingReported(today: int, index: map<Key, Rule>, looks: seq<Look>)
    ensures Reports(today, index, looks) == Scanned([], [], []) <==> AllExcused(today, index, looks)
  {
    NoFaults(index, looks);
    FirstsExact(looks);
    OnlyEmpty(Firsts(looks), f => Uncovered(index, f));
    OnlyEmpty(Firsts(looks), f => Outdated(today, index, f));
    assert forall i :: 0 <= i < |looks| && First(LookKeys(looks), i) ==> looks[i].f in Firsts(looks);
  }

  lemma OnlyEmpty(findings: seq<Finding>, p: Finding -> bool)
    ensures Only(findings, p) == [] <==> forall f :: f in findings ==> !p(f)
  {
    OnlyExact(findings, p);
    if Only(findings, p) != [] {
      assert Only(findings, p)[0] in Only(findings, p);
    }
  }

  /** The exception covers the finding: same key, fitting severity, not run out. */
  ghost predicate Covers(env: Env, exc: Record, v: Vuln) {
    && Usable(env, exc) && Keyed(env, v) && KeyOf(env, exc) == VulnKey(env, v)
    && (RuleOf(env, exc).severity == "" || RuleOf(env, exc).severity == Severity(env, v))
    && RuleOf(env, exc).expires >= env.today
  }

  /** No earlier entry has the same key. */
  ghost predicate FirstSeen(env: Env, vulns: seq<Vuln>, i: nat)
    requires i < |vulns|
  {
    Keyed(env, vulns[i]) && forall j :: 0 <= j < i && Keyed(env, vulns[j]) ==> VulnKey(env, vulns[j]) != VulnKey(env, vulns[i])
  }

  ghost predicate ExceptionsSound(env: Env, excs: seq<Record>) {
    && (forall i :: 0 <= i < |excs| ==> Usable(env, excs[i]))
    && (forall i, j :: 0 <= i < j < |excs| ==> KeyOf(env, excs[i]) != KeyOf(env, excs[j]))
  }

  ghost predicate Covered(env: Env, excs: seq<Record>, v: Vuln) {
    exists exc :: exc in excs && Covers(env, exc, v)
  }

  ghost predicate VulnsCovered(env: Env, excs: seq<Record>, vulns: seq<Vuln>) {
    forall i :: 0 <= i < |vulns| ==>
      && Readable(env, vulns[i])
      && (Relevant(env, vulns[i]) ==> VulnKey(env, vulns[i]).advisory != "")
      && (FirstSeen(env, vulns, i) ==> Covered(env, excs, vulns[i]))
  }

  /** When the gate lets a build through. */
  ghost predicate Passes(env: Env, audit: Json, text: string) {
    var excs, vulns := Records(ReadLines(Lines(text))), Yielded(env, audit);
    excs.Some? && vulns.Some? && ExceptionsSound(env, excs.value) && VulnsCovered(env, excs.value, vulns.value)
  }

  lemma SoundIsAllFirst(env: Env, excs: seq<Record>)
    ensures ExceptionsSound(env, excs) <==> AllFirst(Keys(Claims(env, excs)))
  {
    var keys := Keys(Claims(env, excs));
    ClaimsUsable(env, excs);
    if AllFirst(keys) {
      forall i, j | 0 <= i < j < |excs| ensures KeyOf(env, excs[i]) != KeyOf(env, excs[j]) {
        assert First(keys, j) && First(keys, i) && keys[..j][i] == keys[i];
      }
      assert forall i :: 0 <= i < |excs| ==> First(keys, i) && Usable(env, excs[i]);
    }
    if ExceptionsSound(env, excs) {
      forall i | 0 <= i < |excs| ensures First(keys, i) {
        assert forall j :: 0 <= j < i ==> keys[..i][j] == keys[j] != keys[i];
      }
    }
  }

  /** The exception at position `i` decides for its key. */
  lemma ExcusedBy(env: Env, excs: seq<Record>, v: Vuln, i: nat)
    requires ExceptionsSound(env, excs) && Keyed(env, v) && i < |excs| && KeyOf(env, excs[i]) == VulnKey(env, v)
    ensures Excused(env.today, IndexOf(Claims(env, excs)), Finding(v, VulnKey(env, v), Severity(env, v))) <==> Covers(env, excs[i], v)
  {
    SoundIsAllFirst(env, excs);
    ClaimsUsable(env, excs);
    IndexRules(Claims(env, excs), i);
  }

  /** With sound exceptions the index excuses exactly what some exception covers. */
  lemma ExcusedIsCovered(env: Env, excs: seq<Record>, v: Vuln)
    requires ExceptionsSound(env, excs) && Keyed(env, v)
    ensures Excused(env.today, IndexOf(Claims(env, excs)), Finding(v, VulnKey(env, v), Severity(env, v))) <==> Covered(env, excs, v)
  {
    var keys, key := Keys(Claims(env, excs)), VulnKey(env, v);
    IndexKeys(Claims(env, excs));
    ClaimsUsable(env, excs);
    if key in IndexOf(Claims(env, excs)) {
      var i :| 0 <= i < |keys| && keys[i] == Some(key);
      ExcusedBy(env, excs, v, i);
      assert excs[i] in excs;
    }
    if exc :| exc in excs && Covers(env, exc, v) {
      var i :| 0 <= i < |excs| && excs[i] == exc;
      ExcusedBy(env, excs, v, i);
    }
  }

  /** The scan is clean exactly when the entries are covered. */
  lemma CleanScan(env: Env, excs: seq<Record>, vulns: seq<Vuln>)
    requires ExceptionsSound(env, excs)
    ensures AllReadable(Looks(env, vulns)) && AllExcused(env.today, IndexOf(Claims(env, excs)), Looks(env, vulns)) <==> VulnsCovered(env, excs, vulns)
  {
    var looks := Looks(env, vulns);
    LooksExact(env, vulns);
    forall i | 0 <= i < |vulns|
      ensures First(LookKeys(looks), i) <==> FirstSeen(env, vulns, i)
      ensures FirstSeen(env, vulns, i) ==> (Excused(env.today, IndexOf(Claims(env, excs)), looks[i].f) <==> Covered(env, excs, vulns[i]))
    {
      FirstLooks(env, vulns, i);
      if Keyed(env, vulns[i]) {
        ExcusedIsCovered(env, excs, vulns[i]);
      }
    }
  }

  lemma FirstLooks(env: Env, vulns: seq<Vuln>, i: nat)
    requires i < |vulns|
    ensures First(LookKeys(Looks(env, vulns)), i) <==> FirstSeen(env, vulns, i)
  {
    var keys := LookKeys(Looks(env, vulns));
    LooksExact(env, vulns);
    if FirstSeen(env, vulns, i) {
      assert forall j :: 0 <= j < i ==> keys[..i][j] == keys[j] != keys[i];
    }
    if First(keys, i) {
      assert forall j :: 0 <= j < i ==> keys[..i][j] == keys[j];
    }
  }

  // ----- how far the order matters for the exit code

  /** Its severity can be read, and it has an advisory if it is relevant. */
  ghost predicate Fine(env: Env, v: Vuln) {
    Readable(env, v) && (Relevant(env, v) ==> VulnKey(env, v).advisory != "")
  }

  ghost predicate EveryFindingCovered(env: Env, excs: seq<Record>, vulns: seq<Vuln>) {
    forall v :: v in vulns ==> Fine(env, v) && (Keyed(env, v) ==> Covered(env, excs, v))
  }

  ghost predicate KeyCovered(env: Env, excs: seq<Record>, vulns: seq<Vuln>, key: Key) {
    exists w :: w in vulns && Keyed(env, w) && VulnKey(env, w) == key && Covered(env, excs, w)
  }

  ghost predicate EveryKeyCovered(env: Env, excs: seq<Record>, vulns: seq<Vuln>) {
    forall v :: v in vulns ==> Fine(env, v) && (Keyed(env, v) ==> KeyCovered(env, excs, vulns, VulnKey(env, v)))
  }

  lemma {:induction false} SeenFirst(env: Env, vulns: seq<Vuln>, p: nat)
    requires p < |vulns| && Keyed(env, vulns[p])
    ensures exists i :: 0 <= i <= p && FirstSeen(env, vulns, i) && VulnKey(env, vulns[i]) == VulnKey(env, vulns[p])
  {
    if !FirstSeen(env, vulns, p) {
      var j :| 0 <= j < p && Keyed(env, vulns[j]) && VulnKey(env, vulns[j]) == VulnKey(env, vulns[p]);
      SeenFirst(env, vulns, j);
    }
  }

  /** In any order: enough that every finding is covered, needed that every key is. */
  lemma OrderBounds(env: Env, excs: seq<Record>, vulns: seq<Vuln>)
    ensures EveryFindingCovered(env, excs, vulns) ==> VulnsCovered(env, excs, vulns)
    ensures VulnsCovered(env, excs, vulns) ==> EveryKeyCovered(env, excs, vulns)
  {
    assert forall i :: 0 <= i < |vulns| ==> vulns[i] in vulns;
    if VulnsCovered(env, excs, vulns) {
      forall p | 0 <= p < |vulns| ensures Fine(env, vulns[p]) && (Keyed(env, vulns[p]) ==> KeyCovered(env, excs, vulns, VulnKey(env, vulns[p]))) {
        if Keyed(env, vulns[p]) {
          SeenFirst(env, vulns, p);
          var i :| 0 <= i <= p && FirstSeen(env, vulns, i) && VulnKey(env, vulns[i]) == VulnKey(env, vulns[p]);
          assert vulns[i] in vulns;
        }
      }
    }
  }

  ghost function Sift(vulns: seq<Vuln>, p: Vuln -> bool): seq<Vuln> {
    if vulns == [] then [] else (if p(vulns[0]) then [vulns[0]] else []) + Sift(vulns[1..], p)
  }

  lemma {:induction false} SiftMembers(vulns: seq<Vuln>, p: Vuln -> bool)
    ensures forall v :: v in Sift(vulns, p) <==> v in vulns && p(v)
  {
    if vulns != [] {
      SiftMembers(vulns[1..], p);
      assert vulns == [vulns[0]] + vulns[1..];
    }
  }

  lemma {:induction false} SiftPermutes(vulns: seq<Vuln>, p: Vuln -> bool, q: Vuln -> bool)
    requires forall v :: p(v) <==> !q(v)
    ensures multiset(Sift(vulns, p) + Sift(vulns, q)) == multiset(vulns)
  {
    if vulns != [] {
      SiftPermutes(vulns[1..], p, q);
      assert vulns == [vulns[0]] + vulns[1..];
    }
  }

  ghost function CoveredFirst(env: Env, excs: seq<Record>, vulns: seq<Vuln>): seq<Vuln> {
    Sift(vulns, v => Covered(env, excs, v)) + Sift(vulns, v => !Covered(env, excs, v))
  }

  ghost function CoveredLast(env: Env, excs: seq<Record>, vulns: seq<Vuln>): seq<Vuln> {
    Sift(vulns, v => !Covered(env, excs, v)) + Sift(vulns, v => Covered(env, excs, v))
  }

  lemma FirstSeenLeads(env: Env, vulns: seq<Vuln>, i: nat, j: nat)
    requires i < |vulns| && j < |vulns| && FirstSeen(env, vulns, i)
    requires Keyed(env, vulns[j]) && VulnKey(env, vulns[j]) == VulnKey(env, vulns[i])
    ensures i <= j
  {
  }

  /** With a cover per key in front, every first finding is covered. */
  lemma FrontLeads(env: Env, excs: seq<Record>, front: seq<Vuln>, back: seq<Vuln>, i: nat)
    requires i < |front + back| && FirstSeen(env, front + back, i)
    requires KeyCovered(env, excs, front, VulnKey(env, (front + back)[i])) && forall v :: v in front ==> Covered(env, excs, v)
    ensures Covered(env, excs, (front + back)[i])
  {
    var order := front + back;
    var w :| w in front && Keyed(env, w) && VulnKey(env, w) == VulnKey(env, order[i]);
    var j :| 0 <= j < |front| && front[j] == w;
    assert order[j] == w;
    FirstSeenLeads(env, order, i, j);
    assert order[i] == front[i];
  }

  /** The best order needs a cover per key only. */
  lemma BestOrder(env: Env, excs: seq<Record>, vulns: seq<Vuln>)
    ensures multiset(CoveredFirst(env, excs, vulns)) == multiset(vulns)
    ensures VulnsCovered(env, excs, CoveredFirst(env, excs, vulns)) <==> EveryKeyCovered(env, excs, vulns)
  {
    var order := CoveredFirst(env, excs, vulns);
    SiftPermutes(vulns, v => Covered(env, excs, v), v => !Covered(env, excs, v));
    SameMembers(order, vulns);
    if EveryKeyCovered(env, excs, vulns) {
      BestPasses(env, excs, vulns);
    }
    OrderBounds(env, excs, order);
    if EveryKeyCovered(env, excs, order) {
      EveryKeySame(env, excs, order, vulns);
    }
  }

  lemma BestPasses(env: Env, excs: seq<Record>, vulns: seq<Vuln>)
    requires EveryKeyCovered(env, excs, vulns)
    requires forall v :: v in CoveredFirst(env, excs, vulns) <==> v in vulns
    ensures VulnsCovered(env, excs, CoveredFirst(env, excs, vulns))
  {
    var front, back := Sift(vulns, v => Covered(env, excs, v)), Sift(vulns, v => !Covered(env, excs, v));
    var order := front + back;
    SiftMembers(vulns, v => Covered(env, excs, v));
    forall i | 0 <= i < |order| && FirstSeen(env, order, i) ensures Covered(env, excs, order[i]) {
      assert KeyCovered(env, excs, vulns, VulnKey(env, order[i]));
      assert KeyCovered(env, excs, front, VulnKey(env, order[i]));
      FrontLeads(env, excs, front, back, i);
    }
    forall i | 0 <= i < |order| ensures Fine(env, order[i]) {
      assert order[i] in vulns;
    }
  }

  lemma EveryKeySame(env: Env, excs: seq<Record>, vulns: seq<Vuln>, others: seq<Vuln>)
    requires EveryKeyCovered(env, excs, vulns) && forall v :: v in vulns <==> v in others
    ensures EveryKeyCovered(env, excs, others)
  {
    forall v | v in others && Keyed(env, v) ensures KeyCovered(env, excs, others, VulnKey(env, v)) {
      assert KeyCovered(env, excs, vulns, VulnKey(env, v));
    }
  }

  /** The worst order needs a cover per finding. */
  lemma WorstOrder(env: Env, excs: seq<Record>, vulns: seq<Vuln>)
    ensures multiset(CoveredLast(env, excs, vulns)) == multiset(vulns)
    ensures VulnsCovered(env, excs, CoveredLast(env, excs, vulns)) <==> EveryFindingCovered(env, excs, vulns)
  {
    var order := CoveredLast(env, excs, vulns);
    SiftPermutes(vulns, v => !Covered(env, excs, v), v => Covered(env, excs, v));
    SameMembers(order, vulns);
    OrderBounds(env, excs, order);
    if VulnsCovered(env, excs, order) {
      WorstNeedsAll(env, excs, vulns);
    }
  }

  lemma WorstNeedsAll(env: Env, excs: seq<Record>, vulns: seq<Vuln>)
    requires VulnsCovered(env, excs, CoveredLast(env, excs, vulns))
    requires forall v :: v in CoveredLast(env, excs, vulns) <==> v in vulns
    ensures EveryFindingCovered(env, excs, vulns)
  {
    var front, back := Sift(vulns, v => !Covered(env, excs, v)), Sift(vulns, v => Covered(env, excs, v));
    SiftMembers(vulns, v => !Covered(env, excs, v));
    forall p | 0 <= p < |front| ensures !Keyed(env, front[p]) {
      if Keyed(env, front[p]) {
        UncoveredLeads(env, excs, front, back, p);
      }
    }
    forall v | v in vulns ensures Fine(env, v) && (Keyed(env, v) ==> Covered(env, excs, v)) {
      var k :| 0 <= k < |front + back| && (front + back)[k] == v;
      assert !Covered(env, excs, v) ==> v in front;
    }
  }

  lemma UncoveredLeads(env: Env, excs: seq<Record>, front: seq<Vuln>, back: seq<Vuln>, p: nat)
    requires p < |front| && Keyed(env, front[p]) && forall v :: v in front ==> !Covered(env, excs, v)
    ensures !VulnsCovered(env, excs, front + back)
  {
    var order := front + back;
    SeenFirst(env, order, p);
    var i :| 0 <= i <= p && FirstSeen(env, order, i) && VulnKey(env, order[i]) == VulnKey(env, order[p]);
    assert order[i] == front[i];
  }

  /**
   The exit code is the same for every order of the entries exactly when a cover for every key means a cover for
   every finding. Findings with equal keys and equal severities are covered alike, so then it always is.
   */
  lemma OrderIrrelevant(env: Env, excs: seq<Record>, vulns: seq<Vuln>)
    ensures (forall others :: multiset(others) == multiset(vulns) ==> (VulnsCovered(env, excs, others) <==> VulnsCovered(env, excs, vulns)))
      <==> (EveryKeyCovered(env, excs, vulns) ==> EveryFindingCovered(env, excs, vulns))
  {
    BestOrder(env, excs, vulns);
    WorstOrder(env, excs, vulns);
    OrderBounds(env, excs, vulns);
    forall others | multiset(others) == multiset(vulns)
      ensures EveryFindingCovered(env, excs, vulns) ==> VulnsCovered(env, excs, others)
      ensures VulnsCovered(env, excs, others) ==> EveryKeyCovered(env, excs, vulns)
    {
      SameMembers(others, vulns);
      OrderBounds(env, excs, others);
      if EveryKeyCovered(env, excs, others) {
        EveryKeySame(env, excs, others, vulns);
      }
    }
  }

  lemma EqualSeverities(env: Env, excs: seq<Record>, vulns: seq<Vuln>)
    requires forall v, w :: v in vulns && w in vulns && Keyed(env, v) && Keyed(env, w) && VulnKey(env, v) == VulnKey(env, w) ==> Severity(env, v) == Severity(env, w)
    ensures EveryKeyCovered(env, excs, vulns) ==> EveryFindingCovered(env, excs, vulns)
  {
    if EveryKeyCovered(env, excs, vulns) {
      forall v | v in vulns && Keyed(env, v) ensures Covered(env, excs, v) {
        assert KeyCovered(env, excs, vulns, VulnKey(env, v));
        var w :| w in vulns && Keyed(env, w) && VulnKey(env, w) == VulnKey(env, v) && Covered(env, excs, w);
        var exc :| exc in excs && Covers(env, exc, w);
        assert Covers(env, exc, v);
      }
    }
  }

  /** Otherwise the order can decide: one advisory reported as high and as critical, with an exception for high. */
  lemma OrderDecides(env: Env, exc: Record, high: Vuln, critical: Vuln)
    requires Keyed(env, high) && Keyed(env, critical) && VulnKey(env, high) == VulnKey(env, critical)
    requires Covers(env, exc, high) && RuleOf(env, exc).severity != "" && Severity(env, critical) != Severity(env, high)
    ensures VulnsCovered(env, [exc], [high, critical]) && !VulnsCovered(env, [exc], [critical, high])
  {
    var good, bad := [high, critical], [critical, high];
    assert exc in [exc] && Covered(env, [exc], high) && !Covered(env, [exc], critical);
    assert FirstSeen(env, bad, 0);
    assert good[0] == high && good[1] == critical;
    assert Keyed(env, good[0]) && VulnKey(env, good[0]) == VulnKey(env, good[1]);
  }

  lemma StripWord(s: string)
    requires s != "" && !Space(s[0]) && !Space(s[|s| - 1])
    ensures Strip(s) == s
  {
  }

  // ----- the severity of an exception

  /** Strings that str.lower leaves as they are. */
  ghost predicate LowersHigh(env: Env) {
    env.lower("high") == "high" && env.lower("critical") == "critical"
  }

  /**
   An exception that has not run out covers every finding with its key exactly when its severity is empty after
   normalizing; with a lower-casing that empties nothing, exactly when it is blank.
   */
  lemma BlankSeverityFitsAll(env: Env, exc: Record)
    requires LowersHigh(env) && Usable(env, exc) && RuleOf(env, exc).expires >= env.today
    ensures (forall v :: Keyed(env, v) && VulnKey(env, v) == KeyOf(env, exc) ==> Covers(env, exc, v)) <==> RuleOf(env, exc).severity == ""
    ensures (forall s :: env.lower(s) == "" <==> s == "") ==> (RuleOf(env, exc).severity == "" <==> Blank(FieldOf(exc, "severity")))
  {
    StripBlank(FieldOf(exc, "severity"));
    if RuleOf(env, exc).severity != "" {
      var severity := if RuleOf(env, exc).severity == "high" then "critical" else "high";
      var other := Vuln(Json.Str(FieldOf(exc, "package")), Json.Str(severity), Json.Str(FieldOf(exc, "advisory")));
      CompleteHas(exc);
      StripWord("high");
      StripWord("critical");
      assert Keyed(env, other) && VulnKey(env, other) == KeyOf(env, exc);
      assert !Covers(env, exc, other);
    }
  }
}

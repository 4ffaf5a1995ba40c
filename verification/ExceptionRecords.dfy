/**
 The records of an exception file, from its classified lines: one block per opening line. A parser with one
 open record is proved against this definition by blocks.
 */
module ExceptionRecords {
  import opened Collections

  type Record = map<string, string>

  datatype Entry = Entry(key: string, value: string)

  /** A line opens a record, with the entry behind its dash (None when that has no colon); or sets a key; or adds nothing. */
  datatype Line = Opens(entry: Option<Entry>) | Sets(setting: Entry) | Nothing

  /** `current[key] = value` */
  function Put(record: Record, entry: Entry): (r: Record)
    ensures Truthy(r)
  {
    var r := record[entry.key := entry.value];
    assert entry.key in r;
    r
  }

  predicate Truthy(record: Record) {
    record != map[]
  }

  /** The number of lines before the next one that opens a record. */
  function Width(lines: seq<Line>): (n: nat)
    ensures n <= |lines| && (n < |lines| ==> lines[n].Opens?)
    ensures forall i :: 0 <= i < n ==> !lines[i].Opens?
  {
    if lines == [] || lines[0].Opens? then 0 else Width(lines[1..]) + 1
  }

  function Apply(record: Record, line: Line): Record {
    if line.Sets? then Put(record, line.setting) else record
  }

  /** The entries of the lines, added to a record in order. */
  function Filled(record: Record, lines: seq<Line>): Record
    decreases |lines|
  {
    if lines == [] then record else Filled(Apply(record, lines[0]), lines[1..])
  }

  /** Drops the lines up to the next opening one. */
  function Rest(lines: seq<Line>): seq<Line> {
    lines[Width(lines)..]
  }

  function Block(lines: seq<Line>): seq<Line> {
    lines[..Width(lines)]
  }

  /**
   The file by blocks: what stands before the first opening line is ignored; then one record per opening line,
   filled from the lines up to the next one. None when an opening line has no colon.
   */
  function Records(lines: seq<Line>): Option<seq<Record>>
    decreases |lines|
  {
    var onward := Rest(lines);
    if onward == [] then Some([])
    else
      var first, body := onward[0].entry, onward[1..];
      var others := Records(Rest(body));
      if first.None? || others.None? then None
      else Some([Filled(Put(map[], first.value), Block(body))] + others.value)
  }

  // ----- the parser's state

  /** The records finished so far, and the open one. */
  datatype Parse = Parse(done: seq<Record>, current: Option<Record>)

  predicate NoEmptyRecord(p: Parse) {
    p.current.Some? ==> Truthy(p.current.value)
  }

  function Finished(p: Parse): seq<Record> {
    if p.current.Some? then p.done + [p.current.value] else p.done
  }

  /** What a line does to the parse. */
  function NextParse(p: Parse, line: Line): Option<Parse> {
    match line
    case Opens(entry) => if entry.None? then None else Some(Parse(Finished(p), Some(Put(map[], entry.value))))
    case Sets(entry) => if p.current.None? then Some(p) else Some(Parse(p.done, Some(Put(p.current.value, entry))))
    case Nothing => Some(p)
  }

  /** What the parse comes to when these lines follow. */
  ghost function Whole(p: Parse, lines: seq<Line>): Option<seq<Record>> {
    var others := Records(Rest(lines));
    if others.None? then None
    else if p.current.None? then Some(p.done + others.value)
    else Some(p.done + ([Filled(p.current.value, Block(lines))] + others.value))
  }

  lemma RestOfRest(lines: seq<Line>)
    ensures Width(Rest(lines)) == 0 && Rest(Rest(lines)) == Rest(lines)
    ensures Records(Rest(lines)) == Records(lines)
  {
    assert Rest(lines)[0..] == Rest(lines);
  }

  lemma WholeStarts(lines: seq<Line>)
    ensures Whole(Parse([], None), lines) == Records(lines)
  {
    RestOfRest(lines);
    if Records(lines).Some? {
      assert [] + Records(lines).value == Records(lines).value;
    }
  }

  lemma WholeEnds(p: Parse)
    ensures Whole(p, []) == Some(Finished(p))
  {
    var lines: seq<Line> := [];
    assert Width(lines) == 0 && Rest(lines) == [] && Block(lines) == [];
    var none: seq<Record> := [];
    assert Records(lines) == Some(none);
    assert p.done + none == p.done;
    assert p.current.Some? ==> Filled(p.current.value, Block(lines)) == p.current.value;
    assert p.current.Some? ==> p.done + ([p.current.value] + none) == p.done + [p.current.value];
  }

  /** A line that opens nothing belongs to the block in front of it. */
  lemma WidthCons(line: Line, lines: seq<Line>)
    ensures !line.Opens? ==> Rest([line] + lines) == Rest(lines) && Block([line] + lines) == [line] + Block(lines)
    ensures line.Opens? ==> Rest([line] + lines) == [line] + lines && Block([line] + lines) == []
  {
    var all := [line] + lines;
    assert all[1..] == lines;
    if !line.Opens? {
      assert Width(all) == Width(lines) + 1;
      assert all[Width(all)..] == lines[Width(lines)..];
    } else {
      assert Width(all) == 0;
    }
  }

  lemma FilledCons(record: Record, line: Line, lines: seq<Line>)
    ensures Filled(record, [line] + lines) == Filled(Apply(record, line), lines)
  {
    assert ([line] + lines)[1..] == lines;
  }

  lemma RecordsCons(entry: Option<Entry>, lines: seq<Line>)
    ensures var others := Records(Rest(lines));
            Records([Opens(entry)] + lines) ==
            if entry.None? || others.None? then None
            else Some([Filled(Put(map[], entry.value), Block(lines))] + others.value)
  {
    WidthCons(Opens(entry), lines);
    assert ([Opens(entry)] + lines)[1..] == lines;
  }

  lemma SnocAppend(done: seq<Record>, record: Record, more: seq<Record>)
    ensures (done + [record]) + more == done + ([record] + more)
  {
  }

  /** A line takes its effect on the parse away from what is still to come. */
  lemma WholeStep(p: Parse, line: Line, lines: seq<Line>)
    ensures Whole(p, [line] + lines) == if NextParse(p, line).None? then None else Whole(NextParse(p, line).value, lines)
  {
    WidthCons(line, lines);
    match line
    case Opens(entry) => {
      RecordsCons(entry, lines);
      RestOfRest(lines);
      var others := Records(Rest(lines));
      if entry.Some? && others.Some? && p.current.Some? {
        var onward := [Filled(Put(map[], entry.value), Block(lines))] + others.value;
        assert Filled(p.current.value, Block([line] + lines)) == p.current.value;
        SnocAppend(p.done, p.current.value, onward);
      }
    }
    case _ => {
      if p.current.Some? {
        FilledCons(p.current.value, line, Block(lines));
      }
    }
  }

  /** The same, at position `i` of the file. */
  ghost function At(p: Parse, lines: seq<Line>, i: nat): Option<seq<Record>>
    requires i <= |lines|
  {
    Whole(p, lines[i..])
  }

  lemma AtStart(lines: seq<Line>)
    ensures At(Parse([], None), lines, 0) == Records(lines)
  {
    assert lines[0..] == lines;
    WholeStarts(lines);
  }

  lemma AtStep(p: Parse, lines: seq<Line>, i: nat)
    requires i < |lines|
    ensures At(p, lines, i) == if NextParse(p, lines[i]).None? then None else At(NextParse(p, lines[i]).value, lines, i + 1)
  {
    assert lines[i..] == [lines[i]] + lines[i + 1..];
    WholeStep(p, lines[i], lines[i + 1..]);
  }

  lemma AtEnd(p: Parse, lines: seq<Line>)
    ensures At(p, lines, |lines|) == Some(Finished(p))
  {
    assert lines[|lines|..] == [];
    WholeEnds(p);
  }

  // ----- what the parser loses and keeps

  /** The opening lines. */
  ghost function Openings(lines: seq<Line>): (r: seq<Option<Entry>>) {
    if lines == [] then [] else (if lines[0].Opens? then [lines[0].entry] else []) + Openings(lines[1..])
  }

  lemma {:induction false} OpeningsOfRest(lines: seq<Line>)
    ensures Openings(Rest(lines)) == Openings(lines)
  {
    RestSkips(lines);
    if lines != [] && !lines[0].Opens? {
      OpeningsOfRest(lines[1..]);
      OpeningsSkip(lines);
    }
  }

  lemma RestSkips(lines: seq<Line>)
    ensures Rest(lines) == if lines != [] && !lines[0].Opens? then Rest(lines[1..]) else lines
  {
  }

  lemma OpeningsSkip(lines: seq<Line>)
    requires lines != [] && !lines[0].Opens?
    ensures Openings(lines) == Openings(lines[1..])
  {
  }

  /** The opening lines are the first one and those of the rest. */
  lemma OpeningsSplit(lines: seq<Line>)
    requires Rest(lines) != []
    ensures Openings(lines) == [Rest(lines)[0].entry] + Openings(Rest(Rest(lines)[1..]))
  {
    OpeningsOfRest(lines);
    OpeningsOfRest(Rest(lines)[1..]);
  }

  /** Parsing fails exactly when an opening line has no colon. */
  lemma {:induction false} FailsWithoutColon(lines: seq<Line>)
    ensures Records(lines).None? <==> None in Openings(lines)
    decreases |lines|
  {
    var onward := Rest(lines);
    if onward != [] {
      OpeningsSplit(lines);
      FailsWithoutColon(Rest(onward[1..]));
    } else {
      OpeningsOfRest(lines);
    }
  }

  /** Otherwise there is one record, never empty, per opening line. */
  lemma {:induction false} OneRecordPerOpening(lines: seq<Line>)
    requires Records(lines).Some?
    ensures |Records(lines).value| == |Openings(lines)| && forall record :: record in Records(lines).value ==> Truthy(record)
    decreases |lines|
  {
    var onward := Rest(lines);
    if onward != [] {
      OpeningsSplit(lines);
      OneRecordPerOpening(Rest(onward[1..]));
      FilledKeeps(Put(map[], onward[0].entry.value), Block(onward[1..]));
    } else {
      OpeningsOfRest(lines);
    }
  }

  lemma {:induction false} FilledKeeps(record: Record, lines: seq<Line>)
    requires Truthy(record)
    ensures Truthy(Filled(record, lines))
    decreases |lines|
  {
    if lines != [] {
      FilledKeeps(Apply(record, lines[0]), lines[1..]);
    }
  }

  predicate SetsKey(line: Line, key: string) {
    line.Sets? && line.setting.key == key
  }

  /** `lines[i]` is the last line that sets `key`. */
  ghost predicate SetsLast(lines: seq<Line>, key: string, i: nat)
    requires i < |lines|
  {
    SetsKey(lines[i], key) && forall j :: i < j < |lines| ==> !SetsKey(lines[j], key)
  }

  /** Lines that do not set a key leave it alone. */
  lemma {:induction false} FilledUnset(record: Record, lines: seq<Line>, key: string)
    requires forall i :: 0 <= i < |lines| ==> !SetsKey(lines[i], key)
    ensures key in Filled(record, lines) <==> key in record
    ensures key in record ==> Filled(record, lines)[key] == record[key]
    decreases |lines|
  {
    if lines != [] {
      assert !SetsKey(lines[0], key);
      FilledUnset(Apply(record, lines[0]), lines[1..], key);
    }
  }

  /** A key's value is the one on the last line of the block that sets it. */
  lemma {:induction false} FilledLookup(record: Record, lines: seq<Line>, key: string, i: nat)
    requires i < |lines| && SetsLast(lines, key, i)
    ensures key in Filled(record, lines) && Filled(record, lines)[key] == lines[i].setting.value
    decreases |lines|
  {
    var next, rest := Apply(record, lines[0]), lines[1..];
    if i == 0 {
      assert next[key] == lines[0].setting.value;
      FilledUnset(next, rest, key);
    } else {
      assert SetsLast(rest, key, i - 1);
      FilledLookup(next, rest, key, i - 1);
    }
  }

  /** A line that adds nothing can be left out anywhere. */
  lemma {:induction false} NothingIsNeutral(p: Parse, before: seq<Line>, after: seq<Line>)
    ensures Whole(p, before + ([Nothing] + after)) == Whole(p, before + after)
    decreases |before|
  {
    if before == [] {
      assert before + ([Nothing] + after) == [Nothing] + after && before + after == after;
      WholeStep(p, Nothing, after);
    } else {
      Uncons(before, [Nothing] + after);
      Uncons(before, after);
      WholeStep(p, before[0], before[1..] + ([Nothing] + after));
      WholeStep(p, before[0], before[1..] + after);
      if NextParse(p, before[0]).Some? {
        NothingIsNeutral(NextParse(p, before[0]).value, before[1..], after);
      }
    }
  }

  lemma NothingAnywhere(before: seq<Line>, after: seq<Line>)
    ensures Records(before + ([Nothing] + after)) == Records(before + after)
  {
    NothingIsNeutral(Parse([], None), before, after);
    WholeStarts(before + ([Nothing] + after));
    WholeStarts(before + after);
  }

  lemma Uncons(a: seq<Line>, b: seq<Line>)
    requires a != []
    ensures a + b == [a[0]] + (a[1..] + b)
  {
  }

  // ----- records as lists of entries

  /** The lines a list of non-empty records is written on. */
  function Written(records: seq<seq<Entry>>): seq<Line> {
    if records == [] then [] else WrittenRecord(records[0]) + Written(records[1..])
  }

  function WrittenRecord(entries: seq<Entry>): seq<Line> {
    if entries == [] then [] else [Opens(Some(entries[0]))] + AllSet(entries[1..])
  }

  function AllSet(entries: seq<Entry>): (r: seq<Line>)
    ensures |r| == |entries| && forall i :: 0 <= i < |r| ==> r[i] == Sets(entries[i])
  {
    seq(|entries|, i requires 0 <= i < |entries| => Sets(entries[i]))
  }

  /** The dictionary the entries stand for. */
  function AsRecord(record: Record, entries: seq<Entry>): Record
    decreases |entries|
  {
    if entries == [] then record else AsRecord(Put(record, entries[0]), entries[1..])
  }

  function AsRecords(records: seq<seq<Entry>>): (r: seq<Record>)
    ensures |r| == |records| && forall i :: 0 <= i < |r| ==> r[i] == AsRecord(map[], records[i])
  {
    seq(|records|, i requires 0 <= i < |records| => AsRecord(map[], records[i]))
  }

  lemma WrittenAt(entries: seq<Entry>)
    requires entries != []
    ensures |WrittenRecord(entries)| == |entries| && WrittenRecord(entries)[0] == Opens(Some(entries[0]))
    ensures forall i :: 0 < i < |entries| ==> WrittenRecord(entries)[i] == Sets(entries[i])
  {
  }

  lemma AsRecordsCons(records: seq<seq<Entry>>)
    requires records != []
    ensures AsRecords(records) == [AsRecord(map[], records[0])] + AsRecords(records[1..])
  {
  }

  lemma {:induction false} FilledAllSet(record: Record, entries: seq<Entry>)
    ensures Filled(record, AllSet(entries)) == AsRecord(record, entries)
    decreases |entries|
  {
    if entries != [] {
      assert AllSet(entries)[1..] == AllSet(entries[1..]);
      FilledAllSet(Put(record, entries[0]), entries[1..]);
    }
  }

  lemma AllSetCons(entries: seq<Entry>)
    requires entries != []
    ensures AllSet(entries) == [Sets(entries[0])] + AllSet(entries[1..])
  {
  }

  lemma ConsAppend(x: Line, a: seq<Line>, b: seq<Line>)
    ensures ([x] + a) + b == [x] + (a + b)
  {
  }

  lemma {:induction false} BlockOfSets(entries: seq<Entry>, lines: seq<Line>)
    requires Rest(lines) == lines
    ensures Block(AllSet(entries) + lines) == AllSet(entries) && Rest(AllSet(entries) + lines) == lines
  {
    if entries == [] {
      assert AllSet(entries) + lines == lines;
    } else {
      var first, others := Sets(entries[0]), AllSet(entries[1..]);
      BlockOfSets(entries[1..], lines);
      AllSetCons(entries);
      ConsAppend(first, others, lines);
      WidthCons(first, others + lines);
    }
  }

  lemma WrittenStarts(records: seq<seq<Entry>>)
    requires forall i :: 0 <= i < |records| ==> records[i] != []
    ensures Rest(Written(records)) == Written(records)
  {
    if records != [] {
      assert Written(records)[0] == WrittenRecord(records[0])[0];
    }
    assert Width(Written(records)) == 0;
  }

  /** Parsing what was written gives the records back, in order, none lost and none merged. */
  lemma {:induction false} WrittenRoundTrip(records: seq<seq<Entry>>)
    requires forall i :: 0 <= i < |records| ==> records[i] != []
    ensures Records(Written(records)) == Some(AsRecords(records))
  {
    if records == [] {
      WholeEnds(Parse([], None));
      WholeStarts([]);
    } else {
      var first, rest := records[0], records[1..];
      WrittenRoundTrip(rest);
      WrittenStarts(rest);
      BlockOfSets(first[1..], Written(rest));
      ConsAppend(Opens(Some(first[0])), AllSet(first[1..]), Written(rest));
      RecordsCons(Some(first[0]), AllSet(first[1..]) + Written(rest));
      FilledAllSet(Put(map[], first[0]), first[1..]);
      AsRecordsCons(records);
    }
  }
}

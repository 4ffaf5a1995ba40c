/**
 The audit exception file as text: stripping, splitting a line at its colon, classifying lines, the parser loop,
 and a printer that the parser inverts.
 */
module ExceptionFile {
  import opened Collections
  import opened ExceptionRecords

  // ----- strip and split_kv

  /** What str.strip removes. */
  predicate Space(c: char) {
    || '\t' <= c <= '\r' || '\U{1c}' <= c <= ' ' || c == '\U{85}' || c == '\U{a0}' || c == '\U{1680}'
    || '\U{2000}' <= c <= '\U{200a}' || c == '\U{2028}' || c == '\U{2029}' || c == '\U{202f}' || c == '\U{205f}' || c == '\U{3000}'
  }

  function Strip(s: string): (r: string)
    ensures Trimmed(r)
    ensures |r| <= |s|
  {
    if s == "" then ""
    else if Space(s[0]) then Strip(s[1..])
    else if Space(s[|s| - 1]) then Strip(s[..|s| - 1])
    else s
  }

  ghost predicate Trimmed(s: string) {
    s == "" || (!Space(s[0]) && !Space(s[|s| - 1]))
  }

  ghost predicate Blank(s: string) {
    forall i :: 0 <= i < |s| ==> Space(s[i])
  }

  /** Strip removes exactly the blank ends. */
  lemma {:induction false} StripPadded(left: string, s: string, right: string)
    requires Blank(left) && Blank(right) && Trimmed(s)
    ensures Strip(left + s + right) == s
    decreases |left| + |right|
  {
    var padded := left + s + right;
    if left != "" {
      assert padded[1..] == left[1..] + s + right;
      StripPadded(left[1..], s, right);
    } else if right != "" {
      var n := |right| - 1;
      assert padded[|padded| - 1] == right[n];
      if s == "" {
        assert padded == right && padded[1..] == "" + s + right[1..];
        StripPadded("", s, right[1..]);
      } else {
        assert padded[..|padded| - 1] == "" + s + right[..n];
        StripPadded("", s, right[..n]);
      }
    } else {
      assert padded == s;
    }
  }

  lemma {:induction false} StripBlank(s: string)
    ensures Strip(s) == "" <==> Blank(s)
  {
    if s != "" {
      if Space(s[0]) {
        StripBlank(s[1..]);
        assert forall i :: 0 < i < |s| ==> s[i] == s[1..][i - 1];
      } else if Space(s[|s| - 1]) {
        StripBlank(s[..|s| - 1]);
        assert s[..|s| - 1] != "" ==> s[..|s| - 1][0] == s[0];
      }
    }
  }

  predicate StartsWith(s: string, prefix: string) {
    |prefix| <= |s| && s[..|prefix|] == prefix
  }

  predicate EndsWith(s: string, suffix: string) {
    |suffix| <= |s| && s[|s| - |suffix|..] == suffix
  }

  /** The position of the first colon. */
  function FirstColon(line: string): (r: Option<nat>)
    ensures r.None? <==> ':' !in line
    ensures r.Some? ==> r.value < |line| && line[r.value] == ':' && ':' !in line[..r.value]
  {
    if line == "" then None
    else if line[0] == ':' then Some(0)
    else
      var rest := FirstColon(line[1..]);
      assert line == [line[0]] + line[1..];
      if rest.None? then None
      else
        assert line[..rest.value + 1] == [line[0]] + line[1..][..rest.value];
        Some(rest.value + 1)
  }

  predicate Quoted(value: string) {
    || (StartsWith(value, "\"") && EndsWith(value, "\""))
    || (StartsWith(value, "'") && EndsWith(value, "'"))
  }

  /** `value[1:-1]`: nothing is left of a lone quote. */
  function Unquoted(value: string): string {
    if Quoted(value) then (if |value| < 2 then "" else value[1..|value| - 1]) else value
  }

  /** split_kv: unpacking fails without a colon. */
  function SplitKv(line: string): Option<Entry> {
    var colon := FirstColon(line);
    if colon.None? then None
    else Some(Entry(Strip(line[..colon.value]), Unquoted(Strip(line[colon.value + 1..]))))
  }

  /** The first colon is the one that separates. */
  lemma {:induction false} ColonAfter(key: string, rest: string)
    requires ':' !in key
    ensures FirstColon(key + ":" + rest) == Some(|key|)
  {
    var line := key + ":" + rest;
    if key != "" {
      assert line[1..] == key[1..] + ":" + rest;
      ColonAfter(key[1..], rest);
      assert line[0] == key[0] && key[0] in key;
    }
  }

  /** Which values stand for themselves; among the others are a lone quote and a quoted word. */
  lemma PlainValues(value: string)
    ensures Unquoted(Strip(value)) == value <==> Trimmed(value) && !Quoted(value)
  {
    if Trimmed(value) {
      StripTrimmed(value);
    }
  }

  // ----- the parser

  predicate Skipped(line: string) {
    line == "" || StartsWith(line, "#") || StartsWith(line, "version:") || StartsWith(line, "exceptions:")
  }

  /** What a line of the file means to the parser. */
  function ReadLine(raw: string): Line {
    var line := Strip(raw);
    if Skipped(line) then Nothing
    else if StartsWith(line, "- ") then Opens(SplitKv(Strip(line[2..])))
    else
      var entry := SplitKv(line);
      if entry.None? then Nothing else Sets(entry.value)
  }

  function ReadLines(raws: seq<string>): (r: seq<Line>)
    ensures |r| == |raws| && forall i :: 0 <= i < |r| ==> r[i] == ReadLine(raws[i])
  {
    seq(|raws|, i requires 0 <= i < |raws| => ReadLine(raws[i]))
  }

  /** A line that starts a record always has something after its dash: it gives an entry or an error, never an empty record. */
  lemma DashHasText(line: string)
    requires Trimmed(line) && StartsWith(line, "- ")
    ensures Strip(line[2..]) != ""
  {
    var text := line[2..];
    assert line[1] == "- "[1];
    assert text != "" && !Space(text[|text| - 1]);
    StripKeepsEnd(text);
  }

  lemma {:induction false} StripKeepsEnd(s: string)
    requires s != "" && !Space(s[|s| - 1])
    ensures Strip(s) != ""
  {
    if Space(s[0]) {
      StripKeepsEnd(s[1..]);
    }
  }

  /** parse_exceptions over the lines of the file; None stands for the ValueError of split_kv. */
  method ParseExceptions(raws: seq<string>) returns (r: Option<seq<Record>>)
    ensures r == Records(ReadLines(raws))
  {
    var p := Parse([], None);
    ghost var lines := ReadLines(raws);
    AtStart(lines);
    for i := 0 to |raws|
      invariant NoEmptyRecord(p)
      invariant At(p, lines, i) == Records(lines)
    {
      AtStep(p, lines, i);
      var next := ParseLine(p, raws[i]);
      if next.None? {
        return None;
      }
      p := next.value;
    }
    AtEnd(p, lines);
    return Some(if p.current.Some? && Truthy(p.current.value) then p.done + [p.current.value] else p.done);
  }

  /** The body of the loop. */
  method ParseLine(p: Parse, raw: string) returns (next: Option<Parse>)
    requires NoEmptyRecord(p)
    ensures next == NextParse(p, ReadLine(raw)) && (next.Some? ==> NoEmptyRecord(next.value))
  {
    var exceptions, current := p.done, p.current;
    var line := Strip(raw);
    if Skipped(line) {
      return Some(p);
    }
    if StartsWith(line, "- ") {
      if current.Some? && Truthy(current.value) {
        exceptions := exceptions + [current.value];
      }
      current := Some(map[]);
      DashHasText(line);
      line := Strip(line[2..]);
      if line != "" {
        var entry := SplitKv(line);
        if entry.None? {
          return None;
        }
        current := Some(Put(current.value, entry.value));
      }
      return Some(Parse(exceptions, current));
    }
    if current.Some? && ':' in line {
      var entry := SplitKv(line);
      current := Some(Put(current.value, entry.value));
    }
    return Some(Parse(exceptions, current));
  }

  /** A line opens a record exactly when, stripped, it starts with a dash and a space. */
  lemma OpensExactly(raw: string)
    ensures ReadLine(raw).Opens? <==> StartsWith(Strip(raw), "- ")
  {
    var line := Strip(raw);
    if StartsWith(line, "- ") {
      assert line[..2][0] == line[0] == '-';
      HeadDiffers(line, "#");
      HeadDiffers(line, "version:");
      HeadDiffers(line, "exceptions:");
    }
  }

  /** The line splits into this key and value at a colon, the first one. */
  ghost predicate SplitsInto(line: string, entry: Entry) {
    exists c :: 0 <= c < |line| && SplitsAt(line, entry, c)
  }

  ghost predicate SplitsAt(line: string, entry: Entry, c: nat)
    requires c < |line|
  {
    line[c] == ':' && ':' !in line[..c] && entry.key == Strip(line[..c]) && entry.value == Unquoted(Strip(line[c + 1..]))
  }

  lemma FirstColonIs(line: string, c: nat)
    requires c < |line| && line[c] == ':' && ':' !in line[..c]
    ensures FirstColon(line) == Some(c)
  {
    ColonAfter(line[..c], line[c + 1..]);
    SplitAround(line, c);
  }

  lemma SplitAround(line: string, c: nat)
    requires c < |line| && line[c] == ':'
    ensures line == line[..c] + ":" + line[c + 1..]
  {
  }

  lemma SplitExact(line: string)
    ensures SplitKv(line).None? <==> ':' !in line
    ensures forall entry :: SplitsInto(line, entry) <==> SplitKv(line) == Some(entry)
  {
    forall entry ensures SplitsInto(line, entry) <==> SplitKv(line) == Some(entry) {
      SplitsOnce(line, entry);
    }
  }

  lemma SplitsOnce(line: string, entry: Entry)
    ensures SplitsInto(line, entry) <==> SplitKv(line) == Some(entry)
  {
    if SplitKv(line) == Some(entry) {
      assert SplitsAt(line, entry, FirstColon(line).value);
    }
    if SplitsInto(line, entry) {
      var d :| 0 <= d < |line| && SplitsAt(line, entry, d);
      FirstColonIs(line, d);
    }
  }

  /** What a line is for: nothing if it is blank, a comment, a header or has no colon; a key of the open record; or a new one. */
  lemma LineExact(raw: string)
    ensures var line := Strip(raw);
            var opens := StartsWith(line, "- ");
            var idle := line == "" || StartsWith(line, "#") || StartsWith(line, "version:") || StartsWith(line, "exceptions:");
            && (ReadLine(raw) == Nothing <==> idle || (!opens && ':' !in line))
            && (forall entry :: ReadLine(raw) == Sets(entry) <==> !idle && !opens && SplitsInto(line, entry))
            && (forall entry :: ReadLine(raw) == Opens(Some(entry)) <==> opens && SplitsInto(Strip(line[2..]), entry))
            && (ReadLine(raw) == Opens(None) <==> opens && ':' !in Strip(line[2..]))
  {
    var line := Strip(raw);
    OpensExactly(raw);
    SplitExact(line);
    if StartsWith(line, "- ") {
      SplitExact(Strip(line[2..]));
    }
  }

  lemma BareDashIsNothing(raw: string)
    requires Strip(raw) == "-"
    ensures ReadLine(raw) == Nothing
  {
    assert FirstColon("-").None?;
  }

  lemma ReadAround(before: seq<string>, raw: string, after: seq<string>)
    ensures ReadLines(before + [raw] + after) == ReadLines(before) + ([ReadLine(raw)] + ReadLines(after))
    ensures ReadLines(before + after) == ReadLines(before) + ReadLines(after)
  {
  }

  /** A dash with nothing behind it opens no record: wherever it stands, the lines after it go to the record before. */
  lemma BareDashMerges(before: seq<string>, raw: string, after: seq<string>)
    requires Strip(raw) == "-"
    ensures Records(ReadLines(before + [raw] + after)) == Records(ReadLines(before + after))
  {
    BareDashIsNothing(raw);
    ReadAround(before, raw, after);
    NothingAnywhere(ReadLines(before), ReadLines(after));
  }

  // ----- printing, and back

  /** The lines a text file yields: "\r\n", "\r" and "\n" all end one. */
  function Lines(text: string): seq<string>
    decreases |text|
  {
    if text == "" then []
    else
      var n := FirstBreak(text);
      if n == |text| then [text]
      else if StartsWith(text[n..], "\r\n") then [text[..n] + "\n"] + Lines(text[n + 2..])
      else [text[..n] + "\n"] + Lines(text[n + 1..])
  }

  function FirstBreak(text: string): (n: nat)
    ensures n <= |text| && Unbroken(text[..n]) && (n < |text| ==> text[n] == '\n' || text[n] == '\r')
  {
    if text == "" || text[0] == '\n' || text[0] == '\r' then 0
    else
      var n := FirstBreak(text[1..]);
      assert text[..n + 1] == [text[0]] + text[1..][..n];
      n + 1
  }

  predicate Unbroken(s: string) {
    '\n' !in s && '\r' !in s
  }

  datatype Style = Plain | Single | Double

  datatype Field = Field(key: string, value: string, style: Style)

  function EntryOf(f: Field): Entry {
    Entry(f.key, f.value)
  }

  function Shown(f: Field): string {
    match f.style
    case Plain => f.value
    case Single => "'" + f.value + "'"
    case Double => "\"" + f.value + "\""
  }

  function FieldLine(prefix: string, f: Field): string {
    prefix + f.key + ": " + Shown(f)
  }

  /** `- k: v`, then `k: v` lines. */
  function PrintedRecord(fields: seq<Field>): (r: seq<string>)
    ensures |r| == |fields| && forall i :: 0 <= i < |r| ==> r[i] == FieldLine(if i == 0 then "- " else "", fields[i])
  {
    seq(|fields|, i requires 0 <= i < |fields| => FieldLine(if i == 0 then "- " else "", fields[i]))
  }

  function Printed(records: seq<seq<Field>>): seq<string> {
    if records == [] then [] else PrintedRecord(records[0]) + Printed(records[1..])
  }

  function Ended(lines: seq<string>): (r: seq<string>)
    ensures |r| == |lines| && forall i :: 0 <= i < |r| ==> r[i] == lines[i] + "\n"
  {
    seq(|lines|, i requires 0 <= i < |lines| => lines[i] + "\n")
  }

  function TextOf(lines: seq<string>): string {
    if lines == [] then "" else lines[0] + ("\n" + TextOf(lines[1..]))
  }

  /** Colon-free trimmed keys; plain values trimmed and without a pair of quotes, quoted values anything on one line. */
  ghost predicate Printable(f: Field) {
    && ':' !in f.key && Trimmed(f.key) && Unbroken(f.key) && Unbroken(f.value)
    && (f.style.Plain? ==> Trimmed(f.value) && !Quoted(f.value))
  }

  /** A key that is not read as something else at the head of a line. */
  ghost predicate Follows(f: Field) {
    f.key != "version" && f.key != "exceptions" && !StartsWith(f.key, "#") && !StartsWith(f.key, "- ")
  }

  ghost predicate PrintableRecord(fields: seq<Field>) {
    && fields != []
    && (forall i :: 0 <= i < |fields| ==> Printable(fields[i]))
    && (forall i :: 0 < i < |fields| ==> Follows(fields[i]))
  }

  function EntriesOf(fields: seq<Field>): (r: seq<Entry>)
    ensures |r| == |fields| && forall i :: 0 <= i < |r| ==> r[i] == EntryOf(fields[i])
  {
    seq(|fields|, i requires 0 <= i < |fields| => EntryOf(fields[i]))
  }

  function AllEntries(records: seq<seq<Field>>): (r: seq<seq<Entry>>)
    ensures |r| == |records| && forall i :: 0 <= i < |r| ==> r[i] == EntriesOf(records[i])
  {
    seq(|records|, i requires 0 <= i < |records| => EntriesOf(records[i]))
  }

  /** A field's line without the space an empty value leaves behind. */
  ghost function Tidy(f: Field): string {
    f.key + ":" + if Shown(f) == "" then "" else " " + Shown(f)
  }

  lemma TidyTrimmed(f: Field, prefix: string)
    requires Printable(f) && (prefix == "" || prefix == "- ")
    ensures Trimmed(prefix + Tidy(f)) && Strip(FieldLine(prefix, f) + "\n") == prefix + Tidy(f)
  {
    var line, blank := prefix + Tidy(f), if Shown(f) == "" then " \n" else "\n";
    TidyEnds(f);
    assert line[|line| - 1] == Tidy(f)[|Tidy(f)| - 1];
    assert line[0] == if prefix == "" then Tidy(f)[0] else '-';
    StripPadded("", line, blank);
    LineIsTidy(f, prefix);
  }

  lemma LineIsTidy(f: Field, prefix: string)
    ensures FieldLine(prefix, f) + "\n" == "" + (prefix + Tidy(f)) + if Shown(f) == "" then " \n" else "\n"
  {
    var head := prefix + f.key;
    assert prefix + Tidy(f) == head + ":" + if Shown(f) == "" then "" else " " + Shown(f);
    if Shown(f) != "" {
      assert head + ": " + Shown(f) == head + ":" + (" " + Shown(f));
    } else {
      assert head + ": " + "" + "\n" == head + ":" + " \n";
    }
  }

  lemma TidyEnds(f: Field)
    requires Printable(f)
    ensures Trimmed(Tidy(f)) && Tidy(f) != ""
  {
    var line, shown := Tidy(f), Shown(f);
    assert Trimmed(shown);
    if shown == "" {
      assert line == f.key + ":";
    } else {
      assert line == f.key + ": " + shown;
      assert line[|line| - 1] == shown[|shown| - 1];
    }
    assert line[|f.key|] == ':' && (f.key != "" ==> line[0] == f.key[0]);
  }

  lemma StripTrimmed(s: string)
    requires Trimmed(s)
    ensures Strip(s) == s
  {
    StripPadded("", s, "");
    assert "" + s + "" == s;
  }

  /** Unquoting undoes showing. */
  lemma ShownUnquotes(f: Field)
    requires Printable(f)
    ensures Trimmed(Shown(f)) && Unquoted(Shown(f)) == f.value
  {
    var shown := Shown(f);
    assert !f.style.Plain? ==> |shown| == |f.value| + 2 && shown[1..|shown| - 1] == f.value && shown[0] == shown[|shown| - 1];
    assert !f.style.Plain? ==> Quoted(shown);
  }

  /** Splitting undoes showing. */
  lemma TidySplits(f: Field)
    requires Printable(f)
    ensures SplitKv(Tidy(f)) == Some(Entry(f.key, f.value))
  {
    var shown := Shown(f);
    var pad := if shown == "" then "" else " ";
    ShownUnquotes(f);
    ColonAfter(f.key, pad + shown);
    assert Tidy(f) == f.key + ":" + (pad + shown);
    assert Tidy(f)[..|f.key|] == f.key && Tidy(f)[|f.key| + 1..] == pad + shown;
    StripTrimmed(f.key);
    StripPadded(pad, shown, "");
    assert pad + shown + "" == pad + shown;
  }

  /** The first line of a printed record opens it. */
  lemma FirstLine(f: Field)
    requires Printable(f)
    ensures ReadLine(FieldLine("- ", f) + "\n") == Opens(Some(EntryOf(f)))
  {
    TidyTrimmed(f, "- ");
    TidyEnds(f);
    var line := "- " + Tidy(f);
    assert line[..2] == "- " && line[2..] == Tidy(f) && line[0] == '-';
    assert line != "" && !StartsWith(line, "#") && !StartsWith(line, "version:") && !StartsWith(line, "exceptions:") by {
      HeadDiffers(line, "#");
      HeadDiffers(line, "version:");
      HeadDiffers(line, "exceptions:");
    }
    StripTrimmed(Tidy(f));
    TidySplits(f);
  }

  lemma HeadDiffers(line: string, prefix: string)
    requires line != "" && prefix != "" && line[0] != prefix[0]
    ensures !StartsWith(line, prefix)
  {
    if |prefix| <= |line| {
      assert line[..|prefix|][0] == line[0];
    }
  }

  /** Any other line of a printed record sets a key. */
  lemma LaterLine(f: Field)
    requires Printable(f) && Follows(f)
    ensures ReadLine(FieldLine("", f) + "\n") == Sets(EntryOf(f))
  {
    TidyTrimmed(f, "");
    assert "" + Tidy(f) == Tidy(f);
    NotSkipped(f);
    TidySplits(f);
  }

  lemma NotSkipped(f: Field)
    requires Printable(f) && Follows(f)
    ensures !Skipped(Tidy(f)) && !StartsWith(Tidy(f), "- ")
  {
    PrefixInKey(f, "- ");
    PrefixInKey(f, "#");
    var version, exceptions := "version", "exceptions";
    HeaderIsKey(f, version);
    HeaderIsKey(f, exceptions);
    assert version + ":" == "version:" && exceptions + ":" == "exceptions:";
    TidyEnds(f);
  }

  lemma PrefixInKey(f: Field, prefix: string)
    requires prefix == "- " || prefix == "#"
    requires Printable(f)
    ensures StartsWith(Tidy(f), prefix) ==> StartsWith(f.key, prefix)
  {
    if StartsWith(Tidy(f), prefix) {
      assert Tidy(f)[|f.key|] == ':' && ':' !in Tidy(f)[..|prefix|];
      assert Tidy(f)[..|prefix|] == f.key[..|prefix|];
    }
  }

  lemma HeaderIsKey(f: Field, header: string)
    requires ':' !in header && Printable(f)
    ensures StartsWith(Tidy(f), header + ":") ==> f.key == header
  {
    var line := Tidy(f);
    if StartsWith(line, header + ":") {
      var after := if Shown(f) == "" then "" else " " + Shown(f);
      var rest := line[|header| + 1..];
      assert line == f.key + ":" + after;
      assert line == header + ":" + rest;
      ColonAfter(f.key, after);
      ColonAfter(header, rest);
      assert f.key == line[..|f.key|] == line[..|header|] == header;
    }
  }

  /** The printed lines are read as what was to be written. */
  lemma RecordReads(fields: seq<Field>)
    requires PrintableRecord(fields)
    ensures ReadLines(Ended(PrintedRecord(fields))) == WrittenRecord(EntriesOf(fields))
  {
    var lines, entries := ReadLines(Ended(PrintedRecord(fields))), EntriesOf(fields);
    FirstLine(fields[0]);
    forall i | 0 < i < |fields| ensures lines[i] == Sets(entries[i]) {
      LaterLine(fields[i]);
    }
    WrittenAt(entries);
  }

  lemma {:induction false} PrintedReads(records: seq<seq<Field>>)
    requires forall i :: 0 <= i < |records| ==> PrintableRecord(records[i])
    ensures ReadLines(Ended(Printed(records))) == Written(AllEntries(records))
  {
    if records != [] {
      var first, rest := PrintedRecord(records[0]), Printed(records[1..]);
      RecordReads(records[0]);
      PrintedReads(records[1..]);
      ReadAppend(first, rest);
      assert AllEntries(records)[1..] == AllEntries(records[1..]);
    }
  }

  lemma ReadAppend(a: seq<string>, b: seq<string>)
    ensures ReadLines(Ended(a + b)) == ReadLines(Ended(a)) + ReadLines(Ended(b))
  {
  }

  /** Reading back a text file of lines. */
  lemma {:induction false} TextLines(lines: seq<string>)
    requires forall i :: 0 <= i < |lines| ==> Unbroken(lines[i])
    ensures Lines(TextOf(lines)) == Ended(lines)
  {
    if lines != [] {
      LinesStep(lines[0], TextOf(lines[1..]));
      TextLines(lines[1..]);
      assert Ended(lines) == [lines[0] + "\n"] + Ended(lines[1..]);
    }
  }

  lemma LinesStep(line: string, rest: string)
    requires Unbroken(line)
    ensures Lines(line + ("\n" + rest)) == [line + "\n"] + Lines(rest)
  {
    var text := line + ("\n" + rest);
    BreakAfter(line, rest);
    assert text[..|line|] == line && text[|line| + 1..] == rest;
    HeadDiffers(text[|line|..], "\r\n");
  }

  lemma {:induction false} BreakAfter(line: string, rest: string)
    requires Unbroken(line)
    ensures FirstBreak(line + ("\n" + rest)) == |line|
  {
    var text := line + ("\n" + rest);
    if line != "" {
      assert text[0] == line[0] && line[0] in line && text[1..] == line[1..] + ("\n" + rest);
      BreakAfter(line[1..], rest);
    }
  }

  lemma LineUnbroken(prefix: string, f: Field)
    requires Unbroken(prefix) && Printable(f)
    ensures Unbroken(FieldLine(prefix, f))
  {
    assert Unbroken(Shown(f));
  }

  lemma {:induction false} PrintedUnbroken(records: seq<seq<Field>>)
    requires forall i :: 0 <= i < |records| ==> PrintableRecord(records[i])
    ensures forall i :: 0 <= i < |Printed(records)| ==> Unbroken(Printed(records)[i])
  {
    if records != [] {
      PrintedUnbroken(records[1..]);
      var fields := records[0];
      forall i | 0 <= i < |fields| ensures Unbroken(PrintedRecord(fields)[i]) {
        LineUnbroken(if i == 0 then "- " else "", fields[i]);
      }
    }
  }

  /** Printing to a text file, splitting it into lines and parsing gives the records back, in order, none lost and none merged. */
  lemma RoundTrip(records: seq<seq<Field>>)
    requires forall i :: 0 <= i < |records| ==> PrintableRecord(records[i])
    ensures Records(ReadLines(Lines(TextOf(Printed(records))))) == Some(AsRecords(AllEntries(records)))
  {
    PrintedUnbroken(records);
    TextLines(Printed(records));
    PrintedReads(records);
    WrittenRoundTrip(AllEntries(records));
  }
}

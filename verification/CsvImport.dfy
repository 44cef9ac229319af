/** The tolerant CSV reader of frontend/src/lib/journal-import.ts and its round trip (section 2 of RFC 4180). */
module CsvImport {

  // --- trimming

  /** The white space and line terminators that `String.prototype.trim` removes. */
  predicate Space(c: char) {
    || c in {'\t', '\n', '\r', ' ', '\U{B}', '\U{C}', '\U{A0}', '\U{1680}'}
    || '\U{2000}' <= c <= '\U{200A}'
    || c in {'\U{2028}', '\U{2029}', '\U{202F}', '\U{205F}', '\U{3000}', '\U{FEFF}'}
  }

  /** The twenty-five code points that are trimmed. */
  lemma {:induction false} SpaceExact(c: char)
    ensures Space(c) <==>
            c as int in {9, 10, 11, 12, 13, 32, 160, 5760, 8192, 8193, 8194, 8195, 8196, 8197, 8198, 8199, 8200, 8201,
                         8202, 8232, 8233, 8239, 8287, 12288, 65279}
  {
  }

  function TrimStart(s: string): string {
    if s == "" || !Space(s[0]) then s else TrimStart(s[1..])
  }

  function TrimEnd(s: string): string {
    if s == "" || !Space(s[|s| - 1]) then s else TrimEnd(s[..|s| - 1])
  }

  function Trim(s: string): string {
    TrimEnd(TrimStart(s))
  }

  predicate Trimmed(s: string) {
    s == "" || (!Space(s[0]) && !Space(s[|s| - 1]))
  }

  // --- the parser as a function of the remaining text

  const QUOTE := '"'

  datatype State = State(field: string, record: seq<string>, records: seq<seq<string>>, inQuotes: bool)

  predicate Blank(record: seq<string>) {
    forall c :: c in record ==> c == ""
  }

  function PushField(st: State): State {
    st.(field := "", record := st.record + [Trim(st.field)])
  }

  function PushRecord(st: State): State {
    var full := PushField(st);
    full.(record := [], records := if Blank(full.record) then st.records else st.records + [full.record])
  }

  function Scan(s: string, d: char, st: State): State
    decreases |s|
  {
    if s == "" then st
    else if st.inQuotes then
      if s[0] != QUOTE then Scan(s[1..], d, st.(field := st.field + [s[0]]))
      else if |s| > 1 && s[1] == QUOTE then Scan(s[2..], d, st.(field := st.field + [QUOTE]))
      else Scan(s[1..], d, st.(inQuotes := false))
    else if s[0] == QUOTE then Scan(s[1..], d, st.(inQuotes := true))
    else if s[0] == d then Scan(s[1..], d, PushField(st))
    else if s[0] == '\n' then Scan(s[1..], d, PushRecord(st))
    else if s[0] != '\r' then Scan(s[1..], d, st.(field := st.field + [s[0]]))
    else Scan(s[1..], d, st)
  }

  function Finish(st: State): seq<seq<string>> {
    if st.field != "" || st.record != [] then PushRecord(st).records else st.records
  }

  const START := State("", [], [], false)

  function Count(s: string, c: char): nat {
    if s == "" then 0 else Count(s[..|s| - 1], c) + if s[|s| - 1] == c then 1 else 0
  }

  /** The most frequent candidate of the header line, the earlier candidate on a tie. */
  function Delimiter(line: string): char {
    var commas, semicolons, tabs := Count(line, ','), Count(line, ';'), Count(line, '\t');
    if tabs > commas && tabs > semicolons then '\t' else if semicolons > commas then ';' else ','
  }

  function FirstLine(s: string): string {
    if s == "" || s[0] == '\n' then "" else [s[0]] + FirstLine(s[1..])
  }

  function StripMark(s: string): string {
    if s != "" && s[0] == '\U{FEFF}' then s[1..] else s
  }

  function StripReturn(s: string): string {
    if s != "" && s[|s| - 1] == '\r' then s[..|s| - 1] else s
  }

  function DelimiterOf(text: string): char {
    Delimiter(StripReturn(FirstLine(StripMark(text))))
  }

  function Parse(text: string): seq<seq<string>> {
    Finish(Scan(StripMark(text), DelimiterOf(text), START))
  }

  // --- the code's own loops

  method CountOf(s: string, c: char) returns (n: nat)
    ensures n == Count(s, c)
  {
    n := 0;
    for i := 0 to |s|
      invariant n == Count(s[..i], c)
    {
      assert s[..i + 1][..i] == s[..i];
      if s[i] == c {
        n := n + 1;
      }
    }
    assert s[..|s|] == s;
  }

  method DetectDelimiter(line: string) returns (best: char)
    ensures best == Delimiter(line)
    ensures Count(line, best) >= Count(line, ',') && Count(line, best) >= Count(line, ';')
            && Count(line, best) >= Count(line, '\t')
    ensures best != ',' ==> Count(line, best) > Count(line, ',')
    ensures best == '\t' ==> Count(line, best) > Count(line, ';')
  {
    var candidates := [',', ';', '\t'];
    best := ',';
    var bestCount := 0;
    for i := 0 to 3
      invariant best in [','] + candidates[..i]
      invariant i > 0 ==> bestCount == Count(line, best)
      invariant i == 0 ==> bestCount == 0
      invariant i >= 1 ==> bestCount >= Count(line, ',') && (best == ',' || bestCount > Count(line, ','))
      invariant i >= 2 ==> bestCount >= Count(line, ';') && (best != '\t' || bestCount > Count(line, ';'))
      invariant i >= 3 ==> bestCount >= Count(line, '\t')
      invariant best == '\t' ==> i >= 3
      invariant i >= 3 && Count(line, '\t') > Count(line, ',') && Count(line, '\t') > Count(line, ';') ==> best == '\t'
    {
      var count := CountOf(line, candidates[i]);
      if count > bestCount {
        best := candidates[i];
        bestCount := count;
      }
    }
  }

  /** `parseCsv`: an index over the text with one character of lookahead, proved equal to `Parse`. */
  method ParseCsv(text: string) returns (headers: seq<string>, rows: seq<seq<string>>)
    ensures Parse(text) == [] ==> headers == [] && rows == []
    ensures Parse(text) != [] ==> [headers] + rows == Parse(text)
  {
    var normalized := StripMark(text);
    var line := FirstLine(normalized);
    var delimiter := DetectDelimiter(StripReturn(line));
    var field, record, records, inQuotes := "", [], [], false;
    var i := 0;
    while i < |normalized|
      invariant i <= |normalized|
      invariant Scan(normalized[i..], delimiter, State(field, record, records, inQuotes)) ==
                Scan(normalized, delimiter, START)
    {
      hide Trim;
      var c := normalized[i];
      assert normalized[i..][1..] == normalized[i + 1..];
      if inQuotes {
        if c == QUOTE {
          if i + 1 < |normalized| && normalized[i + 1] == QUOTE {
            assert normalized[i..][2..] == normalized[i + 2..];
            field := field + [QUOTE];
            i := i + 1;
          } else {
            inQuotes := false;
          }
        } else {
          field := field + [c];
        }
      } else if c == QUOTE {
        inQuotes := true;
      } else if c == delimiter {
        record := record + [Trim(field)];
        field := "";
      } else if c == '\n' {
        record := record + [Trim(field)];
        field := "";
        if exists value :: value in record && value != "" {
          records := records + [record];
        }
        record := [];
      } else if c != '\r' {
        field := field + [c];
      }
      i := i + 1;
    }
    assert normalized[i..] == "";
    if field != "" || record != [] {
      record := record + [Trim(field)];
      if exists value :: value in record && value != "" {
        records := records + [record];
      }
    }
    if records == [] {
      return [], [];
    }
    return records[0], records[1..];
  }

  // --- printing

  function Doubled(c: string): string {
    if c == "" then "" else (if c[0] == QUOTE then [QUOTE, QUOTE] else [c[0]]) + Doubled(c[1..])
  }

  function PrintCell(c: string): string {
    [QUOTE] + Doubled(c) + [QUOTE]
  }

  function PrintRecord(r: seq<string>): string {
    if r == [] then "" else if |r| == 1 then PrintCell(r[0]) else PrintCell(r[0]) + "," + PrintRecord(r[1..])
  }

  /** Every cell quoted, quotes doubled, commas between cells and one line ending after each record. */
  function Print(t: seq<seq<string>>, eol: string): string {
    if t == [] then "" else PrintRecord(t[0]) + eol + Print(t[1..], eol)
  }

  predicate LineEnding(eol: string) {
    eol == "\n" || eol == "\r\n"
  }

  // --- scanning what was printed

  /** The quoted body of a cell is read back verbatim, whatever it contains. */
  lemma {:induction false} ScanBody(c: string, rest: string, d: char, st: State)
    requires st.inQuotes && (rest == "" || rest[0] != QUOTE)
    ensures Scan(Doubled(c) + [QUOTE] + rest, d, st) ==
            Scan(rest, d, st.(field := st.field + c, inQuotes := false))
    decreases |c|
  {
    var s := Doubled(c) + [QUOTE] + rest;
    if c == "" {
      assert s == [QUOTE] + rest && s[1..] == rest;
      assert st.field + c == st.field;
    } else {
      var st' := st.(field := st.field + [c[0]]);
      ScanBody(c[1..], rest, d, st');
      var tail := Doubled(c[1..]) + [QUOTE] + rest;
      assert st.field + [c[0]] + c[1..] == st.field + c;
      if c[0] == QUOTE {
        assert s == [QUOTE, QUOTE] + tail && s[2..] == tail;
      } else {
        assert s == [c[0]] + tail && s[1..] == tail;
      }
    }
  }

  lemma ScanCell(c: string, rest: string, d: char, st: State)
    requires !st.inQuotes && (rest == "" || rest[0] != QUOTE)
    ensures Scan(PrintCell(c) + rest, d, st) == Scan(rest, d, st.(field := st.field + c))
  {
    var s := PrintCell(c) + rest;
    assert s[1..] == Doubled(c) + [QUOTE] + rest;
    ScanBody(c, rest, d, st.(inQuotes := true));
  }

  function TrimAll(r: seq<string>): seq<string> {
    if r == [] then [] else [Trim(r[0])] + TrimAll(r[1..])
  }

  lemma ScanComma(tail: string, d: char, st: State)
    requires !st.inQuotes && d in {',', ';', '\t'}
    ensures Scan("," + tail, d, st) ==
            Scan(tail, d, if d == ',' then PushField(st) else st.(field := st.field + ","))
  {
    assert ("," + tail)[1..] == tail;
  }

  lemma {:induction false} PrintSplits(r: seq<string>, rest: string)
    requires |r| > 1
    ensures PrintRecord(r) + rest == PrintCell(r[0]) + ("," + (PrintRecord(r[1..]) + rest))
  {
    var cell, tail := PrintCell(r[0]), PrintRecord(r[1..]);
    assert PrintRecord(r) == cell + "," + tail;
    hide PrintRecord, PrintCell;
    Regroup(cell, tail, rest);
  }

  lemma {:induction false} Regroup(cell: string, tail: string, rest: string)
    ensures cell + "," + tail + rest == cell + ("," + (tail + rest))
  {
  }

  /** Reading with commas: all cells but the last are complete, the last is still the open field. */
  lemma {:induction false} ScanRecord(r: seq<string>, rest: string, st: State)
    requires r != [] && st.field == "" && !st.inQuotes && (rest == "" || rest[0] != QUOTE)
    ensures Scan(PrintRecord(r) + rest, ',', st) ==
            Scan(rest, ',', st.(field := r[|r| - 1], record := st.record + TrimAll(r[..|r| - 1])))
    decreases |r|
  {
    hide Scan, Trim, PrintCell;
    if |r| == 1 {
      ScanCell(r[0], rest, ',', st);
      assert "" + r[0] == r[0] && st.record + [] == st.record;
    } else {
      var tail := PrintRecord(r[1..]) + rest;
      PrintSplits(r, rest);
      ScanCell(r[0], "," + tail, ',', st);
      assert "" + r[0] == r[0];
      ScanComma(tail, ',', st.(field := r[0]));
      var st' := PushField(st.(field := r[0]));
      ScanRecord(r[1..], rest, st');
      TrimAllStep(st.record, r);
    }
  }

  lemma TrimAllStep(before: seq<string>, r: seq<string>)
    requires |r| > 1
    ensures before + [Trim(r[0])] + TrimAll(r[1..][..|r| - 2]) == before + TrimAll(r[..|r| - 1])
  {
    hide Trim;
    assert r[..|r| - 1][1..] == r[1..][..|r| - 2];
  }

  function Join(r: seq<string>): string {
    if r == [] then "" else if |r| == 1 then r[0] else r[0] + "," + Join(r[1..])
  }

  /** Reading with another delimiter: the printed commas become part of one field. */
  lemma {:induction false} ScanJoined(r: seq<string>, rest: string, d: char, st: State)
    requires r != [] && !st.inQuotes && (rest == "" || rest[0] != QUOTE) && (d == ';' || d == '\t')
    ensures Scan(PrintRecord(r) + rest, d, st) == Scan(rest, d, st.(field := st.field + Join(r)))
    decreases |r|
  {
    hide Scan, PrintCell;
    if |r| == 1 {
      ScanCell(r[0], rest, d, st);
    } else {
      var tail := PrintRecord(r[1..]) + rest;
      PrintSplits(r, rest);
      ScanCell(r[0], "," + tail, d, st);
      ScanComma(tail, d, st.(field := st.field + r[0]));
      var st' := st.(field := st.field + r[0] + ",");
      ScanJoined(r[1..], rest, d, st');
      assert st'.field + Join(r[1..]) == st.field + Join(r);
    }
  }

  lemma ScanEol(eol: string, rest: string, d: char, st: State)
    requires LineEnding(eol) && !st.inQuotes && d in {',', ';', '\t'}
    ensures Scan(eol + rest, d, st) == Scan(rest, d, PushRecord(st))
  {
    var s := eol + rest;
    if eol == "\n" {
      assert s[1..] == rest;
    } else {
      assert s[1..] == "\n" + rest && s[1..][1..] == rest;
    }
  }

  /** What one record becomes: its trimmed cells, or the single field its commas were read into. */
  function Read(r: seq<string>, d: char): seq<string> {
    if d == ',' then TrimAll(r) else [Trim(Join(r))]
  }

  /** The non-blank records, read with the given delimiter. */
  function Kept(t: seq<seq<string>>, d: char): seq<seq<string>> {
    if t == [] then [] else (if Blank(Read(t[0], d)) then [] else [Read(t[0], d)]) + Kept(t[1..], d)
  }

  lemma {:induction false} TrimAllLast(r: seq<string>)
    requires r != []
    ensures TrimAll(r) == TrimAll(r[..|r| - 1]) + [Trim(r[|r| - 1])]
    decreases |r|
  {
    if |r| > 1 {
      TrimAllLast(r[1..]);
      assert r[1..][..|r| - 2] == r[..|r| - 1][1..];
    }
  }

  lemma ReadRecord(r: seq<string>, eol: string, rest: string, d: char, records: seq<seq<string>>)
    requires LineEnding(eol) && d in {',', ';', '\t'}
    ensures Scan(PrintRecord(r) + eol + rest, d, State("", [], records, false)) ==
            Scan(rest, d, State("", [], if Blank(Read(r, d)) then records else records + [Read(r, d)], false))
  {
    hide Scan, PrintRecord;
    var st := State("", [], records, false);
    assert PrintRecord(r) + eol + rest == PrintRecord(r) + (eol + rest);
    if r == [] {
      EmptyRecord();
      assert "" + (eol + rest) == eol + rest;
      ScanEol(eol, rest, d, st);
      assert PushField(st).record == [""];
    } else if d == ',' {
      hide Trim;
      var open := st.(field := r[|r| - 1], record := TrimAll(r[..|r| - 1]));
      ScanRecord(r, eol + rest, st);
      assert [] + TrimAll(r[..|r| - 1]) == TrimAll(r[..|r| - 1]);
      ScanEol(eol, rest, d, open);
      TrimAllLast(r);
    } else {
      hide Trim;
      ScanJoined(r, eol + rest, d, st);
      assert "" + Join(r) == Join(r);
      ScanEol(eol, rest, d, st.(field := Join(r)));
      assert PushField(st.(field := Join(r))).record == [Trim(Join(r))];
    }
  }

  lemma EmptyRecord()
    ensures PrintRecord([]) == ""
  {
  }

  lemma {:induction false} KeptStep(t: seq<seq<string>>, d: char, records: seq<seq<string>>, more: seq<seq<string>>)
    requires t != [] && more == if Blank(Read(t[0], d)) then records else records + [Read(t[0], d)]
    ensures more + Kept(t[1..], d) == records + Kept(t, d)
  {
    hide Read, Blank;
  }

  lemma {:induction false} ReadTable(t: seq<seq<string>>, eol: string, d: char, records: seq<seq<string>>)
    requires LineEnding(eol) && d in {',', ';', '\t'}
    ensures Scan(Print(t, eol), d, State("", [], records, false)) == State("", [], records + Kept(t, d), false)
    decreases |t|
  {
    if t == [] {
      assert records + [] == records;
    } else {
      hide Scan, Trim, PrintRecord, Read, Blank;
      ReadRecord(t[0], eol, Print(t[1..], eol), d, records);
      var records' := if Blank(Read(t[0], d)) then records else records + [Read(t[0], d)];
      ReadTable(t[1..], eol, d, records');
      KeptStep(t, d, records, records');
    }
  }

  lemma NoMark(t: seq<seq<string>>, eol: string)
    requires LineEnding(eol)
    ensures StripMark(Print(t, eol)) == Print(t, eol)
  {
    if t != [] && t[0] != [] {
      assert Print(t, eol)[0] == QUOTE;
    }
  }

  /** Every printed table is read back as its trimmed, non-blank records under the detected delimiter. */
  lemma ParsePrinted(t: seq<seq<string>>, eol: string)
    requires LineEnding(eol)
    ensures Parse(Print(t, eol)) == Kept(t, DelimiterOf(Print(t, eol)))
  {
    var text := Print(t, eol);
    NoMark(t, eol);
    hide Scan, Print;
    ReadTable(t, eol, DelimiterOf(text), []);
    assert [] + Kept(t, DelimiterOf(text)) == Kept(t, DelimiterOf(text));
  }

  // --- the round trip and exactly when it holds

  /** Already-trimmed cells, and a nonempty cell in every record. */
  ghost predicate Normal(t: seq<seq<string>>) {
    forall i :: 0 <= i < |t| ==> !Blank(t[i]) && forall c :: c in t[i] ==> Trimmed(c)
  }

  lemma {:induction false} TrimAllTrimmed(r: seq<string>)
    requires forall c :: c in r ==> Trimmed(c)
    ensures TrimAll(r) == r
  {
    if r != [] {
      assert r[0] in r;
      TrimAllTrimmed(r[1..]);
      assert r == [r[0]] + r[1..];
    }
  }

  lemma {:induction false} KeptByComma(t: seq<seq<string>>)
    requires Normal(t)
    ensures Kept(t, ',') == t
  {
    if t != [] {
      assert t[0] in t;
      TrimAllTrimmed(t[0]);
      assert Normal(t[1..]);
      KeptByComma(t[1..]);
      assert t == [t[0]] + t[1..];
    }
  }

  lemma {:induction false} KeptOtherwise(t: seq<seq<string>>, d: char)
    requires Normal(t) && d != ','
    ensures forall i :: 0 <= i < |Kept(t, d)| ==> |Kept(t, d)[i]| == 1
    ensures (forall i :: 0 <= i < |t| ==> |t[i]| == 1) ==> Kept(t, d) == t
  {
    if t != [] {
      assert t[0] in t;
      assert Normal(t[1..]);
      KeptOtherwise(t[1..], d);
      assert t == [t[0]] + t[1..];
      if |t[0]| == 1 {
        assert t[0][0] in t[0];
        assert t[0] == [t[0][0]];
      }
    }
  }

  /**
   * The round trip: a printed table of trimmed cells is read back exactly, whatever quotes, commas,
   * returns or newlines its cells hold, if and only if the printed header line is detected as
   * comma-separated or no record has a second cell to separate.
   */
  lemma RoundTripIff(t: seq<seq<string>>, eol: string)
    requires Normal(t) && LineEnding(eol)
    ensures Parse(Print(t, eol)) == t <==>
            DelimiterOf(Print(t, eol)) == ',' || forall i :: 0 <= i < |t| ==> |t[i]| == 1
  {
    ParsePrinted(t, eol);
    hide Parse, Print, DelimiterOf;
    var d := DelimiterOf(Print(t, eol));
    if d == ',' {
      KeptByComma(t);
    } else {
      KeptOtherwise(t, d);
    }
  }

  // --- a header without newlines, semicolons or tabs is always detected

  predicate PlainHeader(r: seq<string>) {
    forall c :: c in r ==> forall k :: 0 <= k < |c| ==> c[k] != '\n' && c[k] != ';' && c[k] != '\t'
  }

  predicate Plain(s: string) {
    forall k :: 0 <= k < |s| ==> s[k] != '\n' && s[k] != ';' && s[k] != '\t'
  }

  lemma {:induction false} DoubledPlain(c: string)
    requires Plain(c)
    ensures Plain(Doubled(c))
    decreases |c|
  {
    if c != "" {
      DoubledPlain(c[1..]);
    }
  }

  lemma {:induction false} RecordPlain(r: seq<string>)
    requires r != [] && PlainHeader(r)
    ensures Plain(PrintRecord(r))
    decreases |r|
  {
    assert r[0] in r && Plain(r[0]);
    DoubledPlain(r[0]);
    assert Plain(PrintCell(r[0]));
    if |r| > 1 {
      assert forall c :: c in r[1..] ==> c in r;
      RecordPlain(r[1..]);
    }
  }

  lemma {:induction false} FirstLineIs(line: string, rest: string)
    requires forall k :: 0 <= k < |line| ==> line[k] != '\n'
    ensures FirstLine(line + "\n" + rest) == line
    decreases |line|
  {
    var s := line + "\n" + rest;
    if line != "" {
      FirstLineIs(line[1..], rest);
      assert s[1..] == line[1..] + "\n" + rest;
      assert line == [line[0]] + line[1..];
    }
  }

  lemma {:induction false} CountPlain(s: string)
    requires Plain(s)
    ensures Count(s, ';') == 0 && Count(s, '\t') == 0
    decreases |s|
  {
    if s != "" {
      CountPlain(s[..|s| - 1]);
    }
  }

  lemma PlainHeaderDetected(t: seq<seq<string>>, eol: string)
    requires LineEnding(eol)
    requires t != [] ==> t[0] != [] && PlainHeader(t[0])
    ensures DelimiterOf(Print(t, eol)) == ','
  {
    if t != [] {
      NoMark(t, eol);
      RecordPlain(t[0]);
      hide PlainHeader, PrintRecord;
      PlainLine(PrintRecord(t[0]), eol, Print(t[1..], eol));
    }
  }

  lemma PlainLine(header: string, eol: string, rest: string)
    requires Plain(header) && LineEnding(eol)
    ensures Delimiter(StripReturn(FirstLine(header + eol + rest))) == ','
  {
    var line := if eol == "\n" then header else header + "\r";
    assert header + eol + rest == line + "\n" + rest;
    FirstLineIs(line, rest);
    assert Plain(line) && Plain(StripReturn(line));
    CountPlain(StripReturn(line));
  }

  /** A plain header guarantees the round trip of every normal table. */
  lemma RoundTrip(t: seq<seq<string>>, eol: string)
    requires Normal(t) && LineEnding(eol)
    requires t != [] ==> PlainHeader(t[0])
    ensures Parse(Print(t, eol)) == t
  {
    hide Parse, Print, DelimiterOf;
    assert t != [] ==> !Blank(t[0]);
    PlainHeaderDetected(t, eol);
    RoundTripIff(t, eol);
  }

  /** The condition is needed: two cells whose header line has more semicolons than commas. */
  lemma SemicolonHeaderFails()
    ensures Normal([["a;;", "b"]]) && Parse(Print([["a;;", "b"]], "\n")) != [["a;;", "b"]]
  {
    var r := ["a;;", "b"];
    assert r[1] in r && "b" != "";
    assert Normal([r]);
    ExampleText();
    ExampleDelimiter();
    hide Parse, DelimiterOf, Print, Normal;
    RoundTripIff([r], "\n");
    assert [r][0] == r && |r| == 2;
  }

  const EXAMPLE: string := "\"a;;\",\"b\""

  lemma ExampleText()
    ensures Print([["a;;", "b"]], "\n") == EXAMPLE + "\n" + ""
  {
    var r := ["a;;", "b"];
    assert r[1..] == ["b"];
    assert Doubled("b") == "b";
    assert Doubled("a;;") == "a;;" by {
      assert "a;;"[1..] == ";;" && ";;"[1..] == ";";
      assert Doubled(";") == ";";
      assert Doubled(";;") == ";;";
    }
    assert PrintRecord(r) == EXAMPLE;
    var t: seq<seq<string>> := [r];
    assert t[1..] == [];
    assert Print(t[1..], "\n") == "";
  }

  lemma ExampleDelimiter()
    ensures DelimiterOf(EXAMPLE + "\n" + "") == ';'
  {
    FirstLineIs(EXAMPLE, "");
    for k := 0 to 9
      invariant Count(EXAMPLE[..k], '\t') == 0
      invariant Count(EXAMPLE[..k], ';') == if k <= 2 then 0 else if k == 3 then 1 else 2
      invariant Count(EXAMPLE[..k], ',') == if k <= 5 then 0 else 1
    {
      assert EXAMPLE[..k + 1][..k] == EXAMPLE[..k];
    }
    assert EXAMPLE[..9] == EXAMPLE;
  }
}

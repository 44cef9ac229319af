/** Reading text in the ordinary form of an import: cells quoted or not, separated by any of the three delimiters. */
module CsvPlain {
  import opened CsvImport

  // --- trimming and counting, exactly

  /** The trimmed text is the part between leading and trailing white space. */
  lemma {:induction false} TrimExact(s: string) returns (i: nat, j: nat)
    ensures i <= j <= |s| && Trim(s) == s[i..j] && Trimmed(Trim(s))
    ensures forall k :: 0 <= k < i || j <= k < |s| ==> Space(s[k])
  {
    hide TrimStart, TrimEnd;
    i := TrimStartAt(s);
    var t := TrimStart(s);
    var n := TrimEndAt(t);
    j := i + n;
    SliceOf(s, i, t, n);
    hide Space;
  }

  /** A front part of a tail is a slice. */
  lemma {:induction false} SliceOf(s: string, i: nat, t: string, n: nat)
    requires i <= |s| && t == s[i..] && n <= |t|
    ensures t[..n] == s[i..i + n]
    ensures forall k :: i <= k < |s| ==> s[k] == t[k - i]
  {
  }

  lemma {:induction false} TrimStartAt(s: string) returns (i: nat)
    ensures i <= |s| && TrimStart(s) == s[i..] && (i < |s| ==> !Space(s[i]))
    ensures forall k :: 0 <= k < i ==> Space(s[k])
  {
    if s == "" || !Space(s[0]) {
      i := 0;
    } else {
      var n := TrimStartAt(s[1..]);
      i := n + 1;
      assert s[1..][n..] == s[i..];
      forall k | 0 <= k < i ensures Space(s[k]) {
        assert k > 0 ==> s[1..][k - 1] == s[k];
      }
    }
  }

  lemma {:induction false} TrimEndAt(s: string) returns (n: nat)
    ensures n <= |s| && TrimEnd(s) == s[..n] && (n > 0 ==> !Space(s[n - 1]))
    ensures forall k :: n <= k < |s| ==> Space(s[k])
    decreases |s|
  {
    if s == "" || !Space(s[|s| - 1]) {
      n := |s|;
    } else {
      n := TrimEndAt(s[..|s| - 1]);
      assert s[..|s| - 1][..n] == s[..n];
    }
  }

  /** The count is the number of positions that hold the character. */
  lemma {:induction false} CountExact(s: string, c: char)
    ensures Count(s, c) == |set i | 0 <= i < |s| && s[i] == c|
  {
    if s != "" {
      var n := |s| - 1;
      CountExact(s[..n], c);
      var before := set i | 0 <= i < |s[..n]| && s[..n][i] == c;
      var all := set i | 0 <= i < |s| && s[i] == c;
      assert all == if s[n] == c then before + {n} else before;
    }
  }

  /** The header line holds more of the delimiter than of the earlier candidates and no less than of the later ones. */
  predicate Detected(line: string, d: char) {
    && d in {',', ';', '\t'}
    && (d == ',' || Count(line, d) > Count(line, ',')) && Count(line, d) >= Count(line, ';')
    && (d == '\t' ==> Count(line, d) > Count(line, ';')) && Count(line, d) >= Count(line, '\t')
  }

  /** The detected delimiter of a text is the one of its first line, without a final return. */
  lemma {:induction false} DelimiterExact(line: string, rest: string, eol: string, d: char)
    requires LineEnding(eol) && '\n' !in line && Detected(line, d)
    requires line != "" ==> line[0] != '\U{FEFF}' && line[|line| - 1] != '\r'
    ensures DelimiterOf(line + eol + rest) == d && DelimiterOf(line) == d
  {
    HeaderLine(line, rest, eol);
    FirstLineAlone(line);
    hide FirstLine, Count;
  }

  lemma {:induction false} HeaderLine(line: string, rest: string, eol: string)
    requires LineEnding(eol) && '\n' !in line
    requires line != "" ==> line[0] != '\U{FEFF}' && line[|line| - 1] != '\r'
    ensures StripReturn(FirstLine(StripMark(line + eol + rest))) == line
  {
    var whole := if eol == "\n" then line else line + "\r";
    ReturnStripped(line);
    NoMarkFront(line, rest, eol);
    LineGrouped(line, rest);
    assert line + eol + rest == whole + "\n" + rest;
    hide FirstLine, StripReturn, StripMark;
    FirstLineIs(whole, rest);
  }

  lemma {:induction false} ReturnStripped(line: string)
    requires line != "" ==> line[|line| - 1] != '\r'
    ensures StripReturn(line) == line && StripReturn(line + "\r") == line
  {
    assert (line + "\r")[..|line|] == line;
  }

  lemma {:induction false} NoMarkFront(line: string, rest: string, eol: string)
    requires LineEnding(eol) && (line != "" ==> line[0] != '\U{FEFF}')
    ensures StripMark(line + eol + rest) == line + eol + rest
  {
  }

  lemma {:induction false} LineGrouped(line: string, rest: string)
    ensures line + "\r\n" + rest == line + "\r" + "\n" + rest
  {
  }

  lemma {:induction false} FirstLineAlone(line: string)
    requires '\n' !in line
    ensures FirstLine(line) == line
  {
    if line != "" {
      assert line == [line[0]] + line[1..];
      FirstLineAlone(line[1..]);
    }
  }

  // --- printing

  /** Quoted and plain stretches may alternate within one cell. */
  datatype Piece = Piece(text: string, quoted: bool)

  type Cell = seq<Piece>

  /** The text a cell stands for. */
  function Value(c: Cell): string {
    if c == [] then "" else c[0].text + Value(c[1..])
  }

  function PieceText(p: Piece): string {
    if p.quoted then PrintCell(p.text) else p.text
  }

  /** How the cell is written. */
  function CellText(c: Cell): string {
    if c == [] then "" else PieceText(c[0]) + CellText(c[1..])
  }

  /** Plain stretches hold neither quote, delimiter nor line break, and some text if they follow a quoted one. */
  predicate Printable(c: Cell, d: char) {
    && (forall i :: 0 <= i < |c| ==> PiecePrintable(c[i], d))
    && (forall i :: 0 < i < |c| && c[i - 1].quoted ==> !c[i].quoted && c[i].text != "")
  }

  predicate PiecePrintable(p: Piece, d: char) {
    p.quoted || forall k :: 0 <= k < |p.text| ==> p.text[k] !in {QUOTE, d, '\n', '\r'}
  }

  function RecordText(r: seq<Cell>, d: char): string {
    if r == [] then "" else if |r| == 1 then CellText(r[0]) else CellText(r[0]) + [d] + RecordText(r[1..], d)
  }

  /** Every record on its own line; the last line ending may be missing. */
  function TableText(t: seq<seq<Cell>>, d: char, eol: string, last: bool): string {
    if t == [] then ""
    else if |t| == 1 && !last then RecordText(t[0], d)
    else RecordText(t[0], d) + eol + TableText(t[1..], d, eol, last)
  }

  /** The cells as they are read: trimmed. */
  function Texts(r: seq<Cell>): seq<string> {
    if r == [] then [] else [Trim(Value(r[0]))] + Texts(r[1..])
  }

  /** The records that hold some text. */
  function Rows(t: seq<seq<Cell>>): seq<seq<string>> {
    if t == [] then [] else (if Empty(Texts(t[0])) then [] else [Texts(t[0])]) + Rows(t[1..])
  }

  /** No cell of the record holds any text. */
  predicate Empty(record: seq<string>) {
    forall i :: 0 <= i < |record| ==> record[i] == ""
  }

  lemma {:induction false} BlankExact(record: seq<string>)
    ensures Blank(record) <==> Empty(record)
  {
    if Blank(record) {
      forall i | 0 <= i < |record| ensures record[i] == "" {
        assert record[i] in record;
      }
    }
  }

  ghost predicate Readable(t: seq<seq<Cell>>, d: char) {
    forall i :: 0 <= i < |t| ==> RecordReadable(t[i], d)
  }

  ghost predicate RecordReadable(r: seq<Cell>, d: char) {
    forall j :: 0 <= j < |r| ==> Printable(r[j], d)
  }

  predicate Separator(d: char) {
    d in {',', ';', '\t'}
  }

  // --- reading it back

  /** Plain text is read character by character. */
  lemma {:induction false} ScanText(c: string, rest: string, d: char, st: State)
    requires !st.inQuotes && PiecePrintable(Piece(c, false), d)
    ensures Scan(c + rest, d, st) == Scan(rest, d, st.(field := st.field + c))
    decreases |c|
  {
    if c == "" {
      assert c + rest == rest && st.field + c == st.field;
    } else {
      assert (c + rest)[1..] == c[1..] + rest && (c + rest)[0] == c[0];
      ScanText(c[1..], rest, d, st.(field := st.field + [c[0]]));
      assert st.field + [c[0]] + c[1..] == st.field + c;
    }
  }

  lemma {:induction false} ScanPiece(p: Piece, rest: string, d: char, st: State)
    requires !st.inQuotes && PiecePrintable(p, d) && (p.quoted ==> rest == "" || rest[0] != QUOTE)
    ensures Scan(PieceText(p) + rest, d, st) == Scan(rest, d, st.(field := st.field + p.text))
  {
    hide Scan, PrintCell;
    if p.quoted {
      ScanCell(p.text, rest, d, st);
    } else {
      assert p == Piece(p.text, false);
      ScanText(p.text, rest, d, st);
    }
  }

  lemma {:induction false} PlainStart(c: Cell, rest: string, d: char)
    requires c != [] && Printable(c, d) && !c[0].quoted && c[0].text != ""
    ensures CellText(c) + rest != "" && (CellText(c) + rest)[0] != QUOTE
  {
    assert PiecePrintable(c[0], d);
    assert c[0].text[0] != QUOTE;
  }

  /** A cell is read as its value, however its stretches are quoted. */
  lemma {:induction false} ScanEither(c: Cell, rest: string, d: char, st: State)
    requires !st.inQuotes && Printable(c, d) && (rest == "" || rest[0] != QUOTE)
    ensures Scan(CellText(c) + rest, d, st) == Scan(rest, d, st.(field := st.field + Value(c)))
    decreases |c|
  {
    if c == [] {
      assert "" + rest == rest && st.field + "" == st.field;
    } else {
      var tail := CellText(c[1..]) + rest;
      assert PiecePrintable(c[0], d) && Printable(c[1..], d);
      if c[0].quoted && |c| > 1 {
        assert !c[1].quoted && c[1].text != "" && c[1..][0] == c[1];
        PlainStart(c[1..], rest, d);
      } else if |c| == 1 {
        assert c[1..] == [] && "" + rest == rest;
      }
      hide Scan, PieceText, PiecePrintable, Printable;
      Associates(PieceText(c[0]), CellText(c[1..]), rest);
      ScanPiece(c[0], tail, d, st);
      ScanEither(c[1..], rest, d, st.(field := st.field + c[0].text));
      Associates(st.field, c[0].text, Value(c[1..]));
    }
  }

  lemma {:induction false} Associates(a: string, b: string, c: string)
    ensures a + b + c == a + (b + c)
  {
  }

  lemma {:induction false} ScanSeparator(tail: string, d: char, st: State)
    requires !st.inQuotes && Separator(d)
    ensures Scan([d] + tail, d, st) == Scan(tail, d, PushField(st))
  {
    assert ([d] + tail)[1..] == tail;
  }

  lemma {:induction false} RecordSplits(r: seq<Cell>, d: char, rest: string)
    requires |r| > 1
    ensures RecordText(r, d) + rest == CellText(r[0]) + ([d] + (RecordText(r[1..], d) + rest))
  {
    var cell, tail := CellText(r[0]), RecordText(r[1..], d);
    assert RecordText(r, d) == cell + [d] + tail;
    hide RecordText, CellText;
    Regrouped(cell, [d], tail, rest);
  }

  lemma {:induction false} Regrouped(a: string, b: string, c: string, rest: string)
    ensures a + b + c + rest == a + (b + (c + rest))
  {
  }

  /** One record: all cells but the last are complete, and completing the last gives the record. */
  lemma {:induction false} ScanCells(r: seq<Cell>, rest: string, d: char, st: State)
    requires r != [] && st.field == "" && !st.inQuotes && Separator(d) && RecordReadable(r, d)
    requires rest == "" || rest[0] != QUOTE
    ensures var after := st.(field := Value(r[|r| - 1]), record := st.record + Texts(r[..|r| - 1]));
            Scan(RecordText(r, d) + rest, d, st) == Scan(rest, d, after)
    ensures st.record + Texts(r[..|r| - 1]) + [Trim(Value(r[|r| - 1]))] == st.record + Texts(r)
    decreases |r|
  {
    hide Scan, Trim, CellText, Value, RecordReadable;
    if |r| == 1 {
      LastCell(r, rest, d, st);
    } else {
      FirstCell(r, rest, d, st);
      RestReadable(r, d);
      hide RecordText, Texts;
      ScanCells(r[1..], rest, d, PushField(st.(field := Value(r[0]))));
      TextsStep(st.record, r);
    }
  }

  lemma {:induction false} RestReadable(r: seq<Cell>, d: char)
    requires r != [] && RecordReadable(r, d)
    ensures RecordReadable(r[1..], d) && Printable(r[0], d)
  {
    hide Printable;
  }

  lemma {:induction false} LastCell(r: seq<Cell>, rest: string, d: char, st: State)
    requires |r| == 1 && st.field == "" && !st.inQuotes && RecordReadable(r, d) && (rest == "" || rest[0] != QUOTE)
    ensures Texts(r[..0]) == [] && Texts(r) == [Trim(Value(r[0]))] && st.record + [] == st.record
    ensures Scan(RecordText(r, d) + rest, d, st) == Scan(rest, d, st.(field := Value(r[0])))
  {
    RestReadable(r, d);
    hide Scan, Trim, CellText, Value, Printable, RecordReadable;
    ScanEither(r[0], rest, d, st);
    assert "" + Value(r[0]) == Value(r[0]);
    assert Texts(r[1..]) == [];
  }

  lemma {:induction false} FirstCell(r: seq<Cell>, rest: string, d: char, st: State)
    requires |r| > 1 && st.field == "" && !st.inQuotes && Separator(d) && RecordReadable(r, d)
    ensures Scan(RecordText(r, d) + rest, d, st) ==
            Scan(RecordText(r[1..], d) + rest, d, PushField(st.(field := Value(r[0]))))
  {
    RestReadable(r, d);
    hide Scan, Trim, CellText, Value, Printable, RecordReadable;
    var tail := RecordText(r[1..], d) + rest;
    RecordSplits(r, d, rest);
    hide RecordText;
    assert ([d] + tail)[0] == d != QUOTE;
    ScanEither(r[0], [d] + tail, d, st);
    assert "" + Value(r[0]) == Value(r[0]);
    ScanSeparator(tail, d, st.(field := Value(r[0])));
  }

  lemma {:induction false} TextsStep(before: seq<string>, r: seq<Cell>)
    requires |r| > 1
    ensures before + [Trim(Value(r[0]))] + Texts(r[1..][..|r| - 2]) == before + Texts(r[..|r| - 1])
    ensures before + [Trim(Value(r[0]))] + Texts(r[1..]) == before + Texts(r)
  {
    hide Trim;
    assert r[..|r| - 1][1..] == r[1..][..|r| - 2];
  }

  /** What completing a record adds to the records. */
  function Plus(records: seq<seq<string>>, r: seq<Cell>): seq<seq<string>> {
    if Blank(Texts(r)) then records else records + [Texts(r)]
  }

  lemma {:induction false} ScanRecordEnd(r: seq<Cell>, eol: string, rest: string, d: char, records: seq<seq<string>>)
    requires LineEnding(eol) && Separator(d) && RecordReadable(r, d)
    ensures Scan(RecordText(r, d) + (eol + rest), d, State("", [], records, false)) ==
            Scan(rest, d, State("", [], Plus(records, r), false))
  {
    hide Scan, RecordReadable;
    var st := State("", [], records, false);
    if r == [] {
      assert "" + (eol + rest) == eol + rest;
      ScanEol(eol, rest, d, st);
      assert PushField(st).record == [""];
    } else {
      hide Trim, RecordText;
      ScanCells(r, eol + rest, d, st);
      var open := st.(field := Value(r[|r| - 1]), record := Texts(r[..|r| - 1]));
      assert [] + Texts(r[..|r| - 1]) == Texts(r[..|r| - 1]) && [] + Texts(r) == Texts(r);
      ScanEol(eol, rest, d, open);
    }
  }

  lemma {:induction false} FinishRecord(r: seq<Cell>, d: char, records: seq<seq<string>>)
    requires Separator(d) && RecordReadable(r, d)
    ensures Finish(Scan(RecordText(r, d), d, State("", [], records, false))) == Plus(records, r)
  {
    hide Scan, RecordReadable;
    var st := State("", [], records, false);
    assert RecordText(r, d) + "" == RecordText(r, d);
    if r == [] {
      ScanNothing(d, st);
    } else {
      hide RecordText;
      ScanCells(r, "", d, st);
      var open := st.(field := Value(r[|r| - 1]), record := Texts(r[..|r| - 1]));
      assert [] + Texts(r[..|r| - 1]) == Texts(r[..|r| - 1]) && [] + Texts(r) == Texts(r);
      ScanNothing(d, open);
      if open.field == "" && open.record == [] {
        assert Trim("") == "";
        assert Texts(r) == [""];
      }
      hide Trim;
    }
  }

  lemma {:induction false} ScanNothing(d: char, st: State)
    ensures Scan("", d, st) == st
  {
  }

  lemma {:induction false} ReadRows(
    t: seq<seq<Cell>>, d: char, eol: string, last: bool, records: seq<seq<string>>)
    requires LineEnding(eol) && Separator(d) && Readable(t, d)
    ensures Finish(Scan(TableText(t, d, eol, last), d, State("", [], records, false))) == records + Rows(t)
    decreases |t|
  {
    hide Scan, RecordText, Blank, Texts, RecordReadable, Finish;
    if t == [] {
      ScanNothing(d, State("", [], records, false));
      assert records + [] == records;
      FinishNothing(records);
    } else if |t| == 1 && !last {
      FinishRecord(t[0], d, records);
      assert t[1..] == [] && Rows([]) == [];
      PlusRows(t, records);
    } else {
      var tail := TableText(t[1..], d, eol, last);
      assert RecordText(t[0], d) + eol + tail == RecordText(t[0], d) + (eol + tail);
      ScanRecordEnd(t[0], eol, tail, d, records);
      ReadRows(t[1..], d, eol, last, Plus(records, t[0]));
      PlusRows(t, records);
    }
  }

  lemma {:induction false} FinishNothing(records: seq<seq<string>>)
    ensures Finish(State("", [], records, false)) == records
  {
  }

  lemma {:induction false} PlusRows(t: seq<seq<Cell>>, records: seq<seq<string>>)
    requires t != []
    ensures Plus(records, t[0]) + Rows(t[1..]) == records + Rows(t)
  {
    BlankExact(Texts(t[0]));
    hide Blank, Empty, Texts;
  }

  // --- the detected delimiter of the printed header

  /** The printed header line: on one line, not starting with the mark, and detected as the delimiter. */
  ghost predicate HeaderDetected(t: seq<seq<Cell>>, d: char) {
    t != [] ==>
      var line := RecordText(t[0], d);
      && Detected(line, d) && '\n' !in line
      && (line != "" ==> line[0] != '\U{FEFF}' && line[|line| - 1] != '\r')
  }

  lemma {:induction false} TableDelimiter(t: seq<seq<Cell>>, d: char, eol: string, last: bool)
    requires LineEnding(eol) && t != [] && HeaderDetected(t, d)
    ensures DelimiterOf(TableText(t, d, eol, last)) == d
    ensures StripMark(TableText(t, d, eol, last)) == TableText(t, d, eol, last)
  {
    hide RecordText, Detected, DelimiterOf;
    var line := RecordText(t[0], d);
    DelimiterExact(line, TableText(t[1..], d, eol, last), eol, d);
  }

  /**
   * Any table, with each cell printed quoted or plain, any of the three delimiters, either line ending and with or
   * without the last one, is read as its trimmed cells, without the records that hold no text -- if the header line
   * is detected as the delimiter.
   */
  lemma {:induction false} ParseEither(t: seq<seq<Cell>>, d: char, eol: string, last: bool)
    requires LineEnding(eol) && Separator(d) && Readable(t, d) && HeaderDetected(t, d)
    ensures Parse(TableText(t, d, eol, last)) == Rows(t)
  {
    hide Scan, HeaderDetected, Readable, Finish, RecordText;
    ReadRows(t, d, eol, last, []);
    assert [] + Rows(t) == Rows(t);
    if t != [] {
      TableDelimiter(t, d, eol, last);
      hide TableText, DelimiterOf, StripMark;
    } else {
      ScanNothing(d, START);
      ScanNothing(DelimiterOf(""), START);
    }
  }

  // --- the round trip

  ghost predicate HasText(r: seq<Cell>) {
    exists j :: 0 <= j < |r| && Value(r[j]) != ""
  }

  function Plainly(r: seq<string>): seq<Cell> {
    seq(|r|, i requires 0 <= i < |r| => [Piece(r[i], false)])
  }

  lemma {:induction false} TrimTrimmed(s: string)
    requires Trimmed(s)
    ensures Trim(s) == s
  {
  }

  lemma {:induction false} TextsTrimmed(r: seq<Cell>)
    requires forall j :: 0 <= j < |r| ==> Trimmed(Value(r[j]))
    ensures |Texts(r)| == |r| && forall j :: 0 <= j < |r| ==> Texts(r)[j] == Value(r[j])
  {
    hide Trimmed, Trim;
    if r != [] {
      TextsTrimmed(r[1..]);
      TrimTrimmed(Value(r[0]));
    }
  }

  lemma {:induction false} RowsKept(t: seq<seq<Cell>>)
    requires forall i :: 0 <= i < |t| ==> !Empty(Texts(t[i]))
    ensures |Rows(t)| == |t| && forall i :: 0 <= i < |t| ==> Rows(t)[i] == Texts(t[i])
  {
    hide Empty, Texts;
    if t != [] {
      RowsKept(t[1..]);
    }
  }

  /** The cells' own texts. */
  function Contents(t: seq<seq<Cell>>): seq<seq<string>> {
    seq(|t|, i requires 0 <= i < |t| => seq(|t[i]|, j requires 0 <= j < |t[i]| => Value(t[i][j])))
  }

  /**
   * The round trip in ordinary form: trimmed cells, printed quoted or plain, and some text in each record. Printed
   * with any delimiter the header is detected by, either line ending and with or without the last one, the table
   * is read back exactly.
   */
  lemma {:induction false} EitherRoundTrip(t: seq<seq<Cell>>, d: char, eol: string, last: bool)
    requires LineEnding(eol) && Separator(d) && Readable(t, d) && HeaderDetected(t, d)
    requires forall i, j :: 0 <= i < |t| && 0 <= j < |t[i]| ==> Trimmed(Value(t[i][j]))
    requires forall i :: 0 <= i < |t| ==> HasText(t[i])
    ensures Parse(TableText(t, d, eol, last)) == Contents(t)
  {
    ParseEither(t, d, eol, last);
    hide Parse, TableText, HeaderDetected, Readable;
    assert forall i :: 0 <= i < |t| ==> HasText(t[i]);
    forall i | 0 <= i < |t| ensures !Empty(Texts(t[i])) && Texts(t[i]) == Contents(t)[i] {
      TextsTrimmed(t[i]);
      var j :| 0 <= j < |t[i]| && Value(t[i][j]) != "";
      assert Texts(t[i])[j] in Texts(t[i]);
      hide Texts;
    }
    RowsKept(t);
    hide Texts, Rows;
  }

  function PlainTable(t: seq<seq<string>>): seq<seq<Cell>> {
    seq(|t|, i requires 0 <= i < |t| => Plainly(t[i]))
  }

  /** Cells that can be printed without quotes. */
  ghost predicate Unquoted(t: seq<seq<string>>, d: char) {
    forall i, j, k :: 0 <= i < |t| && 0 <= j < |t[i]| && 0 <= k < |t[i][j]| ==> t[i][j][k] !in {QUOTE, d, '\n', '\r'}
  }

  lemma {:induction false} ContentsPlain(t: seq<seq<string>>)
    ensures Contents(PlainTable(t)) == t
  {
    forall i | 0 <= i < |t| ensures Contents(PlainTable(t))[i] == t[i] {
      var r := PlainTable(t)[i];
      assert forall j :: 0 <= j < |r| ==> Value(r[j]) == t[i][j];
    }
  }

  /** The same without a single quote: the plainest form of a file. */
  lemma {:induction false} PlainRoundTrip(t: seq<seq<string>>, d: char, eol: string, last: bool)
    requires LineEnding(eol) && Separator(d) && Normal(t) && Unquoted(t, d) && HeaderDetected(PlainTable(t), d)
    ensures Parse(TableText(PlainTable(t), d, eol, last)) == t
  {
    var p := PlainTable(t);
    forall i, j | 0 <= i < |p| && 0 <= j < |p[i]| ensures Printable(p[i][j], d) && Trimmed(Value(p[i][j])) {
      assert t[i][j] in t[i];
    }
    forall i | 0 <= i < |p| ensures HasText(p[i]) {
      var c :| c in t[i] && c != "";
      var j :| 0 <= j < |t[i]| && t[i][j] == c;
      assert Value(p[i][j]) != "";
    }
    hide Printable, Trimmed, Normal, Parse, HeaderDetected, TableText, HasText;
    EitherRoundTrip(p, d, eol, last);
    ContentsPlain(t);
  }

  /** A leading mark is ignored. */
  lemma {:induction false} MarkIgnored(text: string)
    requires text == "" || text[0] != '\U{FEFF}'
    ensures Parse("\U{FEFF}" + text) == Parse(text)
  {
    assert ("\U{FEFF}" + text)[1..] == text;
    hide Scan, Delimiter, FirstLine;
  }

  // --- a quote that is never closed

  lemma {:induction false} ClosingQuote(s: string, d: char, st: State)
    requires Scan(s, d, st).inQuotes
    ensures Scan(s + [QUOTE], d, st) == Scan(s, d, st).(inQuotes := false)
    decreases |s|
  {
    if s == "" {
      assert "" + [QUOTE] == [QUOTE] && [QUOTE][1..] == "";
    } else {
      assert (s + [QUOTE])[1..] == s[1..] + [QUOTE];
      if |s| > 1 {
        assert (s + [QUOTE])[2..] == s[2..] + [QUOTE];
      }
      var next := if st.inQuotes then
          (if s[0] != QUOTE then st.(field := st.field + [s[0]])
           else if |s| > 1 && s[1] == QUOTE then st.(field := st.field + [QUOTE]) else st.(inQuotes := false))
        else if s[0] == QUOTE then st.(inQuotes := true)
        else if s[0] == d then PushField(st) else if s[0] == '\n' then PushRecord(st)
        else if s[0] != '\r' then st.(field := st.field + [s[0]]) else st;
      hide PushField, PushRecord;
      ClosingQuote(if st.inQuotes && s[0] == QUOTE && |s| > 1 && s[1] == QUOTE then s[2..] else s[1..], d, next);
    }
  }

  /** Text that ends inside quotes is read as if the quote were closed at the end. */
  lemma {:induction false} UnclosedQuote(s: string, d: char)
    requires Scan(s, d, START).inQuotes
    ensures Finish(Scan(s, d, START)) == Finish(Scan(s + [QUOTE], d, START))
  {
    ClosingQuote(s, d, START);
    hide Scan, Trim;
  }
}

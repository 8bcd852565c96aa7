/**
 * The 5W1H check-result converter: reads a Markdown report line by line and
 * turns every backlog entry into one spreadsheet row of a title and six 0/1
 * flags, one per question word (Who, What, Where, When, Why, How).
 */
module CheckResult {
  import opened Wrappers
  import opened Text

  /** A spreadsheet cell: a backlog title or a 0/1 flag. */
  datatype Cell = Label(text: string) | Flag(bit: int)

  type Row = seq<Cell>

  /** The question words, in the order the classifier tests them. */
  const Keywords: seq<string> := ["Who", "What", "Where", "When", "Why", "How"]

  /** The index of the How bullet, which closes a record. */
  const HowIndex: nat := 5

  /** The first row of every sheet. */
  const HeaderRow: Row :=
    [Label("Backlog"), Label("Who"), Label("What"), Label("Where"), Label("When"), Label("Why"), Label("How")]

  /** The length of a complete record. */
  const RecordLength: nat := 7

  /** What one input line contributes. */
  datatype LineKind =
    | Backlog(title: string)     // a `###` heading other than the 5W1H heading
    | Bullet(key: nat, bit: int) // a `-` bullet naming a question word
    | Other                      // anything else

  /** The first question word at index `j` or later that occurs in `line`. */
  function FirstKeyword(line: string, j: nat): (r: Option<nat>)
    requires j <= |Keywords|
    ensures r.Some? ==> j <= r.value < |Keywords| && Contains(line, Keywords[r.value])
    ensures r.Some? ==> forall i :: j <= i < r.value ==> !Contains(line, Keywords[i])
    ensures r.None? ==> forall i :: j <= i < |Keywords| ==> !Contains(line, Keywords[i])
    decreases |Keywords| - j
  {
    if j == |Keywords| then None
    else if Contains(line, Keywords[j]) then Some(j)
    else FirstKeyword(line, j + 1)
  }

  /**
   * The rule a line falls under: headings first, then bullets by the first
   * question word they contain; a bullet that mentions "Missing" is a 0.
   */
  function Classify(line: string): (k: LineKind)
    ensures k.Bullet? ==> k.key < |Keywords| && (k.bit == 0 || k.bit == 1)
  {
    if Contains(line, "###") && !Contains(line, "5W1H") then
      Backlog(ReplaceAll(ReplaceAll(line, "### ", ""), "\n", ""))
    else if StartsWith(line, "-") then
      match FirstKeyword(line, 0)
      case Some(i) => Bullet(i, if Contains(line, "Missing") then 0 else 1)
      case None => Other
    else Other
  }

  /**
   * The classification rules: a heading is any `###` line other than the
   * 5W1H heading, with `### ` and newlines removed; a bullet starts with `-`
   * and counts for the first question word it names; its flag is 0 exactly
   * when it says "Missing". A title is a single line.
   */
  lemma ClassifyRules(line: string)
    ensures var k := Classify(line);
      && (k.Backlog? <==> Contains(line, "###") && !Contains(line, "5W1H"))
      && (k.Backlog? ==> k.title == ReplaceAll(ReplaceAll(line, "### ", ""), "\n", ""))
      && (k.Backlog? ==> '\n' !in k.title)
      && (k.Bullet? <==>
            && !(Contains(line, "###") && !Contains(line, "5W1H"))
            && StartsWith(line, "-")
            && exists i :: 0 <= i < |Keywords| && Contains(line, Keywords[i]))
      && (k.Bullet? ==> Contains(line, Keywords[k.key]))
      && (k.Bullet? ==> forall i :: 0 <= i < k.key ==> !Contains(line, Keywords[i]))
      && (k.Bullet? ==> (k.bit == 0 <==> Contains(line, "Missing")))
  {
    RemovedCharAbsent(ReplaceAll(line, "### ", ""), '\n');
  }

  /** Every flag cell of `row` holds 0 or 1. */
  predicate FlagsAreBits(row: Row) {
    forall c :: c in row && c.Flag? ==> c.bit == 0 || c.bit == 1
  }

  /** A row of the sheet body: seven cells whose flags are 0 or 1. */
  predicate WellFormedRow(row: Row) {
    |row| == RecordLength && FlagsAreBits(row)
  }

  /** The record being read after one line, and the row that line completes, if any. */
  datatype Progress = Progress(data: Row, written: Option<Row>)

  /**
   * One pass of the inner loop: a heading or a bullet adds its cell, and the
   * seventh cell or a How bullet closes the record (written only when it has
   * seven cells); any other line drops a record that does not start with a
   * title.
   */
  function Feed(kind: LineKind, data: Row): (p: Progress)
    requires |data| < RecordLength && FlagsAreBits(data)
    requires kind.Bullet? ==> kind.bit == 0 || kind.bit == 1
    ensures |p.data| < RecordLength && FlagsAreBits(p.data)
    ensures p.written.Some? ==> p.data == [] && WellFormedRow(p.written.value)
    ensures p.written.Some? ==> p.written.value[..|data|] == data
    ensures (if p.written.Some? then RecordLength else 0) + |p.data| <= |data| + 1
  {
    match kind
    case Other =>
      if |data| > 0 && data[0].Flag? then Progress([], None) else Progress(data, None)
    case Backlog(title) =>
      var d := data + [Label(title)];
      if |d| < RecordLength then Progress(d, None) else Progress([], Some(d))
    case Bullet(key, bit) =>
      var d := data + [Flag(bit)];
      if |d| < RecordLength && key != HowIndex then Progress(d, None)
      else if |d| == RecordLength then Progress([], Some(d))
      else Progress([], None)
  }

  /**
   * The record-assembly rules of one line: a line matching no rule adds
   * nothing and drops a record that starts with a flag; a heading or a bullet
   * appends its cell, and the record is written exactly when that cell is
   * the seventh; a How bullet always ends the record.
   */
  lemma FeedRules(kind: LineKind, data: Row)
    requires |data| < RecordLength && FlagsAreBits(data)
    requires kind.Bullet? ==> kind.bit == 0 || kind.bit == 1
    ensures kind.Other? ==> Feed(kind, data).written.None? && Feed(kind, data).data == (if |data| > 0 && data[0].Flag? then [] else data)
    ensures !kind.Other? ==>
      var cell := if kind.Backlog? then Label(kind.title) else Flag(kind.bit);
      && (Feed(kind, data).written.Some? <==> |data| + 1 == RecordLength)
      && (Feed(kind, data).written.Some? ==> Feed(kind, data).written.value == data + [cell])
      && (Feed(kind, data).written.None? && !(kind.Bullet? && kind.key == HowIndex) ==> Feed(kind, data).data == data + [cell])
    ensures kind.Bullet? && kind.key == HowIndex ==> Feed(kind, data).data == []
  {
  }

  /** `rows` with the completed row, if any, appended. */
  function Emit(rows: seq<Row>, written: Option<Row>): seq<Row> {
    match written
    case Some(w) => rows + [w]
    case None => rows
  }

  /**
   * The record loop from the current line on. `data` is the record being
   * read and `rows` the rows already written. The end of input (no line, or
   * an empty read) stops at once and drops `data`; a record is written only
   * when it holds seven cells.
   */
  function Scan(lines: seq<string>, data: Row, rows: seq<Row>): (r: seq<Row>)
    requires |data| < RecordLength && FlagsAreBits(data)
    ensures |r| >= |rows| && r[..|rows|] == rows
    ensures forall k :: |rows| <= k < |r| ==> WellFormedRow(r[k])
    ensures RecordLength * (|r| - |rows|) <= |lines| + |data|
    decreases |lines|
  {
    if |lines| == 0 || lines[0] == "" then rows
    else
      var p := Feed(Classify(lines[0]), data);
      var next := Emit(rows, p.written);
      var r := Scan(lines[1..], p.data, next);
      assert r[..|rows|] == next[..|rows|];
      r
  }

  /**
   * The sheet built from the report's lines: the header row, then one row
   * per complete record. Each body row consumes at least seven lines.
   */
  function Parse(lines: seq<string>): (r: seq<Row>)
    ensures |r| >= 1 && r[0] == HeaderRow
    ensures forall k :: 1 <= k < |r| ==> WellFormedRow(r[k])
    ensures RecordLength * (|r| - 1) <= |lines|
  {
    [HeaderRow] + Scan(lines, [], [])
  }

  /** A backlog entry as the report states it: a title and, per question word, whether it is answered. */
  datatype Record = Record(title: string, present: seq<bool>)

  /** Titles free of `#` and newlines and not naming the 5W1H heading; one answer per question word. */
  predicate WellFormedRecord(r: Record) {
    && |r.present| == |Keywords|
    && '#' !in r.title && '\n' !in r.title
    && !Contains(r.title, "5W1H")
  }

  function Status(present: bool): string {
    if present then "Yes" else "Missing"
  }

  function TitleLine(title: string): string {
    "### " + title + "\n"
  }

  /** The part of a bullet line before its status: `- Word: `. */
  function BulletHead(i: nat): string
    requires i < |Keywords|
  {
    "- " + Keywords[i] + ": "
  }

  function BulletLine(i: nat, present: bool): string
    requires i < |Keywords|
  {
    BulletHead(i) + Status(present) + "\n"
  }

  /** The bullet lines for question words `k` onwards. */
  function BulletsFrom(r: Record, k: nat): (ls: seq<string>)
    requires WellFormedRecord(r) && k <= |Keywords|
    ensures |ls| == |Keywords| - k
    decreases |Keywords| - k
  {
    if k == |Keywords| then [] else [BulletLine(k, r.present[k])] + BulletsFrom(r, k + 1)
  }

  /** The report lines of one entry: its heading and six bullets. */
  function RecordLines(r: Record): seq<string>
    requires WellFormedRecord(r)
  {
    [TitleLine(r.title)] + BulletsFrom(r, 0)
  }

  /** The report lines of a list of entries. */
  function Render(rs: seq<Record>): seq<string>
    requires forall i :: 0 <= i < |rs| ==> WellFormedRecord(rs[i])
  {
    if |rs| == 0 then [] else RecordLines(rs[0]) + Render(rs[1..])
  }

  function Bit(present: bool): int {
    if present then 1 else 0
  }

  /** The title followed by the flags of the first `k` question words. */
  function RowPrefix(r: Record, k: nat): (row: Row)
    requires WellFormedRecord(r) && k <= |Keywords|
    ensures |row| == k + 1
    ensures forall c :: c in row && c.Flag? ==> c.bit == 0 || c.bit == 1
  {
    [Label(r.title)] + seq(k, i requires 0 <= i < k => Flag(Bit(r.present[i])))
  }

  /** The sheet row of one entry. */
  function RowOf(r: Record): Row
    requires WellFormedRecord(r)
  {
    RowPrefix(r, |Keywords|)
  }

  /** A heading line is read back as its title. */
  lemma ClassifyTitle(title: string)
    requires '#' !in title && '\n' !in title && !Contains(title, "5W1H")
    ensures Classify(TitleLine(title)) == Backlog(title)
  {
    var line := TitleLine(title);
    assert StartsWith(line, "###");
    PrefixContains(line, "###");
    ExcludedAround("### ", title, "\n", "5W1H");
    assert line == "### " + (title + "\n");
    ReplaceLeading("### ", title + "\n", "");
    assert '#' !in title + "\n";
    AbsentCharExcludes(title + "\n", "### ", 0);
    ReplaceWithoutMatch(title + "\n", "### ", "");
    assert ReplaceAll(line, "### ", "") == title + "\n";
    DropTrailingNewline(title);
  }

  /** A character of question word `j` that the bullet for word `i` lacks (`j < i`). */
  function Separator(j: nat, i: nat, present: bool): nat {
    if i == HowIndex then 0
    else if j <= 1 then 2
    else if j == 2 then 3
    else if present then 3 else 2
  }

  /** A character absent from the question word, the status and the punctuation is absent from the bullet. */
  lemma NotInBullet(c: char, i: nat, present: bool)
    requires i < |Keywords| && c !in Keywords[i] && c !in Status(present)
    requires c != '-' && c != ' ' && c != ':' && c != '\n'
    ensures c !in BulletLine(i, present)
  {
    assert c !in BulletHead(i);
  }

  /** A bullet line is no heading, starts with `-` and names its own question word. */
  lemma BulletShape(i: nat, present: bool)
    requires i < |Keywords|
    ensures var line := BulletLine(i, present);
      !Contains(line, "###") && StartsWith(line, "-") && Contains(line, Keywords[i])
  {
    var line := BulletLine(i, present);
    assert !Contains(line, "###") by {
      assert '#' !in Keywords[i] by {
        assert i == 0 || i == 1 || i == 2 || i == 3 || i == 4 || i == 5;
      }
      NotInBullet('#', i, present);
      AbsentCharExcludes(line, "###", 0);
    }
    assert StartsWith(line, "-") by {
      assert line[..1] == "-";
    }
    assert Contains(line, Keywords[i]) by {
      PrefixContains(Keywords[i], Keywords[i]);
      InfixContains("- ", Keywords[i], ": ", Keywords[i]);
      InfixContains("", BulletHead(i), Status(present) + "\n", Keywords[i]);
      assert "" + BulletHead(i) + (Status(present) + "\n") == line;
    }
  }

  /** A bullet line names no earlier question word. */
  lemma BulletNamesNoEarlierWord(i: nat, present: bool, j: nat)
    requires j < i < |Keywords|
    ensures !Contains(BulletLine(i, present), Keywords[j])
  {
    var k := Separator(j, i, present);
    assert k < |Keywords[j]| && Keywords[j][k] !in Keywords[i] && Keywords[j][k] !in Status(present)
      && Keywords[j][k] !in "- :\n" by {
      assert i == 1 || i == 2 || i == 3 || i == 4 || i == 5;
      assert j == 0 || j == 1 || j == 2 || j == 3 || j == 4;
    }
    NotInBullet(Keywords[j][k], i, present);
    AbsentCharExcludes(BulletLine(i, present), Keywords[j], k);
  }

  /** A bullet line mentions "Missing" exactly when the answer is missing. */
  lemma BulletMissing(i: nat, present: bool)
    requires i < |Keywords|
    ensures Contains(BulletLine(i, present), "Missing") <==> !present
  {
    var line := BulletLine(i, present);
    if present {
      assert 'M' !in Keywords[i] by {
        assert i == 0 || i == 1 || i == 2 || i == 3 || i == 4 || i == 5;
      }
      NotInBullet('M', i, present);
      AbsentCharExcludes(line, "Missing", 0);
    } else {
      PrefixContains("Missing", "Missing");
      InfixContains(BulletHead(i), "Missing", "\n", "Missing");
    }
  }

  /** A bullet line is read back as its question word and flag. */
  lemma ClassifyBullet(i: nat, present: bool)
    requires i < |Keywords|
    ensures Classify(BulletLine(i, present)) == Bullet(i, Bit(present))
  {
    BulletShape(i, present);
    BulletMissing(i, present);
    forall j | 0 <= j < i
      ensures !Contains(BulletLine(i, present), Keywords[j])
    {
      BulletNamesNoEarlierWord(i, present, j);
    }
  }

  /** One step of the record loop over a rendered bullet line. */
  lemma ScanBulletLine(r: Record, k: nat, rest: seq<string>, rows: seq<Row>)
    requires WellFormedRecord(r) && k < |Keywords|
    ensures var d := RowPrefix(r, k + 1);
      Scan([BulletLine(k, r.present[k])] + rest, RowPrefix(r, k), rows) ==
        if k < HowIndex then Scan(rest, d, rows) else Scan(rest, [], rows + [d])
  {
    var lines := [BulletLine(k, r.present[k])] + rest;
    ClassifyBullet(k, r.present[k]);
    RowPrefixSnoc(r, k);
    assert lines[1..] == rest;
  }

  /** Appending the flag of word `k` extends the row prefix by one cell. */
  lemma RowPrefixSnoc(r: Record, k: nat)
    requires WellFormedRecord(r) && k < |Keywords|
    ensures RowPrefix(r, k) + [Flag(Bit(r.present[k]))] == RowPrefix(r, k + 1)
  {
    assert (RowPrefix(r, k) + [Flag(Bit(r.present[k]))])[k + 1] == RowPrefix(r, k + 1)[k + 1];
  }

  /** The bullets from word `k` on are the bullet of word `k` followed by those from `k + 1` on. */
  lemma BulletsFromCons(r: Record, k: nat, rest: seq<string>)
    requires WellFormedRecord(r) && k < |Keywords|
    ensures BulletsFrom(r, k) + rest == [BulletLine(k, r.present[k])] + (BulletsFrom(r, k + 1) + rest)
  {
  }

  /** Reading the bullets of word `k` onwards completes the record and writes its row. */
  lemma {:induction false} ScanBullets(r: Record, k: nat, rest: seq<string>, rows: seq<Row>)
    requires WellFormedRecord(r) && k < |Keywords|
    ensures Scan(BulletsFrom(r, k) + rest, RowPrefix(r, k), rows) == Scan(rest, [], rows + [RowOf(r)])
    decreases |Keywords| - k
  {
    BulletsFromCons(r, k, rest);
    ScanBulletLine(r, k, BulletsFrom(r, k + 1) + rest, rows);
    if k < HowIndex {
      ScanBullets(r, k + 1, rest, rows);
    } else {
      assert BulletsFrom(r, k + 1) + rest == rest;
      assert RowPrefix(r, k + 1) == RowOf(r);
    }
  }

  /** Reading one rendered entry writes exactly its row. */
  lemma ScanRecord(r: Record, rest: seq<string>, rows: seq<Row>)
    requires WellFormedRecord(r)
    ensures Scan(RecordLines(r) + rest, [], rows) == Scan(rest, [], rows + [RowOf(r)])
  {
    var lines := RecordLines(r) + rest;
    assert lines[0] == TitleLine(r.title);
    ClassifyTitle(r.title);
    assert lines[1..] == BulletsFrom(r, 0) + rest;
    assert [] + [Label(r.title)] == RowPrefix(r, 0);
    ScanBullets(r, 0, rest, rows);
  }

  /** The rows of a list of entries. */
  function RowsOf(rs: seq<Record>): (rows: seq<Row>)
    requires forall i :: 0 <= i < |rs| ==> WellFormedRecord(rs[i])
    ensures |rows| == |rs|
  {
    if |rs| == 0 then [] else [RowOf(rs[0])] + RowsOf(rs[1..])
  }

  /** Reading the first rendered entry writes its row and leaves the rest of the report. */
  lemma ScanRenderStep(rs: seq<Record>, rows: seq<Row>)
    requires |rs| > 0 && forall i :: 0 <= i < |rs| ==> WellFormedRecord(rs[i])
    ensures Scan(Render(rs), [], rows) == Scan(Render(rs[1..]), [], rows + [RowOf(rs[0])])
  {
    assert Render(rs) == RecordLines(rs[0]) + Render(rs[1..]);
    ScanRecord(rs[0], Render(rs[1..]), rows);
  }

  lemma {:induction false} ScanRender(rs: seq<Record>, rows: seq<Row>)
    requires forall i :: 0 <= i < |rs| ==> WellFormedRecord(rs[i])
    ensures Scan(Render(rs), [], rows) == rows + RowsOf(rs)
  {
    if |rs| > 0 {
      var tail := rs[1..];
      var next := rows + [RowOf(rs[0])];
      var x := Scan(Render(rs), [], rows);
      var y := Scan(Render(tail), [], next);
      assert x == y by { ScanRenderStep(rs, rows); }
      assert y == next + RowsOf(tail) by {
        assert forall i :: 0 <= i < |tail| ==> WellFormedRecord(tail[i]) by {
          forall i | 0 <= i < |tail|
            ensures WellFormedRecord(tail[i])
          {
            assert tail[i] == rs[i + 1];
          }
        }
        ScanRender(tail, next);
      }
      assert next + RowsOf(tail) == rows + RowsOf(rs) by {
        assert RowsOf(rs) == [RowOf(rs[0])] + RowsOf(tail);
      }
    } else {
      assert Render(rs) == [];
      assert RowsOf(rs) == [];
    }
  }

  /** Parsing a rendered report gives back the header row and one row per entry, in order. */
  lemma ParseRender(rs: seq<Record>)
    requires forall i :: 0 <= i < |rs| ==> WellFormedRecord(rs[i])
    ensures Parse(Render(rs)) == [HeaderRow] + RowsOf(rs)
  {
    ScanRender(rs, []);
  }
}

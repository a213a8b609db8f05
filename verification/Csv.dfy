/** CSV reports, and a reader for them that follows section 2 of RFC 4180 with LF as the record end. */
module Csv {
  import opened Tenancy

  predicate Delimiter(c: char) { c == ',' || c == '"' || c == '\n' }

  /** Text that needs no quotes. */
  predicate Plain(s: string) { forall i :: 0 <= i < |s| ==> !Delimiter(s[i]) }

  function Doubled(s: string): string {
    if s == "" then "" else (if s[0] == '"' then "\"\"" else [s[0]]) + Doubled(s[1..])
  }

  function CsvQuote(s: string): string { if Plain(s) then s else "\"" + Doubled(s) + "\"" }

  /** A column is written quoted where needed, or as it is. */
  datatype Cell = Quoted(text: string) | AsIs(text: string)

  function Written(c: Cell): string { if c.Quoted? then CsvQuote(c.text) else c.text }

  type Row = r: seq<Cell> | r != [] witness [AsIs("")]

  function PrintRow(r: Row): string {
    if |r| == 1 then Written(r[0]) + "\n" else Written(r[0]) + "," + PrintRow(r[1..])
  }

  function Print(table: seq<Row>): string {
    if table == [] then "" else PrintRow(table[0]) + Print(table[1..])
  }

  // ---- The reader ---------------------------------------------------------------------------------------

  function Read(s: string): Option<seq<seq<string>>>
    decreases |s|
  {
    if s == "" then Some([])
    else
      match ReadRow(s)
      case None => None
      case Some(row) =>
        match Read(row.1)
        case None => None
        case Some(rows) => Some([row.0] + rows)
  }

  function ReadRow(s: string): (r: Option<(seq<string>, string)>)
    ensures r.Some? ==> |r.value.1| < |s|
    decreases |s|
  {
    match ReadField(s)
    case None => None
    case Some(field) =>
      if field.1 == "" then None
      else if field.1[0] == '\n' then Some(([field.0], field.1[1..]))
      else if field.1[0] != ',' then None
      else
        match ReadRow(field.1[1..])
        case None => None
        case Some(row) => Some(([field.0] + row.0, row.1))
  }

  function ReadField(s: string): (r: Option<(string, string)>)
    ensures r.Some? ==> |r.value.1| <= |s|
  {
    if s != "" && s[0] == '"' then ReadQuoted(s[1..]) else Some(ReadBare(s))
  }

  function ReadBare(s: string): (r: (string, string))
    ensures |r.0| + |r.1| == |s| && Plain(r.0)
  {
    if s == "" || Delimiter(s[0]) then ("", s) else var r := ReadBare(s[1..]); ([s[0]] + r.0, r.1)
  }

  /** The inside of a quoted field, after its opening quote: two quotes are one. */
  function ReadQuoted(s: string): (r: Option<(string, string)>)
    ensures r.Some? ==> |r.value.1| < |s|
    decreases |s|
  {
    if s == "" then None
    else if s[0] != '"' then
      match ReadQuoted(s[1..])
      case None => None
      case Some(r) => Some(([s[0]] + r.0, r.1))
    else if |s| > 1 && s[1] == '"' then
      match ReadQuoted(s[2..])
      case None => None
      case Some(r) => Some(("\"" + r.0, r.1))
    else Some(("", s[1..]))
  }

  // ---- Printing then reading ----------------------------------------------------------------------------

  lemma {:induction false} QuotedReadsBack(s: string, rest: string)
    requires rest != "" ==> rest[0] != '"'
    ensures ReadQuoted(Doubled(s) + "\"" + rest) == Some((s, rest))
  {
    var whole := Doubled(s) + "\"" + rest;
    if s == "" {
      assert whole[1..] == rest;
    } else {
      QuotedReadsBack(s[1..], rest);
      var tail := Doubled(s[1..]) + "\"" + rest;
      if s[0] == '"' {
        assert whole == "\"\"" + tail && whole[2..] == tail;
      } else {
        assert whole == [s[0]] + tail && whole[1..] == tail;
      }
      assert s == [s[0]] + s[1..];
    }
  }

  lemma {:induction false} BareReadsBack(s: string, rest: string)
    requires Plain(s) && rest != "" && Delimiter(rest[0])
    ensures ReadBare(s + rest) == (s, rest)
  {
    if s == "" {
      assert s + rest == rest;
    } else {
      assert (s + rest)[1..] == s[1..] + rest && (s + rest)[0] == s[0];
      BareReadsBack(s[1..], rest);
      assert s == [s[0]] + s[1..];
    }
  }

  lemma FieldReadsBack(c: Cell, rest: string)
    requires (c.AsIs? ==> Plain(c.text)) && rest != "" && (rest[0] == ',' || rest[0] == '\n')
    ensures ReadField(Written(c) + rest) == Some((c.text, rest))
  {
    hide Doubled, ReadQuoted, ReadBare;
    if Plain(c.text) {
      assert c.text != "" ==> (c.text + rest)[0] == c.text[0];
      BareReadsBack(c.text, rest);
    } else {
      assert (Written(c) + rest)[1..] == Doubled(c.text) + "\"" + rest;
      QuotedReadsBack(c.text, rest);
    }
  }

  predicate RowPlain(r: Row) { forall c :: c in r && c.AsIs? ==> Plain(c.text) }

  function RowTexts(r: Row): seq<string> { seq(|r|, i requires 0 <= i < |r| => r[i].text) }

  function Texts(table: seq<Row>): seq<seq<string>> { seq(|table|, i requires 0 <= i < |table| => RowTexts(table[i])) }

  lemma {:induction false} RowReadsBack(r: Row, rest: string)
    requires RowPlain(r)
    ensures ReadRow(PrintRow(r) + rest) == Some((RowTexts(r), rest))
    decreases |r|
  {
    hide Written, ReadField, Plain;
    assert r[0] in r;
    if |r| == 1 {
      assert PrintRow(r) + rest == Written(r[0]) + ("\n" + rest);
      FieldReadsBack(r[0], "\n" + rest);
      assert ("\n" + rest)[1..] == rest;
      assert RowTexts(r) == [r[0].text];
    } else {
      var tail: Row := r[1..];
      var after := "," + (PrintRow(tail) + rest);
      assert PrintRow(r) + rest == Written(r[0]) + after;
      FieldReadsBack(r[0], after);
      assert after[1..] == PrintRow(tail) + rest;
      RowReadsBack(tail, rest);
      assert RowTexts(r) == [r[0].text] + RowTexts(tail);
    }
  }

  /** What is printed reads back exactly, as long as no column written as it is holds a delimiter. */
  lemma {:induction false} TableReadsBack(table: seq<Row>)
    requires forall r :: r in table ==> RowPlain(r)
    ensures Read(Print(table)) == Some(Texts(table))
  {
    if table == [] {
    } else {
      RowReadsBack(table[0], Print(table[1..]));
      TableReadsBack(table[1..]);
      assert PrintRow(table[0]) != "";
      assert Texts(table) == [RowTexts(table[0])] + Texts(table[1..]);
    }
  }

  // ---- Nothing shorter reads back, so unquoted delimiters never do --------------------------------------

  lemma {:induction false} DoubledIsLonger(s: string)
    ensures |Doubled(s)| >= |s|
  {
    if s != "" { DoubledIsLonger(s[1..]); }
  }

  lemma {:induction false} QuotedLength(s: string)
    ensures var r := ReadQuoted(s); r.Some? ==> |s| == |Doubled(r.value.0)| + 1 + |r.value.1|
    decreases |s|
  {
    if s != "" && s[0] != '"' {
      QuotedLength(s[1..]);
      var r := ReadQuoted(s[1..]);
      if r.Some? { assert ([s[0]] + r.value.0)[1..] == r.value.0; }
    } else if |s| > 1 && s[1] == '"' {
      QuotedLength(s[2..]);
      var r := ReadQuoted(s[2..]);
      if r.Some? { assert ("\"" + r.value.0)[1..] == r.value.0; }
    }
  }

  lemma FieldIsShortest(s: string)
    ensures var r := ReadField(s); r.Some? ==> |s| >= |CsvQuote(r.value.0)| + |r.value.1|
  {
    if s != "" && s[0] == '"' {
      QuotedLength(s[1..]);
      var r := ReadQuoted(s[1..]);
      if r.Some? { DoubledIsLonger(r.value.0); }
    }
  }

  function AllQuoted(fields: seq<string>): seq<Cell> {
    seq(|fields|, i requires 0 <= i < |fields| => Quoted(fields[i]))
  }

  lemma {:induction false} RowIsShortest(s: string)
    ensures var r := ReadRow(s); r.Some? ==> r.value.0 != [] && |s| >= |PrintRow(AllQuoted(r.value.0))| + |r.value.1|
    decreases |s|
  {
    FieldIsShortest(s);
    var f := ReadField(s);
    if f.Some? && f.value.1 != "" {
      if f.value.1[0] == '\n' {
        assert AllQuoted([f.value.0]) == [Quoted(f.value.0)];
      } else if f.value.1[0] == ',' {
        RowIsShortest(f.value.1[1..]);
        var r := ReadRow(f.value.1[1..]);
        if r.Some? {
          var cells := AllQuoted([f.value.0] + r.value.0);
          assert cells[1..] == AllQuoted(r.value.0);
        }
      }
    }
  }

  /** How long a table is when every column is quoted where needed. */
  function QuotedLengthOf(rows: seq<seq<string>>): nat
    requires forall r :: r in rows ==> r != []
  {
    if rows == [] then 0 else
      assert rows[0] in rows && forall r :: r in rows[1..] ==> r in rows;
      |PrintRow(AllQuoted(rows[0]))| + QuotedLengthOf(rows[1..])
  }

  /** Quoting only where needed is the shortest way to write a table: no shorter text reads as it. */
  lemma {:induction false} QuotingIsShortest(s: string)
    ensures var r := Read(s); r.Some? ==> (forall row :: row in r.value ==> row != []) && |s| >= QuotedLengthOf(r.value)
    decreases |s|
  {
    if s == "" {
    } else {
      RowIsShortest(s);
      var row := ReadRow(s);
      if row.Some? {
        QuotingIsShortest(row.value.1);
        var rows := Read(row.value.1);
        if rows.Some? { assert ([row.value.0] + rows.value)[1..] == rows.value; }
      }
    }
  }

  lemma {:induction false} RowLength(r: Row)
    ensures |PrintRow(r)| <= |PrintRow(AllQuoted(RowTexts(r)))|
    ensures !RowPlain(r) ==> |PrintRow(r)| < |PrintRow(AllQuoted(RowTexts(r)))|
    decreases |r|
  {
    var q := AllQuoted(RowTexts(r));
    DoubledIsLonger(r[0].text);
    assert q[0] == Quoted(r[0].text);
    if |r| > 1 {
      var tail: Row := r[1..];
      assert q[1..] == AllQuoted(RowTexts(tail));
      RowLength(tail);
      assert r == [r[0]] + tail;
    } else {
      assert r == [r[0]];
    }
  }

  lemma {:induction false} TableLength(table: seq<Row>)
    ensures forall r :: r in Texts(table) ==> r != []
    ensures |Print(table)| <= QuotedLengthOf(Texts(table))
    ensures (exists r :: r in table && !RowPlain(r)) ==> |Print(table)| < QuotedLengthOf(Texts(table))
  {
    hide PrintRow, AllQuoted, RowPlain;
    if table == [] {
    } else {
      RowLength(table[0]);
      TableLength(table[1..]);
      assert Texts(table)[1..] == Texts(table[1..]) && Texts(table)[0] == RowTexts(table[0]);
      assert table == [table[0]] + table[1..];
    }
  }

  /** A table reads back exactly if and only if no column written as it is holds a comma, a quote or
      a line feed. */
  lemma ReadsBackIff(table: seq<Row>)
    ensures Read(Print(table)) == Some(Texts(table)) <==> forall r :: r in table ==> RowPlain(r)
  {
    if forall r :: r in table ==> RowPlain(r) {
      TableReadsBack(table);
    } else {
      TableLength(table);
      QuotingIsShortest(Print(table));
    }
  }

  // ---- The reports -----------------------------------------------------------------------------------------

  /** %d. */
  function Decimal(n: int): (s: string)
    ensures s != "" && Plain(s)
    decreases n < 0, if n < 0 then -n else n
  {
    if n < 0 then "-" + Decimal(-n)
    else if n < 10 then ["0123456789"[n]]
    else Decimal(n / 10) + ["0123456789"[n % 10]]
  }

  datatype Task = Task(
    key: string, title: string, status: string, points: int, priority: int,
    projectId: string, createdAt: string, updatedAt: string)

  function TaskRow(t: Task): Row {
    [Quoted(t.key), Quoted(t.title), Quoted(t.status), AsIs(Decimal(t.points)), AsIs(Decimal(t.priority)),
     AsIs(t.projectId), AsIs(t.createdAt), AsIs(t.updatedAt)]
  }

  function TaskHeader(): Row {
    [AsIs("key"), AsIs("title"), AsIs("status"), AsIs("points"), AsIs("priority"), AsIs("project_id"),
      AsIs("created_at"), AsIs("updated_at")]
  }

  function TaskRows(tasks: seq<Task>): seq<Row> { seq(|tasks|, i requires 0 <= i < |tasks| => TaskRow(tasks[i])) }

  lemma {:induction false} PrintAppends(table: seq<Row>, r: Row)
    ensures Print(table + [r]) == Print(table) + PrintRow(r)
  {
    if table == [] {
      assert table + [r] == [r] && [r][1..] == [];
    } else {
      assert (table + [r])[1..] == table[1..] + [r];
      PrintAppends(table[1..], r);
    }
  }

  method CsvTasks(tasks: seq<Task>) returns (out: string)
    ensures out == Print([TaskHeader()] + TaskRows(tasks))
  {
    hide TaskHeader, TaskRow, PrintRow;
    out := PrintRow(TaskHeader());
    assert [TaskHeader()] + TaskRows([]) == [TaskHeader()] && [TaskHeader()][1..] == [];
    for i := 0 to |tasks|
      invariant out == Print([TaskHeader()] + TaskRows(tasks[..i]))
    {
      out := out + PrintRow(TaskRow(tasks[i]));
      PrintAppends([TaskHeader()] + TaskRows(tasks[..i]), TaskRow(tasks[i]));
      assert [TaskHeader()] + TaskRows(tasks[..i + 1]) == ([TaskHeader()] + TaskRows(tasks[..i])) + [TaskRow(tasks[i])];
    }
    assert tasks[..|tasks|] == tasks;
  }

  lemma ShortNamesPlain()
    ensures Plain("key") && Plain("title") && Plain("status") && Plain("points")
  {
  }

  lemma LongNamesPlain()
    ensures Plain("priority") && Plain("project_id") && Plain("created_at") && Plain("updated_at")
  {
  }

  lemma HeaderIsPlain()
    ensures RowPlain(TaskHeader())
  {
    hide Plain;
    ShortNamesPlain();
    LongNamesPlain();
  }

  lemma TaskRowPlainIff(t: Task)
    ensures RowPlain(TaskRow(t)) <==> Plain(t.projectId) && Plain(t.createdAt) && Plain(t.updatedAt)
  {
    hide Plain;
    var r := TaskRow(t);
    assert r[5] in r && r[6] in r && r[7] in r;
  }

  /** The export of tasks reads back, header included, exactly when the three columns it never quotes
      hold no delimiter; keys, titles and statuses may hold anything. */
  lemma TaskExportReadsBackIff(tasks: seq<Task>)
    ensures var table := [TaskHeader()] + TaskRows(tasks);
            Read(Print(table)) == Some(Texts(table)) <==>
              forall t :: t in tasks ==> Plain(t.projectId) && Plain(t.createdAt) && Plain(t.updatedAt)
  {
    hide RowPlain, Plain, Read, Print, Texts, TaskHeader, TaskRow;
    var table := [TaskHeader()] + TaskRows(tasks);
    ReadsBackIff(table);
    HeaderIsPlain();
    forall t: Task ensures RowPlain(TaskRow(t)) <==> Plain(t.projectId) && Plain(t.createdAt) && Plain(t.updatedAt) {
      TaskRowPlainIff(t);
    }
    assert forall i :: 0 <= i < |tasks| ==> TaskRow(tasks[i]) == table[i + 1];
    assert forall r :: r in table ==> r == TaskHeader() || exists t :: t in tasks && r == TaskRow(t);
  }

  datatype Distribution = Distribution(project: string, taskCount: int, totalPoints: int, doneCount: int)

  function DistributionHeader(): Row { [AsIs("project"), AsIs("task_count"), AsIs("total_points"), AsIs("done_count")] }

  function DistributionRow(d: Distribution): Row {
    [Quoted(d.project), AsIs(Decimal(d.taskCount)), AsIs(Decimal(d.totalPoints)), AsIs(Decimal(d.doneCount))]
  }

  function DistributionRows(ds: seq<Distribution>): seq<Row> {
    seq(|ds|, i requires 0 <= i < |ds| => DistributionRow(ds[i]))
  }

  lemma DistributionHeaderIsPlain()
    ensures RowPlain(DistributionHeader())
  {
    assert Plain("project") && Plain("task_count");
    assert Plain("total_points") && Plain("done_count");
  }

  /** The report by project, header included, always reads back, whatever the projects are called. */
  lemma DistributionsReadBack(ds: seq<Distribution>)
    ensures var table := [DistributionHeader()] + DistributionRows(ds); Read(Print(table)) == Some(Texts(table))
  {
    hide DistributionHeader, Read, Print, Texts;
    var table := [DistributionHeader()] + DistributionRows(ds);
    DistributionHeaderIsPlain();
    forall i | 0 <= i < |ds| ensures RowPlain(DistributionRow(ds[i])) {}
    assert forall i :: 0 < i < |table| ==> table[i] == DistributionRow(ds[i - 1]);
    TableReadsBack(table);
  }

  // ---- What the reports say ----------------------------------------------------------------------------------

  /** The number a string of decimal digits denotes. */
  function Digits(s: string): Option<nat> {
    if s == "" || !('0' <= s[|s| - 1] <= '9') then None
    else
      var digit := s[|s| - 1] as int - '0' as int;
      if |s| == 1 then Some(digit)
      else
        match Digits(s[..|s| - 1])
        case None => None
        case Some(n) => Some(10 * n + digit)
  }

  function Number(s: string): Option<int> {
    if s == "" || s[0] != '-' then Digits(s)
    else if Digits(s[1..]).None? then None
    else Some(-(Digits(s[1..]).value as int))
  }

  lemma DigitIsItself(d: nat)
    requires d < 10
    ensures "0123456789"[d] as int == '0' as int + d
  {
  }

  lemma {:induction false} DigitsReadBack(n: nat)
    ensures Digits(Decimal(n)) == Some(n) && Decimal(n)[0] != '-' && (n > 0 ==> Decimal(n)[0] != '0')
  {
    DigitIsItself(n % 10);
    if n >= 10 {
      DigitsReadBack(n / 10);
      assert Decimal(n)[..|Decimal(n)| - 1] == Decimal(n / 10);
    }
  }

  /** A printed number denotes what was printed. */
  lemma DecimalReadsBack(n: int)
    ensures Number(Decimal(n)) == Some(n)
  {
    hide Digits;
    DigitsReadBack(if n < 0 then -n else n);
    if n < 0 { assert Decimal(n) == "-" + Decimal(-n) && Decimal(n)[1..] == Decimal(-n); }
  }

  /** The first column with this name. */
  function Position(header: seq<string>, name: string): nat {
    if header == [] || header[0] == name then 0 else 1 + Position(header[1..], name)
  }

  /** The field of record i, counted after the header, in the column with this name. */
  function Under(records: seq<seq<string>>, i: nat, name: string): Option<string> {
    if i + 1 < |records| && Position(records[0], name) < |records[0]| == |records[i + 1]|
    then Some(records[i + 1][Position(records[0], name)]) else None
  }

  lemma {:induction false} PositionAt(header: seq<string>, k: nat, name: string)
    requires k < |header| && header[k] == name && forall j :: 0 <= j < k ==> header[j] != name
    ensures Position(header, name) == k
  {
    if k > 0 { PositionAt(header[1..], k - 1, name); }
  }

  /** Different names stand in different columns. */
  lemma PositionsOf(header: seq<string>)
    requires forall i, j :: 0 <= i < j < |header| ==> header[i] != header[j]
    ensures forall k :: 0 <= k < |header| ==> Position(header, header[k]) == k
  {
    forall k | 0 <= k < |header| ensures Position(header, header[k]) == k { PositionAt(header, k, header[k]); }
  }

  lemma TaskNamesDiffer(header: seq<string>)
    requires header == ["key", "title", "status", "points", "priority", "project_id", "created_at", "updated_at"]
    ensures forall i, j :: 0 <= i < j < |header| ==> header[i] != header[j]
  {
    assert "title"[0] == 't' && "status"[0] == 's' && "points"[1] == 'o' && "priority"[1] == 'r';
    assert "project_id"[0] == 'p' && "created_at"[0] == 'c' && "updated_at"[0] == 'u';
  }

  /** A column of a table is found under its name. */
  lemma ColumnReadsBack(table: seq<Row>, i: nat, k: nat)
    requires i + 1 < |table| && k < |table[0]| == |table[i + 1]|
    requires forall a, b :: 0 <= a < b < |table[0]| ==> table[0][a].text != table[0][b].text
    ensures Under(Texts(table), i, table[0][k].text) == Some(table[i + 1][k].text)
  {
    PositionsOf(RowTexts(table[0]));
    assert RowTexts(table[0])[k] == table[0][k].text && RowTexts(table[i + 1])[k] == table[i + 1][k].text;
  }

  /** Reading an export of tasks back finds every field of every task under the name of its column. */
  lemma TaskFieldsReadBack(tasks: seq<Task>, i: nat)
    requires forall t :: t in tasks ==> Plain(t.projectId) && Plain(t.createdAt) && Plain(t.updatedAt)
    requires i < |tasks|
    ensures Read(Print([TaskHeader()] + TaskRows(tasks))) == Some(Texts([TaskHeader()] + TaskRows(tasks)))
    ensures var t, rs := tasks[i], Texts([TaskHeader()] + TaskRows(tasks));
            Under(rs, i, "key") == Some(t.key) && Under(rs, i, "title") == Some(t.title) &&
            Under(rs, i, "status") == Some(t.status) && Under(rs, i, "project_id") == Some(t.projectId) &&
            Under(rs, i, "created_at") == Some(t.createdAt) && Under(rs, i, "updated_at") == Some(t.updatedAt) &&
            Under(rs, i, "points").Some? && Number(Under(rs, i, "points").value) == Some(t.points) &&
            Under(rs, i, "priority").Some? && Number(Under(rs, i, "priority").value) == Some(t.priority)
  {
    hide Plain, Read, Print, Number, Decimal, Under, Texts;
    var table, t := [TaskHeader()] + TaskRows(tasks), tasks[i];
    TaskExportReadsBackIff(tasks);
    TaskNamesDiffer(RowTexts(table[0]));
    assert forall a :: 0 <= a < |table[0]| ==> RowTexts(table[0])[a] == table[0][a].text;
    assert table[i + 1] == TaskRow(t);
    forall k | 0 <= k < 8 ensures Under(Texts(table), i, table[0][k].text) == Some(TaskRow(t)[k].text) {
      ColumnReadsBack(table, i, k);
    }
    assert table[0][0].text == "key" && table[0][1].text == "title" && table[0][2].text == "status";
    assert table[0][3].text == "points" && table[0][4].text == "priority" && table[0][5].text == "project_id";
    assert table[0][6].text == "created_at" && table[0][7].text == "updated_at";
    DecimalReadsBack(t.points);
    DecimalReadsBack(t.priority);
  }

  /** The same for the report by project, with no condition. */
  lemma DistributionFieldsReadBack(ds: seq<Distribution>, i: nat)
    requires i < |ds|
    ensures Read(Print([DistributionHeader()] + DistributionRows(ds))) ==
            Some(Texts([DistributionHeader()] + DistributionRows(ds)))
    ensures var d, rs := ds[i], Texts([DistributionHeader()] + DistributionRows(ds));
            Under(rs, i, "project") == Some(d.project) &&
            Under(rs, i, "task_count").Some? && Number(Under(rs, i, "task_count").value) == Some(d.taskCount) &&
            Under(rs, i, "total_points").Some? && Number(Under(rs, i, "total_points").value) == Some(d.totalPoints) &&
            Under(rs, i, "done_count").Some? && Number(Under(rs, i, "done_count").value) == Some(d.doneCount)
  {
    hide Read, Print, Number, Decimal, Under, Texts;
    var table, d := [DistributionHeader()] + DistributionRows(ds), ds[i];
    DistributionsReadBack(ds);
    assert table[i + 1] == DistributionRow(d);
    forall k | 0 <= k < 4 ensures Under(Texts(table), i, table[0][k].text) == Some(DistributionRow(d)[k].text) {
      ColumnReadsBack(table, i, k);
    }
    assert table[0][0].text == "project" && table[0][1].text == "task_count";
    assert table[0][2].text == "total_points" && table[0][3].text == "done_count";
    DecimalReadsBack(d.taskCount);
    DecimalReadsBack(d.totalPoints);
    DecimalReadsBack(d.doneCount);
  }
}

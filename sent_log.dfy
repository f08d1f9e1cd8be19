/**
 * The summary report sender: each spreadsheet row becomes one Slack
 * message unless its key (`Video URL` + "_" + `Title`) is in the sent log
 * as loaded at the start of the run; every iterated key is then saved.
 */
module SentLog {
  import opened Base
  import opened Text
  import opened SetStore

  /** A spreadsheet cell as read by pandas: text, or NaN for an empty cell. */
  datatype Cell = Text(s: string) | NaN

  /** Python truthiness of a cell: NaN is a non-zero float, so it is true. */
  predicate Truthy(c: Cell) {
    c.NaN? || c.s != ""
  }

  /** A cell in an f-string. */
  function Render(c: Cell): string {
    if c.NaN? then "nan" else c.s
  }

  /**
   * The sheet: the set of column names and the rows, each a map from
   * column name to cell; a column missing from a row's map is NaN there.
   */
  datatype Sheet = Sheet(columns: set<string>, rows: seq<map<string, Cell>>)

  datatype ExcelFile = NoFile | Workbook(sheet: Sheet)

  /** `df.empty`: no rows or no columns. */
  predicate EmptySheet(sheet: Sheet) {
    |sheet.rows| == 0 || sheet.columns == {}
  }

  /** `row.get(column, default)`: the default only when the column does not exist. */
  function Get(columns: set<string>, row: map<string, Cell>, column: string, default: Cell): (c: Cell)
    ensures column !in columns ==> c == default
    ensures column in columns && column in row ==> c == row[column]
    ensures column in columns && column !in row ==> c == NaN
  {
    if column !in columns then default
    else if column in row then row[column]
    else NaN
  }

  const VIDEO_MARK: string := "\U{1F3A5} *<"
  const CHANNEL_MARK: string := "\U{1F4F0} Channel: `"
  const COMPANIES_MARK: string := "\U{1F3E2} Companies: "
  const ISIN_MARK: string := "\U{1F522} ISIN: `"
  const SECTOR_MARK: string := "\U{1F3ED} Sector: "
  const SUMMARY_MARK: string := "> "

  /** A line that is present only for a truthy cell. */
  function Optional(c: Cell, line: string): (lines: seq<string>)
    ensures lines == [] <==> !Truthy(c)
    ensures lines != [] ==> lines == [line]
  {
    if Truthy(c) then [line] else []
  }

  /** The title-link line: the URL and the title, defaulting to "Untitled Video". */
  function TitleLine(columns: set<string>, row: map<string, Cell>): string {
    VIDEO_MARK + (Render(Get(columns, row, "Video URL", Text(""))) + "|"
                  + Render(Get(columns, row, "Title", Text("Untitled Video"))) + ">*")
  }

  /** The channel line, defaulting to "Unknown Channel". */
  function ChannelLine(columns: set<string>, row: map<string, Cell>): string {
    CHANNEL_MARK + (Render(Get(columns, row, "Channel", Text("Unknown Channel"))) + "`")
  }

  function CompaniesLine(c: Cell): string { COMPANIES_MARK + Render(c) }
  function IsinLine(c: Cell): string { ISIN_MARK + (Render(c) + "`") }
  function SectorLine(c: Cell): string { SECTOR_MARK + Render(c) }
  function SummaryLine(c: Cell): string { SUMMARY_MARK + Render(c) }

  /** The message lines of a row, in the order `build_message` appends them. */
  function MessageLines(columns: set<string>, row: map<string, Cell>): (lines: seq<string>)
    ensures 2 <= |lines| <= 6
    ensures lines[0] == TitleLine(columns, row) && lines[1] == ChannelLine(columns, row)
  {
    var companies := Get(columns, row, "Companies", Text(""));
    var isin := Get(columns, row, "ISIN", Text(""));
    var sector := Get(columns, row, "Sector", Text(""));
    var summary := Get(columns, row, "Summary", Text(""));
    [TitleLine(columns, row), ChannelLine(columns, row)]
    + Optional(companies, CompaniesLine(companies))
    + Optional(isin, IsinLine(isin))
    + Optional(sector, SectorLine(sector))
    + Optional(summary, SummaryLine(summary))
  }

  /** The first character of a line, which says which field it shows. */
  function Mark(line: string): char {
    if line == [] then ' ' else line[0]
  }

  /** The marks of the lines, in order. */
  function Marks(lines: seq<string>): (marks: string)
    ensures |marks| == |lines|
  {
    if lines == [] then [] else Marks(lines[..|lines| - 1]) + [Mark(lines[|lines| - 1])]
  }

  lemma {:induction false} MarksAppend(a: seq<string>, b: seq<string>)
    ensures Marks(a + b) == Marks(a) + Marks(b)
    decreases |b|
  {
    if b != [] {
      var n := |b| - 1;
      assert (a + b)[..|a + b| - 1] == a + b[..n];
      MarksAppend(a, b[..n]);
    } else {
      assert a + b == a;
    }
  }

  lemma MarksOfOptional(c: Cell, prefix: string, rest: string)
    requires prefix != []
    ensures Marks(Optional(c, prefix + rest)) == if Truthy(c) then [prefix[0]] else []
  {
    if Truthy(c) {
      assert Marks([prefix + rest]) == Marks([]) + [Mark(prefix + rest)];
    }
  }

  /**
   * The first two lines are always there; the optional lines appear
   * exactly when their cells are truthy, in the order companies, ISIN,
   * sector, summary. Listing the first character of every line shows both.
   */
  lemma OptionalLinesInOrder(columns: set<string>, row: map<string, Cell>)
    ensures Marks(MessageLines(columns, row))
      == ['\U{1F3A5}', '\U{1F4F0}']
         + (if Truthy(Get(columns, row, "Companies", Text(""))) then ['\U{1F3E2}'] else [])
         + (if Truthy(Get(columns, row, "ISIN", Text(""))) then ['\U{1F522}'] else [])
         + (if Truthy(Get(columns, row, "Sector", Text(""))) then ['\U{1F3ED}'] else [])
         + (if Truthy(Get(columns, row, "Summary", Text(""))) then ['>'] else [])
  {
    var companies := Get(columns, row, "Companies", Text(""));
    var isin := Get(columns, row, "ISIN", Text(""));
    var sector := Get(columns, row, "Sector", Text(""));
    var summary := Get(columns, row, "Summary", Text(""));
    LayoutMarks(Render(Get(columns, row, "Video URL", Text(""))) + "|"
                  + Render(Get(columns, row, "Title", Text("Untitled Video"))) + ">*",
                Render(Get(columns, row, "Channel", Text("Unknown Channel"))) + "`",
                companies, isin, sector, summary,
                Render(companies), Render(isin) + "`", Render(sector), Render(summary));
  }

  /** The marks of the message layout, whatever follows each line's mark. */
  lemma LayoutMarks(title: string, channel: string, c1: Cell, c2: Cell, c3: Cell, c4: Cell,
                    s1: string, s2: string, s3: string, s4: string)
    ensures Marks([VIDEO_MARK + title, CHANNEL_MARK + channel]
                  + Optional(c1, COMPANIES_MARK + s1) + Optional(c2, ISIN_MARK + s2)
                  + Optional(c3, SECTOR_MARK + s3) + Optional(c4, SUMMARY_MARK + s4))
      == ['\U{1F3A5}', '\U{1F4F0}']
         + (if Truthy(c1) then ['\U{1F3E2}'] else [])
         + (if Truthy(c2) then ['\U{1F522}'] else [])
         + (if Truthy(c3) then ['\U{1F3ED}'] else [])
         + (if Truthy(c4) then ['>'] else [])
  {
    var l0 := VIDEO_MARK + title;
    var l1 := CHANNEL_MARK + channel;
    var o1 := Optional(c1, COMPANIES_MARK + s1);
    var o2 := Optional(c2, ISIN_MARK + s2);
    var o3 := Optional(c3, SECTOR_MARK + s3);
    var o4 := Optional(c4, SUMMARY_MARK + s4);
    var p1 := [l0, l1];
    assert p1[..1] == [l0] && [l0][..0] == [];
    assert Marks(p1) == [VIDEO_MARK[0], CHANNEL_MARK[0]];
    MarksOfOptional(c1, COMPANIES_MARK, s1);
    MarksOfOptional(c2, ISIN_MARK, s2);
    MarksOfOptional(c3, SECTOR_MARK, s3);
    MarksOfOptional(c4, SUMMARY_MARK, s4);
    var p2 := p1 + o1;
    var p3 := p2 + o2;
    var p4 := p3 + o3;
    MarksAppend(p1, o1);
    MarksAppend(p2, o2);
    MarksAppend(p3, o3);
    MarksAppend(p4, o4);
  }

  /** `build_message`: appends the lines one by one and joins them. */
  method BuildMessage(columns: set<string>, row: map<string, Cell>) returns (msg: string)
    ensures msg == Message(columns, row)
  {
    var lines := AppendMessageLines(columns, row);
    msg := Join("\n", lines);
  }

  /** The appends of `build_message`, before the join. */
  method AppendMessageLines(columns: set<string>, row: map<string, Cell>) returns (lines: seq<string>)
    ensures lines == MessageLines(columns, row)
  {
    var companies := Get(columns, row, "Companies", Text(""));
    var summary := Get(columns, row, "Summary", Text(""));
    var isin := Get(columns, row, "ISIN", Text(""));
    var sector := Get(columns, row, "Sector", Text(""));

    lines := [TitleLine(columns, row)];
    lines := lines + [ChannelLine(columns, row)];
    assert lines == [TitleLine(columns, row), ChannelLine(columns, row)];
    lines := AppendIf(lines, companies, CompaniesLine(companies));
    lines := AppendIf(lines, isin, IsinLine(isin));
    lines := AppendIf(lines, sector, SectorLine(sector));
    lines := AppendIf(lines, summary, SummaryLine(summary));
  }

  /** `if cell: lines.append(line)` */
  method AppendIf(lines: seq<string>, c: Cell, line: string) returns (out: seq<string>)
    ensures out == lines + Optional(c, line)
  {
    out := lines;
    if Truthy(c) {
      out := out + [line];
    }
  }

  /** The message `build_message` returns for a row: its lines joined with newlines. */
  function Message(columns: set<string>, row: map<string, Cell>): string {
    Join("\n", MessageLines(columns, row))
  }

  /** A row's dedup key: its video URL and title, each defaulting to "". */
  function RowKey(columns: set<string>, row: map<string, Cell>): string {
    Render(Get(columns, row, "Video URL", Text(""))) + "_" + Render(Get(columns, row, "Title", Text("")))
  }

  /** The keys of all rows. */
  function AllKeys(columns: set<string>, rows: seq<map<string, Cell>>): set<string> {
    set i | 0 <= i < |rows| :: RowKey(columns, rows[i])
  }

  /** `send_to_slack`: posts the text when a webhook is configured; a failed post is swallowed. */
  function Posted(webhook: Option<string>, text: string): (posts: seq<string>)
    ensures posts != [] <==> webhook.Some? && webhook.value != ""
    ensures posts != [] ==> posts == [text]
  {
    if webhook.Some? && webhook.value != "" then [text] else []
  }

  /** The messages of the rows whose key is not in `log`, in row order. */
  function Unsent(columns: set<string>, rows: seq<map<string, Cell>>, log: set<string>): seq<string> {
    if rows == [] then []
    else
      var n := |rows| - 1;
      Unsent(columns, rows[..n], log)
      + (if RowKey(columns, rows[n]) in log then [] else [Message(columns, rows[n])])
  }

  /** Every row whose key is not logged has its message sent. */
  lemma {:induction false} UnloggedRowIsSent(columns: set<string>, rows: seq<map<string, Cell>>, log: set<string>, i: nat)
    requires i < |rows| && RowKey(columns, rows[i]) !in log
    ensures Message(columns, rows[i]) in Unsent(columns, rows, log)
  {
    var n := |rows| - 1;
    if i < n {
      assert rows[..n][i] == rows[i];
      UnloggedRowIsSent(columns, rows[..n], log, i);
    }
  }

  /** Every message sent comes from a row whose key is not logged. */
  lemma {:induction false} SentComesFromUnloggedRow(columns: set<string>, rows: seq<map<string, Cell>>, log: set<string>, m: string)
    returns (i: nat)
    requires m in Unsent(columns, rows, log)
    ensures i < |rows| && RowKey(columns, rows[i]) !in log
    ensures m == Message(columns, rows[i])
  {
    var n := |rows| - 1;
    if m in Unsent(columns, rows[..n], log) {
      i := SentComesFromUnloggedRow(columns, rows[..n], log, m);
      assert rows[..n][i] == rows[i];
    } else {
      i := n;
    }
  }

  /**
   * Membership is checked against the log as loaded: two rows with the
   * same unlogged key are both sent in the same run.
   */
  lemma {:induction false} RepeatedKeySentEachTime(columns: set<string>, row: map<string, Cell>, log: set<string>)
    requires RowKey(columns, row) !in log
    ensures Unsent(columns, [row, row], log)
            == [Message(columns, row), Message(columns, row)]
  {
    var m := Message(columns, row);
    assert [row, row][..1] == [row];
    assert [row][..0] == [];
    assert Unsent(columns, [row], log) == [m];
  }

  /** A second run over the same sheet, with the log the first run saved, sends nothing. */
  lemma {:induction false} RerunSendsNothing(columns: set<string>, rows: seq<map<string, Cell>>, log: set<string>)
    ensures Unsent(columns, rows, log + AllKeys(columns, rows)) == []
  {
    if rows != [] {
      var n := |rows| - 1;
      var keys := AllKeys(columns, rows);
      forall i | 0 <= i < n ensures RowKey(columns, rows[..n][i]) in keys {
        assert rows[..n][i] == rows[i];
      }
      RerunSendsNothing(columns, rows[..n], log);
      SubsetLogSendsNothing(columns, rows[..n], log + AllKeys(columns, rows[..n]), log + keys);
    }
  }

  /** Growing the log can only silence rows. */
  lemma {:induction false} SubsetLogSendsNothing(columns: set<string>, rows: seq<map<string, Cell>>, small: set<string>, big: set<string>)
    requires small <= big
    requires Unsent(columns, rows, small) == []
    ensures Unsent(columns, rows, big) == []
  {
    if rows != [] {
      var n := |rows| - 1;
      SubsetLogSendsNothing(columns, rows[..n], small, big);
    }
  }

  /**
   * `send_summary_report`: a missing or empty sheet returns before the log
   * is read or written; otherwise every row whose key is not in the loaded
   * log is posted (when a webhook is set), and the saved log is the loaded
   * log plus the keys of all rows, delivered or not.
   */
  method SendSummaryReport(excel: ExcelFile, store: JsonSetFile, webhook: Option<string>)
    returns (posts: seq<string>)
    modifies store
    ensures excel.NoFile? || EmptySheet(excel.sheet) ==>
              posts == [] && store.state == old(store.state) && store.writes == old(store.writes)
    ensures excel.Workbook? && !EmptySheet(excel.sheet) ==>
              && posts == (if webhook.Some? && webhook.value != ""
                           then Unsent(excel.sheet.columns, excel.sheet.rows, old(store.LoadSentLog()))
                           else [])
              && store.LoadSentLog() == old(store.LoadSentLog()) + AllKeys(excel.sheet.columns, excel.sheet.rows)
              && store.writes == old(store.writes) + 1
  {
    posts := [];
    if excel.NoFile? {
      return;
    }
    var sheet := excel.sheet;
    if EmptySheet(sheet) {
      return;
    }
    var sentLog := store.LoadSentLog();
    var newSentLog;
    posts, newSentLog := SendRows(sheet.columns, sheet.rows, sentLog, webhook);
    store.Save(newSentLog);
  }

  /**
   * The loop over the rows: a row whose key is in the loaded log is
   * skipped; every other row is posted and its key added to the new log.
   */
  method SendRows(columns: set<string>, rows: seq<map<string, Cell>>, sentLog: set<string>, webhook: Option<string>)
    returns (posts: seq<string>, newSentLog: set<string>)
    ensures posts == if webhook.Some? && webhook.value != "" then Unsent(columns, rows, sentLog) else []
    ensures newSentLog == sentLog + AllKeys(columns, rows)
  {
    posts := [];
    newSentLog := sentLog;
    for idx := 0 to |rows|
      invariant newSentLog == sentLog + AllKeys(columns, rows[..idx])
      invariant posts == if webhook.Some? && webhook.value != "" then Unsent(columns, rows[..idx], sentLog) else []
    {
      posts, newSentLog := SendRow(columns, rows[idx], sentLog, webhook, posts, newSentLog);
      AllKeysStep(columns, rows, idx);
      UnsentStep(columns, rows, sentLog, idx);
    }
    assert rows[..|rows|] == rows;
  }

  /** One iteration: skip a logged row, otherwise post its message and log its key. */
  method SendRow(columns: set<string>, row: map<string, Cell>, sentLog: set<string>, webhook: Option<string>,
                 posts: seq<string>, newSentLog: set<string>)
    returns (posts': seq<string>, newSentLog': set<string>)
    requires sentLog <= newSentLog
    ensures newSentLog' == newSentLog + {RowKey(columns, row)}
    ensures posts' == posts + (if RowKey(columns, row) in sentLog then []
                               else Posted(webhook, Message(columns, row)))
  {
    var uniqueId := RowKey(columns, row);
    if uniqueId in sentLog {
      return posts, newSentLog;
    }
    var msg := BuildMessage(columns, row);
    posts' := posts + Posted(webhook, msg);
    newSentLog' := newSentLog + {uniqueId};
  }

  lemma UnsentStep(columns: set<string>, rows: seq<map<string, Cell>>, log: set<string>, idx: nat)
    requires idx < |rows|
    ensures Unsent(columns, rows[..idx + 1], log)
            == Unsent(columns, rows[..idx], log)
               + (if RowKey(columns, rows[idx]) in log then [] else [Message(columns, rows[idx])])
  {
    assert rows[..idx + 1][..idx] == rows[..idx];
  }

  lemma AllKeysStep(columns: set<string>, rows: seq<map<string, Cell>>, idx: nat)
    requires idx < |rows|
    ensures AllKeys(columns, rows[..idx + 1]) == AllKeys(columns, rows[..idx]) + {RowKey(columns, rows[idx])}
  {
    var prefix := rows[..idx + 1];
    assert prefix[idx] == rows[idx];
    forall i | 0 <= i < idx ensures prefix[i] == rows[..idx][i] {
    }
  }
}

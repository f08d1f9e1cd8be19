/**
 * The plain-text report: a summary dictionary rendered as a fixed sequence
 * of sections, one line per list entry.
 */
module TextReport {
  import opened Base
  import opened Json
  import Text

  function Repeat(c: char, n: nat): (s: string)
    ensures |s| == n && forall i :: 0 <= i < n ==> s[i] == c
  {
    if n == 0 then "" else Repeat(c, n - 1) + [c]
  }

  const TITLE_LINE: string := "AI-Generated Financial Summary\n"
  /** Thirty `=` and a newline. */
  const TITLE_RULE: string := "==============================\n"
  /** Twenty `-`, the rule under every heading. */
  const SECTION_RULE: string := "--------------------"
  /** The rules are the repeated characters `"=" * 30` and `"-" * 20`. */
  lemma RulesAreRepeats()
    ensures TITLE_RULE == Repeat('=', 30) + "\n"
    ensures SECTION_RULE == Repeat('-', 20)
  {
  }

  const NO_FINANCIALS: string := "No key financials available."

  /** The five section headings, in the order the report shows them. */
  const HEADINGS: seq<string> := [
    "Executive Summary\n", "Key Financials\n", "Strategic Initiatives\n",
    "Outlook and Guidance\n", "Key Risks Mentioned\n"
  ]

  /**
   * `summary_data.get(key, "N/A") + "\n"`: a missing key reads as "N/A"; a
   * value that is not a string raises TypeError.
   */
  function TextLine(fields: seq<(string, Json)>, key: string): (r: Result<string>)
    ensures Lookup(fields, key).None? ==> r == Ok("N/A\n")
    ensures r.Ok? <==> Lookup(fields, key).None? || Lookup(fields, key).value.JStr?
    ensures r.Err? ==> r.error == TypeError
    ensures Lookup(fields, key).Some? && Lookup(fields, key).value.JStr? ==> r == Ok(Lookup(fields, key).value.s + "\n")
  {
    match GetOr(fields, key, JStr("N/A"))
    case JStr(s) =>
      assert "N/A" + "\n" == "N/A\n";
      Ok(s + "\n")
    case _ => Err(TypeError)
  }

  /** One `- item` line per item, in order. */
  function ItemLines(items: seq<Json>, show: Json -> string): (lines: seq<string>)
    ensures |lines| == |items|
    ensures forall i :: 0 <= i < |items| ==> lines[i] == "- " + Str(items[i], show)
  {
    if items == [] then []
    else ItemLines(items[..|items| - 1], show) + ["- " + Str(items[|items| - 1], show)]
  }

  /** A dict of financials: one `- metric: value` line per entry, in order. */
  function DictLines(fields: seq<(string, Json)>, show: Json -> string): (lines: seq<string>)
    ensures |lines| == |fields|
    ensures forall i :: 0 <= i < |fields| ==> lines[i] == "- " + fields[i].0 + ": " + Str(fields[i].1, show)
  {
    if fields == [] then []
    else
      var n := |fields| - 1;
      DictLines(fields[..n], show) + ["- " + fields[n].0 + ": " + Str(fields[n].1, show)]
  }

  /**
   * One entry of a list of financials: a dict gives a metric/value line and
   * a commentary line, each field defaulting to "N/A"; anything else gives
   * a single `- item` line.
   */
  function EntryLines(item: Json, show: Json -> string): (lines: seq<string>)
    ensures item.JObj? ==> lines == [
              "- " + Str(GetOr(item.fields, "metric", JStr("N/A")), show) + ": "
                   + Str(GetOr(item.fields, "value", JStr("N/A")), show),
              "  Commentary: " + Str(GetOr(item.fields, "commentary", JStr("N/A")), show)]
    ensures !item.JObj? ==> lines == ["- " + Str(item, show)]
  {
    match item
    case JObj(fs) =>
      ["- " + Str(GetOr(fs, "metric", JStr("N/A")), show) + ": " + Str(GetOr(fs, "value", JStr("N/A")), show),
       "  Commentary: " + Str(GetOr(fs, "commentary", JStr("N/A")), show)]
    case _ => ["- " + Str(item, show)]
  }

  /** How many entries of a list are dicts. */
  function DictCount(items: seq<Json>): nat {
    if items == [] then 0
    else DictCount(items[..|items| - 1]) + (if items[|items| - 1].JObj? then 1 else 0)
  }

  /** A list of financials: the entries' lines, one block after another. */
  function ListLines(items: seq<Json>, show: Json -> string): (lines: seq<string>)
    ensures |lines| == |items| + DictCount(items)
    ensures DictCount(items) == 0 ==> lines == ItemLines(items, show)
  {
    if items == [] then []
    else
      var n := |items| - 1;
      ListLines(items[..n], show) + EntryLines(items[n], show)
  }

  /** The lines of two lists of financials are the lines of each, in order. */
  lemma {:induction false} ListLinesAppend(xs: seq<Json>, ys: seq<Json>, show: Json -> string)
    ensures ListLines(xs + ys, show) == ListLines(xs, show) + ListLines(ys, show)
    decreases |ys|
  {
    if ys == [] {
      assert xs + ys == xs;
    } else {
      var n := |ys| - 1;
      assert (xs + ys)[..|xs + ys| - 1] == xs + ys[..n];
      assert (xs + ys)[|xs + ys| - 1] == ys[n];
      ListLinesAppend(xs, ys[..n], show);
    }
  }

  /**
   * Each entry of a list of financials has its block in the rendered
   * lines: the metric/value and commentary lines for a dict, one `- item`
   * line otherwise, starting after one line per earlier entry and one more
   * per earlier dict.
   */
  lemma ListLinesEntry(items: seq<Json>, i: nat, show: Json -> string) returns (k: nat)
    requires i < |items|
    ensures k == i + DictCount(items[..i])
    ensures k + |EntryLines(items[i], show)| <= |ListLines(items, show)|
    ensures ListLines(items, show)[k..k + |EntryLines(items[i], show)|] == EntryLines(items[i], show)
  {
    var pre := items[..i];
    var rest := items[i + 1..];
    assert items == pre + [items[i]] + rest;
    ListLinesAppend(pre + [items[i]], rest, show);
    ListLinesAppend(pre, [items[i]], show);
    assert [items[i]][..0] == [];
    assert ListLines([items[i]], show) == EntryLines(items[i], show);
    k := |ListLines(pre, show)|;
    var e := EntryLines(items[i], show);
    var all := ListLines(pre, show) + e + ListLines(rest, show);
    assert all[k..k + |e|] == e;
  }

  /**
   * The Key Financials body: a dict gives one line per entry, a list one
   * block per entry, and any other value the single line NO_FINANCIALS.
   */
  function FinancialLines(kf: Json, show: Json -> string): (lines: seq<string>)
    ensures kf.JObj? ==> lines == DictLines(kf.fields, show) && |lines| == |kf.fields|
    ensures kf.JArr? ==> lines == ListLines(kf.items, show) && |lines| == |kf.items| + DictCount(kf.items)
    ensures !kf.JObj? && !kf.JArr? ==> lines == [NO_FINANCIALS]
  {
    match kf
    case JObj(fs) => DictLines(fs, show)
    case JArr(xs) => ListLines(xs, show)
    case _ => [NO_FINANCIALS]
  }

  /** The report's lines around the rendered parts, in the source's order. */
  function Assemble(exec: string, fin: seq<string>, initiatives: seq<string>, outlook: string, risks: seq<string>)
    : seq<string>
  {
    [TITLE_LINE, TITLE_RULE, HEADINGS[0], SECTION_RULE, exec, HEADINGS[1], SECTION_RULE]
    + fin
    + ["\n", HEADINGS[2], SECTION_RULE]
    + initiatives
    + ["\n", HEADINGS[3], SECTION_RULE, outlook, HEADINGS[4], SECTION_RULE]
    + risks
  }

  /**
   * The report's lines. A summary that is not a dict raises AttributeError;
   * a non-string executive summary or outlook, or a non-iterable list of
   * initiatives or risks, raises TypeError.
   */
  function ReportLines(summary: Json, show: Json -> string): (r: Result<seq<string>>)
    ensures !summary.JObj? ==> r == Err(AttributeError)
    ensures r.Err? ==> r.error == AttributeError || r.error == TypeError
    ensures summary.JObj? && r.Err? ==> r.error == TypeError
    ensures summary.JObj? ==>
              (r.Ok? <==> TextLine(summary.fields, "executive_summary").Ok?
                          && TextLine(summary.fields, "outlook_and_guidance").Ok?
                          && Elements(GetOr(summary.fields, "strategic_initiatives", JArr([]))).Ok?
                          && Elements(GetOr(summary.fields, "key_risks_mentioned", JArr([]))).Ok?)
    ensures r.Ok? ==> summary.JObj? && r.value == Assemble(
              TextLine(summary.fields, "executive_summary").value,
              FinancialLines(GetOr(summary.fields, "key_financials", JObj([])), show),
              ItemLines(Elements(GetOr(summary.fields, "strategic_initiatives", JArr([]))).value, show),
              TextLine(summary.fields, "outlook_and_guidance").value,
              ItemLines(Elements(GetOr(summary.fields, "key_risks_mentioned", JArr([]))).value, show))
  {
    if !summary.JObj? then Err(AttributeError)
    else
      var fs := summary.fields;
      var exec := TextLine(fs, "executive_summary");
      var initiatives := Elements(GetOr(fs, "strategic_initiatives", JArr([])));
      var outlook := TextLine(fs, "outlook_and_guidance");
      var risks := Elements(GetOr(fs, "key_risks_mentioned", JArr([])));
      if exec.Err? || initiatives.Err? || outlook.Err? || risks.Err? then Err(TypeError)
      else
        Ok(Assemble(exec.value, FinancialLines(GetOr(fs, "key_financials", JObj([])), show),
                    ItemLines(initiatives.value, show), outlook.value, ItemLines(risks.value, show)))
  }

  /** `create_text_report`: the lines joined with newlines. */
  function Report(summary: Json, show: Json -> string): Result<string> {
    match ReportLines(summary, show)
    case Ok(lines) => Ok(Text.Join("\n", lines))
    case Err(e) => Err(e)
  }

  /**
   * A rendered report opens with the title line and the thirty-`=` rule,
   * each followed by the newline of the join, and the rest is the
   * remaining lines joined with newlines.
   */
  lemma ReportBeginsWithTitle(summary: Json, show: Json -> string)
    requires Report(summary, show).Ok?
    ensures ReportLines(summary, show).Ok? && |ReportLines(summary, show).value| > 2
    ensures Report(summary, show).value
            == TITLE_LINE + "\n" + TITLE_RULE + "\n" + Text.Join("\n", ReportLines(summary, show).value[2..])
  {
    var lines := ReportLines(summary, show).value;
    var fs := summary.fields;
    var exec := TextLine(fs, "executive_summary");
    var initiatives := Elements(GetOr(fs, "strategic_initiatives", JArr([])));
    var outlook := TextLine(fs, "outlook_and_guidance");
    var risks := Elements(GetOr(fs, "key_risks_mentioned", JArr([])));
    assert lines == Assemble(exec.value, FinancialLines(GetOr(fs, "key_financials", JObj([])), show),
                             ItemLines(initiatives.value, show), outlook.value, ItemLines(risks.value, show));
    JoinFront("\n", lines);
  }

  /** A join of three or more parts spelled out for its first two. */
  lemma JoinFront(sep: string, parts: seq<string>)
    requires |parts| > 2
    ensures Text.Join(sep, parts) == parts[0] + sep + parts[1] + sep + Text.Join(sep, parts[2..])
  {
    assert parts[1..][1..] == parts[2..];
  }

  /**
   * The five headings appear in the fixed order, each directly followed by
   * the twenty-dash rule; the executive summary line follows the first rule
   * and the outlook line the fourth, each "N/A" when its key is missing.
   */
  lemma {:induction false} HeadingsInOrder(summary: Json, show: Json -> string) returns (pos: seq<nat>)
    requires ReportLines(summary, show).Ok?
    ensures |pos| == 5 && pos[0] == 2
    ensures forall i :: 0 <= i < 4 ==> pos[i] < pos[i + 1]
    ensures forall i :: 0 <= i < 5 ==> pos[i] + 1 < |ReportLines(summary, show).value|
    ensures forall i :: 0 <= i < 5 ==>
              ReportLines(summary, show).value[pos[i]] == HEADINGS[i]
              && ReportLines(summary, show).value[pos[i] + 1] == SECTION_RULE
    ensures ReportLines(summary, show).value[pos[0] + 2] == TextLine(summary.fields, "executive_summary").value
    ensures ReportLines(summary, show).value[pos[3] + 2] == TextLine(summary.fields, "outlook_and_guidance").value
    ensures Lookup(summary.fields, "executive_summary").None? ==> ReportLines(summary, show).value[pos[0] + 2] == "N/A\n"
    ensures Lookup(summary.fields, "outlook_and_guidance").None? ==> ReportLines(summary, show).value[pos[3] + 2] == "N/A\n"
  {
    var fs := summary.fields;
    var exec := TextLine(fs, "executive_summary").value;
    var fin := FinancialLines(GetOr(fs, "key_financials", JObj([])), show);
    var init := ItemLines(Elements(GetOr(fs, "strategic_initiatives", JArr([]))).value, show);
    var outlook := TextLine(fs, "outlook_and_guidance").value;
    var risks := ItemLines(Elements(GetOr(fs, "key_risks_mentioned", JArr([]))).value, show);
    pos := AssembledHeadings(exec, fin, init, outlook, risks);
  }

  lemma AssembledHeadings(exec: string, fin: seq<string>, init: seq<string>, outlook: string, risks: seq<string>)
    returns (pos: seq<nat>)
    ensures |pos| == 5 && pos[0] == 2
    ensures forall i :: 0 <= i < 4 ==> pos[i] < pos[i + 1]
    ensures forall i :: 0 <= i < 5 ==> pos[i] + 1 < |Assemble(exec, fin, init, outlook, risks)|
    ensures forall i :: 0 <= i < 5 ==>
              Assemble(exec, fin, init, outlook, risks)[pos[i]] == HEADINGS[i]
              && Assemble(exec, fin, init, outlook, risks)[pos[i] + 1] == SECTION_RULE
    ensures Assemble(exec, fin, init, outlook, risks)[pos[0] + 2] == exec
    ensures Assemble(exec, fin, init, outlook, risks)[pos[3] + 2] == outlook
  {
    var lines := Assemble(exec, fin, init, outlook, risks);
    var head := [TITLE_LINE, TITLE_RULE, HEADINGS[0], SECTION_RULE, exec, HEADINGS[1], SECTION_RULE];
    var mid := ["\n", HEADINGS[2], SECTION_RULE];
    var tail := ["\n", HEADINGS[3], SECTION_RULE, outlook, HEADINGS[4], SECTION_RULE];
    var p1 := head + fin;
    var p2 := p1 + mid;
    var p3 := p2 + init;
    var p4 := p3 + tail;
    assert lines == p4 + risks;
    var a := |p1|;
    var b := |p3|;
    pos := [2, 5, a + 1, b + 1, b + 4];
    assert lines[2] == p4[2] == p3[2] == p2[2] == p1[2] == HEADINGS[0];
    assert lines[3] == p4[3] == p3[3] == p2[3] == p1[3] == SECTION_RULE;
    assert lines[4] == p4[4] == p3[4] == p2[4] == p1[4] == exec;
    assert lines[5] == p4[5] == p3[5] == p2[5] == p1[5] == HEADINGS[1];
    assert lines[6] == p4[6] == p3[6] == p2[6] == p1[6] == SECTION_RULE;
    assert lines[a + 1] == p4[a + 1] == p3[a + 1] == p2[a + 1] == mid[1];
    assert lines[a + 2] == p4[a + 2] == p3[a + 2] == p2[a + 2] == mid[2];
    assert lines[b + 1] == p4[b + 1] == tail[1];
    assert lines[b + 2] == p4[b + 2] == tail[2];
    assert lines[b + 3] == p4[b + 3] == tail[3];
    assert lines[b + 4] == p4[b + 4] == tail[4];
    assert lines[b + 5] == p4[b + 5] == tail[5];
  }

  /**
   * `create_text_report`, built line by line as the source appends them,
   * then joined with newlines.
   */
  method CreateTextReport(summary: Json, show: Json -> string) returns (r: Result<string>)
    ensures r == Report(summary, show)
  {
    if !summary.JObj? {
      return Err(AttributeError);
    }
    var lines := AppendReport(summary.fields, show);
    if lines.Err? {
      return Err(lines.error);
    }
    r := Ok(Text.Join("\n", lines.value));
  }

  /** The appends of `create_text_report` on a dict, before the join. */
  method AppendReport(fs: seq<(string, Json)>, show: Json -> string) returns (r: Result<seq<string>>)
    ensures r == ReportLines(JObj(fs), show)
  {
    var opening := AppendOpening(fs, show);
    if opening.Err? {
      assert ReportLines(JObj(fs), show) == Err(TypeError);
      return Err(TypeError);
    }
    var report := opening.value;
    var initiatives := Elements(GetOr(fs, "strategic_initiatives", JArr([])));
    if initiatives.Err? {
      assert ReportLines(JObj(fs), show) == Err(TypeError);
      return Err(TypeError);
    }
    report := AppendItems(report, initiatives.value, show);
    report := report + ["\n"];

    report := report + [HEADINGS[3], SECTION_RULE];
    var outlook := TextLine(fs, "outlook_and_guidance");
    if outlook.Err? {
      assert ReportLines(JObj(fs), show) == Err(TypeError);
      return Err(TypeError);
    }
    report := report + [outlook.value];

    report := report + [HEADINGS[4], SECTION_RULE];
    var risks := Elements(GetOr(fs, "key_risks_mentioned", JArr([])));
    if risks.Err? {
      assert ReportLines(JObj(fs), show) == Err(TypeError);
      return Err(TypeError);
    }
    ghost var tail := ["\n", HEADINGS[3], SECTION_RULE, outlook.value, HEADINGS[4], SECTION_RULE];
    assert report == opening.value + ItemLines(initiatives.value, show) + tail;
    report := AppendItems(report, risks.value, show);
    assert ReportLines(JObj(fs), show) == Ok(report);
    r := Ok(report);
  }

  /** The appends up to the Strategic Initiatives rule: title, executive summary, financials. */
  method AppendOpening(fs: seq<(string, Json)>, show: Json -> string) returns (r: Result<seq<string>>)
    ensures TextLine(fs, "executive_summary").Err? ==> r == Err(TypeError)
    ensures TextLine(fs, "executive_summary").Ok? ==>
              r == Ok([TITLE_LINE, TITLE_RULE, HEADINGS[0], SECTION_RULE, TextLine(fs, "executive_summary").value,
                       HEADINGS[1], SECTION_RULE]
                      + FinancialLines(GetOr(fs, "key_financials", JObj([])), show)
                      + ["\n", HEADINGS[2], SECTION_RULE])
  {
    var report: seq<string> := [TITLE_LINE, TITLE_RULE];

    report := report + [HEADINGS[0], SECTION_RULE];
    var exec := TextLine(fs, "executive_summary");
    if exec.Err? {
      return Err(TypeError);
    }
    report := report + [exec.value];

    report := report + [HEADINGS[1], SECTION_RULE];
    ghost var head := report;
    assert head == [TITLE_LINE, TITLE_RULE, HEADINGS[0], SECTION_RULE, exec.value, HEADINGS[1], SECTION_RULE];
    var kf := GetOr(fs, "key_financials", JObj([]));
    report := AppendFinancials(report, kf, show);
    report := report + ["\n"];

    report := report + [HEADINGS[2], SECTION_RULE];
    assert report == head + FinancialLines(kf, show) + ["\n", HEADINGS[2], SECTION_RULE];
    r := Ok(report);
  }

  /** The Key Financials body appended line by line, as the source's loops do. */
  method AppendFinancials(report: seq<string>, kf: Json, show: Json -> string) returns (out: seq<string>)
    ensures out == report + FinancialLines(kf, show)
  {
    match kf
    case JObj(fs) => out := AppendDict(report, fs, show);
    case JArr(xs) => out := AppendList(report, xs, show);
    case _ => out := report + [NO_FINANCIALS];
  }

  /** The loop over a dict of financials. */
  method AppendDict(report: seq<string>, fields: seq<(string, Json)>, show: Json -> string) returns (out: seq<string>)
    ensures out == report + DictLines(fields, show)
  {
    out := report;
    for i := 0 to |fields|
      invariant out == report + DictLines(fields[..i], show)
    {
      assert fields[..i + 1][..i] == fields[..i];
      out := out + ["- " + fields[i].0 + ": " + Str(fields[i].1, show)];
    }
    assert fields[..|fields|] == fields;
  }

  /** The loop over a list of financials. */
  method AppendList(report: seq<string>, items: seq<Json>, show: Json -> string) returns (out: seq<string>)
    ensures out == report + ListLines(items, show)
  {
    out := report;
    for i := 0 to |items|
      invariant out == report + ListLines(items[..i], show)
    {
      assert items[..i + 1][..i] == items[..i];
      var entry := AppendEntry(items[i], show);
      assert ListLines(items[..i + 1], show) == ListLines(items[..i], show) + EntryLines(items[i], show);
      out := out + entry;
    }
    assert items[..|items|] == items;
  }

  /** The lines one entry of a list of financials appends. */
  method AppendEntry(item: Json, show: Json -> string) returns (entry: seq<string>)
    ensures entry == EntryLines(item, show)
  {
    if item.JObj? {
      entry := ["- " + Str(GetOr(item.fields, "metric", JStr("N/A")), show) + ": "
                     + Str(GetOr(item.fields, "value", JStr("N/A")), show)];
      entry := entry + ["  Commentary: " + Str(GetOr(item.fields, "commentary", JStr("N/A")), show)];
    } else {
      entry := ["- " + Str(item, show)];
    }
  }

  /** The loop `for item in items: report.append(f"- {str(item)}")`. */
  method AppendItems(report: seq<string>, items: seq<Json>, show: Json -> string) returns (out: seq<string>)
    ensures out == report + ItemLines(items, show)
  {
    out := report;
    for i := 0 to |items|
      invariant out == report + ItemLines(items[..i], show)
    {
      assert items[..i + 1][..i] == items[..i];
      out := out + ["- " + Str(items[i], show)];
    }
    assert items[..|items|] == items;
  }
}

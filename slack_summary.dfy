/**
 * The Slack message for a processed video: header lines, the detected
 * companies, and the summary's sections, each left out when it has nothing
 * to show.
 */
module SlackSummary {
  import opened Base
  import opened Text
  import opened Json

  const EXEC_HEADING: string := "*Executive Summary:*"
  const FINANCIALS_HEADING: string := "*Key Financials:*"
  const INITIATIVES_HEADING: string := "*Strategic Initiatives:*"
  const OUTLOOK_HEADING: string := "*Outlook and Guidance:*"
  const RISKS_HEADING: string := "*Key Risks Mentioned:*"
  const BULLET: string := "• "

  /** The channel/URL line and the title line every message starts with. */
  function HeaderLines(url: string, channelId: string, title: string): seq<string> {
    ["*Summary for channel:* `" + channelId + "`\n<" + url + ">", "*Video Title:* " + title]
  }

  /** The companies line, present only when some company was detected. */
  function CompaniesLines(companies: seq<string>): (lines: seq<string>)
    ensures lines != [] <==> companies != []
    ensures |lines| <= 1
  {
    if companies == [] then [] else ["*Detected Companies:* " + Join(", ", companies) + "\n"]
  }

  /** A text worth showing: not blank and not "n/a" in any letter case. */
  predicate Showable(s: string) {
    !Blank(s) && Lower(s) != "n/a"
  }

  /**
   * `v and v.strip() and v.lower() != 'n/a'`: false for a falsy value,
   * AttributeError for a truthy value that is not a string.
   */
  function Shown(v: Json): (r: Result<bool>)
    ensures r.Err? <==> Truthy(v) && !v.JStr?
    ensures r == Ok(true) <==> v.JStr? && Showable(v.s)
    ensures r.Err? ==> r.error == AttributeError
  {
    if !Truthy(v) then Ok(false)
    else if !v.JStr? then Err(AttributeError)
    else Ok(Showable(v.s))
  }

  /**
   * A one-line section (executive summary, outlook): the heading, the text
   * and a blank line, present exactly when the text is showable.
   */
  function BlockSection(v: Json, heading: string): (r: Result<seq<string>>)
    ensures r.Ok? && r.value != [] <==> v.JStr? && Showable(v.s)
    ensures r.Ok? && r.value != [] ==> r.value == [heading + "\n" + v.s + "\n"]
    ensures r.Err? <==> Truthy(v) && !v.JStr?
    ensures r.Err? ==> r.error == AttributeError
  {
    match Shown(v)
    case Err(e) => Err(e)
    case Ok(show) => if show then Ok([heading + "\n" + v.s + "\n"]) else Ok([])
  }

  /** A key as a heading: underscores to spaces, then title case. */
  function KeyTitle(key: string): string {
    Title(ReplaceChar(key, '_', ' '))
  }

  /** A value worth listing: truthy and not the string "N/A". */
  predicate Listed(v: Json) {
    Truthy(v) && v != JStr("N/A")
  }

  /** The line of one detail: its key as a title and its value. */
  function DetailLine(key: string, v: Json, show: Json -> string): string {
    "    - " + KeyTitle(key) + ": " + Str(v, show)
  }

  /** How many fields hold a listed value. */
  function ListedCount(fields: seq<(string, Json)>): (c: nat)
    ensures c <= |fields|
  {
    if fields == [] then 0
    else ListedCount(fields[..|fields| - 1]) + (if Listed(fields[|fields| - 1].1) then 1 else 0)
  }

  /** The lines of a detail dict: one per listed value, in order. */
  function DetailLines(fields: seq<(string, Json)>, show: Json -> string): (lines: seq<string>)
    ensures |lines| == ListedCount(fields)
  {
    if fields == [] then []
    else
      var n := |fields| - 1;
      DetailLines(fields[..n], show)
      + (if Listed(fields[n].1) then [DetailLine(fields[n].0, fields[n].1, show)] else [])
  }

  /** The detail lines of two runs of fields are those of each run, in order. */
  lemma {:induction false} DetailLinesAppend(xs: seq<(string, Json)>, ys: seq<(string, Json)>, show: Json -> string)
    ensures DetailLines(xs + ys, show) == DetailLines(xs, show) + DetailLines(ys, show)
    decreases |ys|
  {
    if ys == [] {
      assert xs + ys == xs;
    } else {
      var n := |ys| - 1;
      assert (xs + ys)[..|xs + ys| - 1] == xs + ys[..n];
      assert (xs + ys)[|xs + ys| - 1] == ys[n];
      DetailLinesAppend(xs, ys[..n], show);
    }
  }

  /**
   * Every field with a listed value has its line, placed after one line
   * per earlier listed field.
   */
  lemma DetailLinesEntry(fields: seq<(string, Json)>, i: nat, show: Json -> string)
    requires i < |fields| && Listed(fields[i].1)
    ensures ListedCount(fields[..i]) < |DetailLines(fields, show)|
    ensures DetailLines(fields, show)[ListedCount(fields[..i])] == DetailLine(fields[i].0, fields[i].1, show)
  {
    var pre := fields[..i];
    var rest := fields[i + 1..];
    assert fields == pre + [fields[i]] + rest;
    DetailLinesAppend(pre + [fields[i]], rest, show);
    DetailLinesAppend(pre, [fields[i]], show);
    assert [fields[i]][..0] == [];
    assert DetailLines([fields[i]], show) == [DetailLine(fields[i].0, fields[i].1, show)];
  }

  /**
   * Every detail line is the line of a field with a listed value, the one
   * with exactly `j` listed fields before it: there are no other lines.
   */
  lemma {:induction false} DetailLineSource(fields: seq<(string, Json)>, j: nat, show: Json -> string)
    returns (i: nat)
    requires j < |DetailLines(fields, show)|
    ensures i < |fields| && Listed(fields[i].1) && ListedCount(fields[..i]) == j
    ensures DetailLines(fields, show)[j] == DetailLine(fields[i].0, fields[i].1, show)
  {
    var n := |fields| - 1;
    var init := fields[..n];
    if j < |DetailLines(init, show)| {
      i := DetailLineSource(init, j, show);
      assert init[..i] == fields[..i] && init[i] == fields[i];
    } else {
      assert fields[..n] == init;
      i := n;
    }
  }

  /** A dict of details is listed line by line; any other value on one line. */
  function DetailBlock(details: Json, show: Json -> string): seq<string> {
    if details.JObj? then DetailLines(details.fields, show) else ["    - " + Str(details, show)]
  }

  /** The lines of one financials section: its title, then its details. */
  function EntryLines(section: string, details: Json, show: Json -> string): seq<string> {
    if !Listed(details) then []
    else
      ["• *" + KeyTitle(section) + "*"]
      + DetailBlock(details, show)
  }

  function SectionLines(fields: seq<(string, Json)>, show: Json -> string): seq<string> {
    if fields == [] then []
    else
      var n := |fields| - 1;
      SectionLines(fields[..n], show) + EntryLines(fields[n].0, fields[n].1, show)
  }

  /** The lines of each element, one run after another. */
  function Concat<T>(xs: seq<T>, f: T -> seq<string>): seq<string> {
    if xs == [] then [] else Concat(xs[..|xs| - 1], f) + f(xs[|xs| - 1])
  }

  /** Element `i`'s lines sit right after those of the elements before it. */
  lemma {:induction false} ConcatAt<T>(xs: seq<T>, f: T -> seq<string>, i: nat) returns (k: nat)
    requires i < |xs|
    ensures k == |Concat(xs[..i], f)|
    ensures k + |f(xs[i])| <= |Concat(xs, f)| && Concat(xs, f)[k..k + |f(xs[i])|] == f(xs[i])
    ensures Concat(xs[..i + 1], f) == Concat(xs[..i], f) + f(xs[i])
  {
    var n := |xs| - 1;
    var init := xs[..n];
    if i == n {
      assert xs[..i + 1] == xs;
      k := |Concat(init, f)|;
      assert Concat(xs, f)[k..k + |f(xs[i])|] == f(xs[i]);
    } else {
      k := ConcatAt(init, f, i);
      assert init[..i] == xs[..i] && init[..i + 1] == xs[..i + 1] && init[i] == xs[i];
      assert Concat(xs, f)[k..k + |f(xs[i])|] == Concat(init, f)[k..k + |f(xs[i])|];
    }
  }

  /** The lines of one financials entry, as a function of the entry. */
  function EntryOf(show: Json -> string): ((string, Json)) -> seq<string> {
    (fd: (string, Json)) => EntryLines(fd.0, fd.1, show)
  }

  lemma {:induction false} SectionLinesConcat(fields: seq<(string, Json)>, show: Json -> string)
    ensures SectionLines(fields, show) == Concat(fields, EntryOf(show))
  {
    if fields != [] {
      SectionLinesConcat(fields[..|fields| - 1], show);
    }
  }

  /**
   * A listed entry `i` of the financials (not empty, not "N/A"), placed
   * after the lines of the entries before it: its title line, followed by
   * its details (the listed values of a dict, one line for anything else).
   */
  lemma SectionLinesEntry(fields: seq<(string, Json)>, i: nat, show: Json -> string) returns (k: nat)
    requires i < |fields| && Listed(fields[i].1)
    ensures k == |SectionLines(fields[..i], show)|
    ensures k + 1 + |DetailBlock(fields[i].1, show)| <= |SectionLines(fields, show)|
    ensures SectionLines(fields, show)[k] == "• *" + KeyTitle(fields[i].0) + "*"
    ensures SectionLines(fields, show)[k + 1..k + 1 + |DetailBlock(fields[i].1, show)|] == DetailBlock(fields[i].1, show)
  {
    k := SectionLinesAt(fields, i, show);
    EntryLinesListed(fields[i].0, fields[i].1, show);
    SliceHead(SectionLines(fields, show), k, EntryLines(fields[i].0, fields[i].1, show));
  }

  /** An empty or "N/A" entry adds no line. */
  lemma SectionLinesSkip(fields: seq<(string, Json)>, i: nat, show: Json -> string)
    requires i < |fields| && !Listed(fields[i].1)
    ensures SectionLines(fields[..i + 1], show) == SectionLines(fields[..i], show)
  {
    var k := SectionLinesAt(fields, i, show);
    assert EntryLines(fields[i].0, fields[i].1, show) == [];
  }

  /** Entry `i`'s lines sit in the section lines right after those of the entries before it. */
  lemma SectionLinesAt(fields: seq<(string, Json)>, i: nat, show: Json -> string) returns (k: nat)
    requires i < |fields|
    ensures k == |SectionLines(fields[..i], show)|
    ensures SectionLines(fields[..i + 1], show) == SectionLines(fields[..i], show) + EntryLines(fields[i].0, fields[i].1, show)
    ensures k + |EntryLines(fields[i].0, fields[i].1, show)| <= |SectionLines(fields, show)|
    ensures SectionLines(fields, show)[k..k + |EntryLines(fields[i].0, fields[i].1, show)|]
            == EntryLines(fields[i].0, fields[i].1, show)
  {
    SectionLinesConcat(fields, show);
    SectionLinesConcat(fields[..i], show);
    SectionLinesConcat(fields[..i + 1], show);
    k := ConcatAt(fields, EntryOf(show), i);
  }

  /** A listed entry gives its title line, then its detail block. */
  lemma EntryLinesListed(section: string, details: Json, show: Json -> string)
    requires Listed(details)
    ensures EntryLines(section, details, show) != []
    ensures EntryLines(section, details, show)[0] == "• *" + KeyTitle(section) + "*"
    ensures EntryLines(section, details, show)[1..] == DetailBlock(details, show)
  {
  }

  /** A block found at `k` gives its first line at `k` and the rest after it. */
  lemma SliceHead(all: seq<string>, k: nat, block: seq<string>)
    requires k + |block| <= |all| && all[k..k + |block|] == block && block != []
    ensures all[k] == block[0] && all[k + 1..k + |block|] == block[1..]
  {
    assert all[k] == all[k..k + |block|][0];
    assert all[k + 1..k + |block|] == all[k..k + |block|][1..];
  }

  /**
   * The Key Financials section: absent for a falsy value, `{}` or "N/A";
   * AttributeError for any other value that is not a dict.
   */
  function FinancialsSection(kf: Json, show: Json -> string): (r: Result<seq<string>>)
    ensures !Truthy(kf) || kf == JStr("N/A") ==> r == Ok([])
    ensures r.Err? <==> Truthy(kf) && kf != JStr("N/A") && !kf.JObj?
    ensures r.Err? ==> r.error == AttributeError
    ensures r.Ok? && r.value != [] ==> r.value[0] == FINANCIALS_HEADING && r.value[|r.value| - 1] == ""
    ensures Truthy(kf) && kf.JObj? ==> r == Ok([FINANCIALS_HEADING] + SectionLines(kf.fields, show) + [""])
  {
    if Truthy(kf) && kf != JObj([]) && kf != JStr("N/A") then
      if kf.JObj? then Ok([FINANCIALS_HEADING] + SectionLines(kf.fields, show) + [""])
      else Err(AttributeError)
    else Ok([])
  }

  /** Some item is truthy but not a string, so `.strip()` raises on it. */
  predicate HasNonString(items: seq<Json>) {
    exists i :: 0 <= i < |items| && Truthy(items[i]) && !items[i].JStr?
  }

  /** Some item is a string that is not blank. */
  predicate HasText(items: seq<Json>) {
    exists i :: 0 <= i < |items| && items[i].JStr? && !Blank(items[i].s)
  }

  /** One bullet per showable string item, in order. */
  function BulletLines(items: seq<Json>): (lines: seq<string>)
    ensures |lines| <= |items|
  {
    if items == [] then []
    else
      var n := |items| - 1;
      BulletLines(items[..n]) + (if items[n].JStr? && Showable(items[n].s) then [BULLET + items[n].s] else [])
  }

  /**
   * The bullets are exactly the showable string items: a bullet for `x`
   * appears iff `x` is an item with text that is not "n/a".
   */
  lemma {:induction false} BulletsAreShowableItems(items: seq<Json>, x: string)
    ensures BULLET + x in BulletLines(items) <==> JStr(x) in items && Showable(x)
  {
    if items != [] {
      var n := |items| - 1;
      BulletsAreShowableItems(items[..n], x);
      assert items == items[..n] + [items[n]];
      if items[n].JStr? && BULLET + x == BULLET + items[n].s {
        assert x == (BULLET + x)[|BULLET|..];
      }
    }
  }

  /**
   * A list section (strategic initiatives, key risks): absent for a falsy
   * value or `["N/A"]`; TypeError for a value that cannot be iterated;
   * AttributeError when some item is truthy but not a string; absent when no
   * item has text; otherwise the heading, one bullet per showable item and
   * a blank line.
   */
  function ListSection(v: Json, heading: string): (r: Result<seq<string>>)
    ensures !Truthy(v) || v == JArr([JStr("N/A")]) ==> r == Ok([])
    ensures r.Ok? && r.value != [] ==>
              Elements(v).Ok? && r.value == [heading] + BulletLines(Elements(v).value) + [""]
    ensures r.Err? ==> r.error == TypeError || r.error == AttributeError
    ensures Truthy(v) && v != JArr([JStr("N/A")]) ==> (r == Err(TypeError) <==> Elements(v).Err?)
    ensures Truthy(v) && v != JArr([JStr("N/A")]) && Elements(v).Ok? ==>
              (r == Err(AttributeError) <==> HasNonString(Elements(v).value))
    ensures r.Ok? && r.value != [] <==>
              Truthy(v) && v != JArr([JStr("N/A")]) && Elements(v).Ok?
              && HasText(Elements(v).value) && !HasNonString(Elements(v).value)
  {
    if !Truthy(v) || v == JArr([JStr("N/A")]) then Ok([])
    else
      match Elements(v)
      case Err(e) => Err(e)
      case Ok(items) =>
        if HasNonString(items) then Err(AttributeError)
        else if !HasText(items) then Ok([])
        else Ok([heading] + BulletLines(items) + [""])
  }

  /** The five sections of a summary dict, in the source's order. */
  function Sections(fs: seq<(string, Json)>, show: Json -> string): seq<Result<seq<string>>> {
    [ BlockSection(GetOr(fs, "executive_summary", JNull), EXEC_HEADING),
      FinancialsSection(GetOr(fs, "key_financials", JObj([])), show),
      ListSection(GetOr(fs, "strategic_initiatives", JArr([])), INITIATIVES_HEADING),
      BlockSection(GetOr(fs, "outlook_and_guidance", JNull), OUTLOOK_HEADING),
      ListSection(GetOr(fs, "key_risks_mentioned", JArr([])), RISKS_HEADING) ]
  }

  /**
   * Appends the parts to `lines` one after another; the first part that
   * failed decides the error, as the first statement that raises does.
   */
  function Chain(lines: seq<string>, parts: seq<Result<seq<string>>>): Result<seq<string>>
    decreases |parts|
  {
    if parts == [] then Ok(lines)
    else
      match parts[0]
      case Err(e) => Err(e)
      case Ok(more) => Chain(lines + more, parts[1..])
  }

  /**
   * The chain fails iff one of the parts failed, with the error of one of
   * them; when it succeeds, the lines it started from are kept as a prefix.
   */
  lemma {:induction false} ChainOutcome(lines: seq<string>, parts: seq<Result<seq<string>>>)
    ensures Chain(lines, parts).Err? <==> exists k :: 0 <= k < |parts| && parts[k].Err?
    ensures Chain(lines, parts).Err? ==> Err(Chain(lines, parts).error) in parts
    ensures Chain(lines, parts).Ok? ==>
              |lines| <= |Chain(lines, parts).value| && Chain(lines, parts).value[..|lines|] == lines
    decreases |parts|
  {
    if parts != [] && parts[0].Ok? {
      var more := parts[0].value;
      ChainOutcome(lines + more, parts[1..]);
      assert forall k :: 1 <= k < |parts| ==> parts[k] == parts[1..][k - 1];
      var r := Chain(lines, parts);
      if r.Ok? {
        assert r.value[..|lines + more|] == lines + more;
        assert r.value[..|lines|] == (lines + more)[..|lines|];
      }
    }
  }

  /** A failing chain fails with the error of its first failing part. */
  lemma {:induction false} ChainFirstError(lines: seq<string>, parts: seq<Result<seq<string>>>) returns (k: nat)
    requires Chain(lines, parts).Err?
    ensures k < |parts| && parts[k] == Err(Chain(lines, parts).error)
    ensures forall j :: 0 <= j < k ==> parts[j].Ok?
    decreases |parts|
  {
    if parts[0].Ok? {
      var k' := ChainFirstError(lines + parts[0].value, parts[1..]);
      k := k' + 1;
    } else {
      k := 0;
    }
  }

  /** Chaining onto `lines` is chaining from scratch and prefixing `lines`. */
  lemma {:induction false} ChainShift(lines: seq<string>, acc: seq<string>, parts: seq<Result<seq<string>>>)
    ensures Chain(lines + acc, parts) == Then(lines, Chain(acc, parts))
    decreases |parts|
  {
    if parts != [] && parts[0].Ok? {
      ChainShift(lines, acc + parts[0].value, parts[1..]);
      assert lines + acc + parts[0].value == lines + (acc + parts[0].value);
    }
  }

  /** The sections built from the summary dict; a non-dict summary has no `get`. */
  function SummarySections(summary: Json, show: Json -> string): (r: Result<seq<string>>)
    ensures !summary.JObj? ==> r == Err(AttributeError)
    ensures r.Err? ==> r.error == AttributeError || r.error == TypeError
    ensures summary.JObj? ==> r == Chain([], Sections(summary.fields, show))
    ensures summary.JObj? ==>
              (r.Err? <==> exists k :: 0 <= k < 5 && Sections(summary.fields, show)[k].Err?)
    ensures summary.JObj? && r.Err? ==> Err(r.error) in Sections(summary.fields, show)
  {
    if !summary.JObj? then Err(AttributeError)
    else
      ChainOutcome([], Sections(summary.fields, show));
      Chain([], Sections(summary.fields, show))
  }

  /**
   * The message's lines: the two header lines, the companies line exactly
   * when companies were detected, then the summary's sections. Whether it
   * succeeds depends on the summary alone.
   */
  function SlackLines(url: string, summary: Json, channelId: string, title: string,
                      companies: seq<string>, show: Json -> string): (r: Result<seq<string>>)
    ensures r.Ok? <==> SummarySections(summary, show).Ok?
    ensures r.Ok? ==> |r.value| == 2 + |CompaniesLines(companies)| + |SummarySections(summary, show).value|
    ensures r.Ok? ==> r.value[0] == "*Summary for channel:* `" + channelId + "`\n<" + url + ">"
                      && r.value[1] == "*Video Title:* " + title
    ensures r.Ok? && companies != [] ==> r.value[2] == "*Detected Companies:* " + Join(", ", companies) + "\n"
    ensures r.Ok? ==> r.value[|r.value| - |SummarySections(summary, show).value|..] == SummarySections(summary, show).value
  {
    var body := SummarySections(summary, show);
    if body.Err? then Err(body.error)
    else
      var head := HeaderLines(url, channelId, title) + CompaniesLines(companies);
      assert (head + body.value)[|head|..] == body.value;
      Ok(head + body.value)
  }

  function SlackText(url: string, summary: Json, channelId: string, title: string,
                     companies: seq<string>, show: Json -> string): Result<string> {
    match SlackLines(url, summary, channelId, title, companies, show)
    case Ok(lines) => Ok(Join("\n", lines))
    case Err(e) => Err(e)
  }

  /** Appends a section's lines to the lines built so far, or passes its error on. */
  function Then(lines: seq<string>, section: Result<seq<string>>): Result<seq<string>> {
    match section
    case Ok(more) => Ok(lines + more)
    case Err(e) => Err(e)
  }

  /** The details loop: one line per listed value of a detail dict. */
  method AppendDetails(lines: seq<string>, fields: seq<(string, Json)>, show: Json -> string)
    returns (out: seq<string>)
    ensures out == lines + DetailLines(fields, show)
  {
    out := lines;
    for j := 0 to |fields|
      invariant out == lines + DetailLines(fields[..j], show)
    {
      assert fields[..j + 1][..j] == fields[..j];
      var (k, v) := fields[j];
      if Listed(v) {
        out := out + [DetailLine(k, v, show)];
      }
    }
    assert fields[..|fields|] == fields;
  }

  /** One financials section: its title line, then its detail lines. */
  method AppendEntry(lines: seq<string>, section: string, details: Json, show: Json -> string)
    returns (out: seq<string>)
    ensures out == lines + EntryLines(section, details, show)
  {
    out := lines;
    if Listed(details) {
      out := out + ["• *" + KeyTitle(section) + "*"];
      if details.JObj? {
        out := AppendDetails(out, details.fields, show);
      } else {
        out := out + ["    - " + Str(details, show)];
      }
    }
  }

  lemma SectionLinesStep(fields: seq<(string, Json)>, i: nat, show: Json -> string)
    requires i < |fields|
    ensures SectionLines(fields[..i + 1], show) == SectionLines(fields[..i], show) + EntryLines(fields[i].0, fields[i].1, show)
  {
    assert fields[..i + 1][..i] == fields[..i];
  }

  /** The sections loop of Key Financials. */
  method AppendSections(lines: seq<string>, fields: seq<(string, Json)>, show: Json -> string)
    returns (out: seq<string>)
    ensures out == lines + SectionLines(fields, show)
  {
    out := lines;
    for i := 0 to |fields|
      invariant out == lines + SectionLines(fields[..i], show)
    {
      out := AppendEntry(out, fields[i].0, fields[i].1, show);
      assert out == lines + SectionLines(fields[..i + 1], show) by {
        SectionLinesStep(fields, i, show);
      }
    }
    assert fields[..|fields|] == fields;
  }

  /** The Key Financials block: heading, sections, blank line. */
  method AppendFinancials(lines: seq<string>, kf: Json, show: Json -> string) returns (r: Result<seq<string>>)
    ensures r == Then(lines, FinancialsSection(kf, show))
  {
    if Truthy(kf) && kf != JObj([]) && kf != JStr("N/A") {
      if !kf.JObj? {
        return Err(AttributeError);
      }
      var out := AppendSections(lines + [FINANCIALS_HEADING], kf.fields, show);
      ghost var sections := SectionLines(kf.fields, show);
      assert FinancialsSection(kf, show) == Ok([FINANCIALS_HEADING] + sections + [""]);
      assert out + [""] == lines + ([FINANCIALS_HEADING] + sections + [""]);
      return Ok(out + [""]);
    }
    assert lines + [] == lines;
    r := Ok(lines);
  }

  /** An executive-summary or outlook block. */
  method AppendBlock(lines: seq<string>, v: Json, heading: string) returns (r: Result<seq<string>>)
    ensures r == Then(lines, BlockSection(v, heading))
  {
    if Truthy(v) {
      if !v.JStr? {
        return Err(AttributeError);
      }
      if Showable(v.s) {
        return Ok(lines + [heading + "\n" + v.s + "\n"]);
      }
    }
    assert lines + [] == lines;
    r := Ok(lines);
  }

  /**
   * The `any(...)` pass of a list section: it stops at the first string
   * with text and raises on a truthy non-string met before it.
   */
  method ScanForText(items: seq<Json>) returns (r: Result<bool>)
    ensures r.Err? ==> r.error == AttributeError && HasNonString(items)
    ensures r == Ok(true) ==> HasText(items)
    ensures r == Ok(false) ==> !HasText(items) && !HasNonString(items)
  {
    var i := 0;
    while i < |items|
      invariant i <= |items|
      invariant !HasNonString(items[..i]) && !HasText(items[..i])
    {
      assert items[..i + 1] == items[..i] + [items[i]];
      if Truthy(items[i]) {
        if !items[i].JStr? {
          assert HasNonString(items);
          return Err(AttributeError);
        }
        if !Blank(items[i].s) {
          assert HasText(items);
          return Ok(true);
        }
      }
      i := i + 1;
    }
    assert items[..i] == items;
    r := Ok(false);
  }

  /** The bullet pass of a list section, raising on a truthy non-string. */
  method AppendBullets(lines: seq<string>, items: seq<Json>) returns (r: Result<seq<string>>)
    ensures r.Err? <==> HasNonString(items)
    ensures r.Err? ==> r.error == AttributeError
    ensures r.Ok? ==> r.value == lines + BulletLines(items)
  {
    var out := lines;
    for j := 0 to |items|
      invariant out == lines + BulletLines(items[..j])
      invariant !HasNonString(items[..j])
    {
      assert items[..j + 1][..j] == items[..j];
      var item := items[j];
      if Truthy(item) && !item.JStr? {
        assert items[j] == item;
        return Err(AttributeError);
      }
      assert BulletLines(items[..j + 1]) == BulletLines(items[..j])
        + (if item.JStr? && Showable(item.s) then [BULLET + item.s] else []);
      if item.JStr? && Showable(item.s) {
        out := out + [BULLET + item.s];
      }
      assert !(Truthy(items[..j + 1][j]) && !items[..j + 1][j].JStr?);
    }
    assert items[..|items|] == items;
    r := Ok(out);
  }

  /**
   * A list section as the source runs it: `any` scans up to the first item
   * with text, then a second pass writes the bullets; either pass raises on
   * a truthy item that is not a string.
   */
  method AppendList(lines: seq<string>, v: Json, heading: string) returns (r: Result<seq<string>>)
    ensures r == Then(lines, ListSection(v, heading))
  {
    assert lines + [] == lines;
    if !Truthy(v) || v == JArr([JStr("N/A")]) {
      return Ok(lines);
    }
    var elements := Elements(v);
    if elements.Err? {
      return Err(elements.error);
    }
    var items := elements.value;
    var any := ScanForText(items);
    if any.Err? {
      return Err(any.error);
    }
    if !any.value {
      return Ok(lines);
    }
    var bullets := AppendBullets(lines + [heading], items);
    if bullets.Err? {
      return Err(bullets.error);
    }
    assert bullets.value + [""] == lines + ([heading] + BulletLines(items) + [""]);
    r := Ok(bullets.value + [""]);
  }

  /** `format_summary_for_slack`: builds the message line by line. */
  method FormatSummaryForSlack(url: string, summary: Json, channelId: string, title: string,
                               companies: seq<string>, show: Json -> string)
    returns (r: Result<string>)
    ensures r == SlackText(url, summary, channelId, title, companies, show)
  {
    var lines := HeaderLines(url, channelId, title);
    if companies != [] {
      lines := lines + ["*Detected Companies:* " + Join(", ", companies) + "\n"];
    }
    if !summary.JObj? {
      return Err(AttributeError);
    }
    var body := AppendSummary(lines, summary.fields, show);
    assert lines + [] == lines;
    ChainShift(lines, [], Sections(summary.fields, show));
    if body.Err? {
      return Err(body.error);
    }
    r := Ok(Join("\n", body.value));
  }

  /** The five sections of a summary dict, appended in order. */
  method AppendSummary(lines: seq<string>, fs: seq<(string, Json)>, show: Json -> string)
    returns (r: Result<seq<string>>)
    ensures r == Chain(lines, Sections(fs, show))
  {
    ghost var parts := Sections(fs, show);
    assert parts[0..] == parts;
    var exec := AppendBlock(lines, GetOr(fs, "executive_summary", JNull), EXEC_HEADING);
    ChainStep(lines, parts, 0);
    if exec.Err? {
      return Err(exec.error);
    }
    assert Chain(lines, parts) == Chain(exec.value, parts[1..]);
    var fin := AppendFinancials(exec.value, GetOr(fs, "key_financials", JObj([])), show);
    ChainStep(exec.value, parts, 1);
    if fin.Err? {
      return Err(fin.error);
    }
    assert Chain(lines, parts) == Chain(fin.value, parts[2..]);
    var initiatives := AppendList(fin.value, GetOr(fs, "strategic_initiatives", JArr([])), INITIATIVES_HEADING);
    ChainStep(fin.value, parts, 2);
    if initiatives.Err? {
      return Err(initiatives.error);
    }
    assert Chain(lines, parts) == Chain(initiatives.value, parts[3..]);
    var outlook := AppendBlock(initiatives.value, GetOr(fs, "outlook_and_guidance", JNull), OUTLOOK_HEADING);
    ChainStep(initiatives.value, parts, 3);
    if outlook.Err? {
      return Err(outlook.error);
    }
    assert Chain(lines, parts) == Chain(outlook.value, parts[4..]);
    var risks := AppendList(outlook.value, GetOr(fs, "key_risks_mentioned", JArr([])), RISKS_HEADING);
    ChainStep(outlook.value, parts, 4);
    assert parts[5..] == [];
    r := risks;
  }

  /** Running the chain from part `k`: that part, then the rest. */
  lemma ChainStep(lines: seq<string>, parts: seq<Result<seq<string>>>, k: nat)
    requires k < |parts|
    ensures parts[k].Err? ==> Chain(lines, parts[k..]) == Err(parts[k].error)
    ensures parts[k].Ok? ==> Chain(lines, parts[k..]) == Chain(lines + parts[k].value, parts[k + 1..])
  {
    assert parts[k..][0] == parts[k];
    assert parts[k..][1..] == parts[k + 1..];
  }
}

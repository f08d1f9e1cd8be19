/**
 * The part of Python's `str.format` that `PROMPT_TEMPLATE.format(text=...)`
 * exercises: `{{` and `}}` stand for single braces, a replacement field
 * `{text}` is replaced by the argument, any other field raises (KeyError,
 * IndexError), and an unmatched brace raises ValueError.
 */
module PromptFormat {
  import opened Base

  predicate NoBraces(s: string) {
    forall i :: 0 <= i < |s| ==> s[i] != '{' && s[i] != '}'
  }

  /**
   * The index of the `}` that closes a field whose body starts at `i`,
   * counting nested braces, or None when the template ends first.
   */
  function CloseIndex(t: string, i: nat, depth: nat): (r: Option<nat>)
    ensures r.Some? ==> i <= r.value < |t| && t[r.value] == '}'
    decreases |t| - i
  {
    if i >= |t| then None
    else if t[i] == '{' then CloseIndex(t, i + 1, depth + 1)
    else if t[i] == '}' then (if depth == 0 then Some(i) else CloseIndex(t, i + 1, depth - 1))
    else CloseIndex(t, i + 1, depth)
  }

  /** `template.format(text=text)`; None when it raises. */
  function Format(t: string, text: string): Option<string>
    decreases |t|
  {
    if t == [] then Some([])
    else if t[0] == '{' then
      if |t| >= 2 && t[1] == '{' then Prepend("{", Format(t[2..], text))
      else
        match CloseIndex(t, 1, 0)
        case None => None
        case Some(j) => if t[1..j] == "text" then Prepend(text, Format(t[j + 1..], text)) else None
    else if t[0] == '}' then
      if |t| >= 2 && t[1] == '}' then Prepend("}", Format(t[2..], text)) else None
    else Prepend([t[0]], Format(t[1..], text))
  }

  function Prepend(s: string, r: Option<string>): Option<string> {
    match r
    case None => None
    case Some(x) => Some(s + x)
  }

  /** Text with every brace doubled, so that formatting gives it back unchanged. */
  function Escape(s: string): (e: string)
    ensures |s| <= |e|
  {
    if s == [] then []
    else (if s[0] == '{' then "{{" else if s[0] == '}' then "}}" else [s[0]]) + Escape(s[1..])
  }

  /** Text without braces is copied through. */
  lemma {:induction false} FormatPlain(s: string, rest: string, text: string)
    requires NoBraces(s)
    ensures Format(s + rest, text) == Prepend(s, Format(rest, text))
  {
    if s != [] {
      assert (s + rest)[1..] == s[1..] + rest;
      FormatPlain(s[1..], rest, text);
      assert [s[0]] + s[1..] == s;
      PrependTwice([s[0]], s[1..], Format(rest, text));
    } else {
      assert s + rest == rest;
      PrependNothing(Format(rest, text));
    }
  }

  /** Escaped text comes back unchanged. */
  lemma {:induction false} FormatEscaped(s: string, rest: string, text: string)
    ensures Format(Escape(s) + rest, text) == Prepend(s, Format(rest, text))
  {
    if s == [] {
      assert Escape(s) + rest == rest;
      PrependNothing(Format(rest, text));
    } else {
      var head := if s[0] == '{' then "{{" else if s[0] == '}' then "}}" else [s[0]];
      assert Escape(s) + rest == head + (Escape(s[1..]) + rest);
      FormatEscaped(s[1..], rest, text);
      assert [s[0]] + s[1..] == s;
      PrependTwice([s[0]], s[1..], Format(rest, text));
    }
  }

  lemma PrependNothing(r: Option<string>)
    ensures Prepend([], r) == r
  {
    if r.Some? {
      assert [] + r.value == r.value;
    }
  }

  lemma PrependTwice(a: string, b: string, r: Option<string>)
    ensures Prepend(a, Prepend(b, r)) == Prepend(a + b, r)
  {
    if r.Some? {
      assert a + (b + r.value) == a + b + r.value;
    }
  }

  /** `{text}` is replaced by the argument. */
  lemma FormatField(rest: string, text: string)
    ensures Format("{text}" + rest, text) == Prepend(text, Format(rest, text))
  {
    var t := "{text}" + rest;
    assert t[1..5] == "text" && t[5] == '}';
    assert CloseIndex(t, 5, 0) == Some(5);
    assert CloseIndex(t, 4, 0) == CloseIndex(t, 5, 0);
    assert CloseIndex(t, 3, 0) == CloseIndex(t, 4, 0);
    assert CloseIndex(t, 2, 0) == CloseIndex(t, 3, 0);
    assert CloseIndex(t, 1, 0) == CloseIndex(t, 2, 0);
    assert t[6..] == rest;
  }

  /** A field whose body starts with a line break is not `text`, so formatting raises. */
  lemma FormatStrayBrace(rest: string, text: string)
    ensures Format("{\n" + rest, text) == None
  {
    var t := "{\n" + rest;
    match CloseIndex(t, 1, 0)
    case None =>
    case Some(j) =>
      assert t[1] == '\n';
      assert j != 1;
      assert t[1..j][0] == '\n';
  }

  /**
   * The analyst prompt: the instructions before the transcript slot and
   * everything after it (the output requirements and the JSON example).
   */
  datatype Prompt = Prompt(before: string, after: string)

  /** The template as the module writes it: the example's braces are not doubled. */
  function RawTemplate(p: Prompt): string {
    p.before + "{text}" + p.after
  }

  /** The template with the literal braces doubled, as `str.format` expects. */
  function EscapedTemplate(p: Prompt): string {
    Escape(p.before) + "{text}" + Escape(p.after)
  }

  /**
   * As written: once a literal `{` followed by a line break (the opening of
   * the JSON example) comes after the transcript slot with no brace before
   * it, formatting raises whatever the transcript is.
   */
  lemma {:induction false} RawTemplateRaises(p: Prompt, mid: string, rest: string, text: string)
    requires NoBraces(p.before) && NoBraces(mid) && p.after == mid + "{\n" + rest
    ensures Format(RawTemplate(p), text) == None
  {
    assert RawTemplate(p) == p.before + ("{text}" + (mid + ("{\n" + rest)));
    FormatPlain(p.before, "{text}" + (mid + ("{\n" + rest)), text);
    FormatField(mid + ("{\n" + rest), text);
    FormatPlain(mid, "{\n" + rest, text);
    FormatStrayBrace(rest, text);
  }

  /** An escaped text on its own formats back to itself. */
  lemma EscapedAlone(s: string, text: string)
    ensures Format(Escape(s), text) == Some(s)
  {
    var e := Escape(s);
    assert e + [] == e;
    FormatEscaped(s, [], text);
    assert Format([], text) == Some([]);
    assert s + [] == s;
  }

  /** Corrected: the escaped template gives the prompt with the transcript in its slot. */
  lemma {:induction false} EscapedTemplateFormats(p: Prompt, text: string)
    ensures Format(EscapedTemplate(p), text) == Some(p.before + text + p.after)
  {
    var tail := "{text}" + Escape(p.after);
    EscapedAlone(p.after, text);
    FormatField(Escape(p.after), text);
    assert Format(tail, text) == Some(text + p.after);
    FormatEscaped(p.before, tail, text);
    assert EscapedTemplate(p) == Escape(p.before) + tail;
    assert p.before + (text + p.after) == p.before + text + p.after;
  }
}

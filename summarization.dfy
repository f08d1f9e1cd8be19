/**
 * The structured extractor: a bounded retry loop around the chat endpoint
 * and the wrapper that turns its reply into a parsed summary.
 */
module Summarization {
  import opened Base
  import opened Text
  import opened Json
  import opened PromptFormat

  /** The default number of POST attempts. */
  const DEFAULT_MAX_RETRIES: int := 3

  /** How `summarise_with_gpt` ends: it returns a value (None or the content) or an exception escapes it. */
  datatype Reply = Returned(content: Option<string>) | Raised

  /**
   * The language-model side of the system: the value of OPENAI_API_KEY in
   * the environment; the chat endpoint on a given attempt (the reply's message
   * content, or None when the POST, the status check or reading the reply
   * raised); `json.loads` (None when it raises).
   */
  datatype LlmServices = LlmServices(
    envApiKey: Option<string>,
    chat: (string, nat) -> Option<string>,
    parseJson: string -> Option<Json>)

  /** Python's truth value of an optional string. */
  predicate Present(s: Option<string>) {
    s.Some? && s.value != ""
  }

  /** The key used: the argument when it is truthy, otherwise the environment's. */
  function EffectiveKey(apiKey: Option<string>, envApiKey: Option<string>): Option<string> {
    if Present(apiKey) then apiKey else envApiKey
  }

  /** The number of attempts `range(maxRetries)` allows. */
  function AttemptBound(maxRetries: int): nat {
    if maxRetries > 0 then maxRetries else 0
  }

  /** The first attempt in `[k, n)` whose call succeeds, if any. */
  function FirstSuccess(prompt: string, chat: (string, nat) -> Option<string>, k: nat, n: nat): (r: Option<nat>)
    ensures r.Some? ==> k <= r.value < n && chat(prompt, r.value).Some?
    ensures r.Some? ==> forall j :: k <= j < r.value ==> chat(prompt, j).None?
    ensures r.None? <==> forall j :: k <= j < n ==> chat(prompt, j).None?
    decreases n - k
  {
    if k >= n then None
    else if chat(prompt, k).Some? then Some(k)
    else FirstSuccess(prompt, chat, k + 1, n)
  }

  /**
   * The attempt loop on a formatted prompt: at most `maxRetries` attempts;
   * the stripped content of the first success, with every earlier attempt
   * failed and no attempt after it; None exactly when every allowed attempt
   * failed, after all of them were made.
   */
  function Attempts(prompt: string, maxRetries: int, chat: (string, nat) -> Option<string>): (out: (Reply, nat))
    ensures out.0.Returned? && out.1 <= AttemptBound(maxRetries)
    ensures out.0.content.Some? ==>
              1 <= out.1 && chat(prompt, out.1 - 1).Some?
              && out.0.content.value == Strip(chat(prompt, out.1 - 1).value)
              && forall j :: 0 <= j < out.1 - 1 ==> chat(prompt, j).None?
    ensures out.0.content.None? <==> forall j :: 0 <= j < maxRetries ==> chat(prompt, j).None?
    ensures out.0.content.None? ==> out.1 == AttemptBound(maxRetries)
  {
    var n := AttemptBound(maxRetries);
    match FirstSuccess(prompt, chat, 0, n)
    case None => (Returned(None), n)
    case Some(k) => (Returned(Some(Strip(chat(prompt, k).value))), k + 1)
  }

  /**
   * `summarise_with_gpt` as a value: the reply and the number of POST
   * attempts made. Without a key nothing is attempted and None is
   * returned; a prompt that cannot be formatted raises before any attempt;
   * otherwise the attempt loop runs on the formatted prompt.
   */
  function Summarise(text: string, template: string, apiKey: Option<string>, maxRetries: int, svc: LlmServices)
    : (out: (Reply, nat))
    ensures !Present(EffectiveKey(apiKey, svc.envApiKey)) ==> out == (Returned(None), 0)
    ensures Present(EffectiveKey(apiKey, svc.envApiKey)) && Format(template, text).None? ==> out == (Raised, 0)
    ensures Present(EffectiveKey(apiKey, svc.envApiKey)) && Format(template, text).Some? ==>
              out == Attempts(Format(template, text).value, maxRetries, svc.chat)
    ensures out.1 <= AttemptBound(maxRetries)
  {
    if !Present(EffectiveKey(apiKey, svc.envApiKey)) then (Returned(None), 0)
    else
      match Format(template, text)
      case None => (Raised, 0)
      case Some(prompt) => Attempts(prompt, maxRetries, svc.chat)
  }

  /**
   * `summarise_with_gpt`: the attempt-counter loop over the chat endpoint.
   */
  method SummariseWithGpt(text: string, template: string, apiKey: Option<string>, maxRetries: int, svc: LlmServices)
    returns (r: Reply, attempts: nat)
    ensures (r, attempts) == Summarise(text, template, apiKey, maxRetries, svc)
  {
    var key := EffectiveKey(apiKey, svc.envApiKey);
    if !Present(key) {
      return Returned(None), 0;
    }
    var prompt := Format(template, text);
    if prompt.None? {
      return Raised, 0;
    }
    r, attempts := AttemptLoop(prompt.value, maxRetries, svc.chat);
  }

  /** The `for attempt in range(max_retries)` loop with its early return. */
  method AttemptLoop(prompt: string, maxRetries: int, chat: (string, nat) -> Option<string>)
    returns (r: Reply, attempts: nat)
    ensures (r, attempts) == Attempts(prompt, maxRetries, chat)
  {
    attempts := 0;
    var attempt := 0;
    while attempt < maxRetries
      invariant 0 <= attempt <= AttemptBound(maxRetries)
      invariant attempts == attempt
      invariant forall j :: 0 <= j < attempt ==> chat(prompt, j).None?
    {
      attempts := attempts + 1;
      var content := chat(prompt, attempt);
      if content.Some? {
        assert FirstSuccess(prompt, chat, 0, AttemptBound(maxRetries)) == Some(attempt);
        return Returned(Some(Strip(content.value))), attempts;
      }
      attempt := attempt + 1;
    }
    assert FirstSuccess(prompt, chat, 0, AttemptBound(maxRetries)) == None;
    r := Returned(None);
  }

  /**
   * `generate_summary` as a value: every failure is a RuntimeError (a
   * prompt that cannot be formatted, no or empty content, content that does
   * not parse); a summary is returned exactly when the chat loop, with the
   * default retry bound, returns non-empty content that parses, and it is
   * that parse.
   */
  function Summary(transcript: string, template: string, apiKey: Option<string>, svc: LlmServices): (r: Result<Json>)
    ensures r.Err? ==> r.error == RuntimeError
    ensures r.Ok? ==>
              var reply := Summarise(transcript, template, apiKey, DEFAULT_MAX_RETRIES, svc).0;
              reply.Returned? && reply.content.Some? && reply.content.value != ""
              && svc.parseJson(reply.content.value) == Some(r.value)
    ensures var reply := Summarise(transcript, template, apiKey, DEFAULT_MAX_RETRIES, svc).0;
            (reply.Returned? && reply.content.Some? && reply.content.value != ""
             && svc.parseJson(reply.content.value).Some?) ==> r == Ok(svc.parseJson(reply.content.value).value)
    ensures Format(template, transcript).None? ==> r == Err(RuntimeError)
    ensures !Present(EffectiveKey(apiKey, svc.envApiKey)) ==> r == Err(RuntimeError)
  {
    match Summarise(transcript, template, apiKey, DEFAULT_MAX_RETRIES, svc).0
    case Raised => Err(RuntimeError)
    case Returned(None) => Err(RuntimeError)
    case Returned(Some(content)) =>
      if content == "" then Err(RuntimeError)
      else
        match svc.parseJson(content)
        case None => Err(RuntimeError)
        case Some(summary) => Ok(summary)
  }

  /** `generate_summary`: call the chat loop, check its content, parse it, wrap every failure. */
  method GenerateSummary(transcript: string, template: string, apiKey: Option<string>, svc: LlmServices)
    returns (r: Result<Json>)
    ensures r == Summary(transcript, template, apiKey, svc)
  {
    var reply, _ := SummariseWithGpt(transcript, template, apiKey, DEFAULT_MAX_RETRIES, svc);
    if reply.Raised? || reply.content.None? || reply.content.value == "" {
      return Err(RuntimeError);
    }
    var parsed := svc.parseJson(reply.content.value);
    if parsed.None? {
      return Err(RuntimeError);
    }
    r := Ok(parsed.value);
  }

  /**
   * As written, the analyst prompt's JSON example keeps single braces, so
   * `generate_summary` raises RuntimeError for every transcript and no
   * request is ever made.
   */
  lemma AnalystPromptAlwaysFails(transcript: string, p: Prompt, mid: string, rest: string,
                                 apiKey: Option<string>, svc: LlmServices)
    requires NoBraces(p.before) && NoBraces(mid) && p.after == mid + "{\n" + rest
    ensures Summary(transcript, RawTemplate(p), apiKey, svc) == Err(RuntimeError)
    ensures Summarise(transcript, RawTemplate(p), apiKey, DEFAULT_MAX_RETRIES, svc).1 == 0
  {
    RawTemplateRaises(p, mid, rest, transcript);
  }

  /**
   * With the braces doubled, formatting never raises: the attempt loop
   * runs on the analyst prompt with the transcript in its slot.
   */
  lemma EscapedPromptIsSent(transcript: string, p: Prompt, apiKey: Option<string>, svc: LlmServices)
    requires Present(EffectiveKey(apiKey, svc.envApiKey))
    ensures Summarise(transcript, EscapedTemplate(p), apiKey, DEFAULT_MAX_RETRIES, svc)
            == Attempts(p.before + transcript + p.after, DEFAULT_MAX_RETRIES, svc.chat)
  {
    EscapedTemplateFormats(p, transcript);
  }
}

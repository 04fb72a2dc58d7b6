/** The OpenAI-compatible client of `core/llm/engine.py`: message assembly with
    an optional system prompt, and the mapping of a completion stream (or a
    single completion) to text, with failures turned into warning strings. */
module LlmEngine {
  import opened Common

  /** The first argument of `generate`/`stream`: a message list or a plain prompt. */
  datatype Prompt = MessageList(messages: seq<ChatMessage>) | PlainText(text: string)

  /** A system prompt counts only when it is given and non-empty (`if system_prompt:`). */
  predicate HasSystemPrompt(systemPrompt: Option<string>) {
    systemPrompt.Some? && systemPrompt.value != ""
  }

  function SystemMessage(systemPrompt: Option<string>): ChatMessage
    requires HasSystemPrompt(systemPrompt)
  {
    ChatMessage("system", systemPrompt.value)
  }

  predicate NoSystemMessage(ms: seq<ChatMessage>) {
    forall i :: 0 <= i < |ms| ==> ms[i].role != "system"
  }

  /** `_build_messages`. The input list is copied before the insertion, which
      value semantics gives here for free: the caller's list is never changed. */
  function BuildMessages(p: Prompt, systemPrompt: Option<string>): (r: seq<ChatMessage>)
    // the list input survives as a suffix, at most one message is added in front
    ensures p.MessageList? ==>
              |p.messages| <= |r| <= |p.messages| + 1 && r[|r| - |p.messages|..] == p.messages
    // a message is added exactly when a prompt is given and the list does not already open with a system message
    ensures p.MessageList? ==>
              (|r| == |p.messages| + 1 <==>
                 HasSystemPrompt(systemPrompt) && (p.messages == [] || p.messages[0].role != "system"))
    ensures p.MessageList? && |r| == |p.messages| + 1 ==> r[0] == SystemMessage(systemPrompt)
    // a plain prompt always ends in the user message
    ensures p.PlainText? ==> |r| >= 1 && r[|r| - 1] == ChatMessage("user", p.text)
    ensures p.PlainText? ==> (|r| == 2 <==> HasSystemPrompt(systemPrompt)) && |r| <= 2
    ensures HasSystemPrompt(systemPrompt) ==> r[0].role == "system"
  {
    match p
    case MessageList(ms) =>
      if HasSystemPrompt(systemPrompt) && (ms == [] || ms[0].role != "system") then
        [SystemMessage(systemPrompt)] + ms
      else ms
    case PlainText(t) =>
      (if HasSystemPrompt(systemPrompt) then [SystemMessage(systemPrompt)] else [])
      + [ChatMessage("user", t)]
  }

  /** Building twice adds nothing more: a second pass finds the system message in front. */
  lemma BuildMessagesIdempotent(p: Prompt, systemPrompt: Option<string>)
    ensures var once := BuildMessages(p, systemPrompt);
            BuildMessages(MessageList(once), systemPrompt) == once
  {
  }

  /** With a prompt and a list free of system messages, the result has exactly
      one system message, and it is the first. */
  lemma {:induction false} SingleSystemMessage(ms: seq<ChatMessage>, systemPrompt: Option<string>)
    requires HasSystemPrompt(systemPrompt) && NoSystemMessage(ms)
    ensures var r := BuildMessages(MessageList(ms), systemPrompt);
            r[0].role == "system" && NoSystemMessage(r[1..])
  {
    var r := BuildMessages(MessageList(ms), systemPrompt);
    assert ms == [] || ms[0].role != "system";
    assert r[1..] == ms;
  }

  // ---------------------------------------------------------------------------
  // Completions

  /** How a request ends: normally, with `APIConnectionError`, or with any other exception. */
  datatype Failure = NoFailure | ConnectionFailure | OtherFailure(message: string)

  const StreamConnectionWarning := "\U{26A0}\U{FE0F} Connection Error: Is your local AI engine running?"
  const GenerateConnectionWarning := "\U{26A0}\U{FE0F} Connection Error: Is your local AI engine (Ollama/vLLM) running?"

  function ErrorWarning(message: string): string {
    "\U{26A0}\U{FE0F} Error: " + message
  }

  /** The text `stream` yields after the chunks when the request fails. */
  function StreamFailureText(f: Failure): (r: seq<string>)
    ensures f.NoFailure? <==> r == []
    ensures |r| <= 1
  {
    match f
    case NoFailure => []
    case ConnectionFailure => [StreamConnectionWarning]
    case OtherFailure(m) => [ErrorWarning(m)]
  }

  /** The deltas carrying content, in order; `None` is a delta whose content is None. */
  function Deltas(chunks: seq<Option<string>>): (r: seq<string>)
    ensures |r| <= |chunks|
  {
    if |chunks| == 0 then []
    else
      var last := chunks[|chunks| - 1];
      Deltas(chunks[..|chunks| - 1]) + (if last.Some? then [last.value] else [])
  }

  /** A stream of deltas all carrying content yields them all. */
  lemma {:induction false} DeltasAllPresent(texts: seq<string>)
    ensures Deltas(seq(|texts|, i requires 0 <= i < |texts| => Some(texts[i]))) == texts
  {
    if |texts| > 0 {
      var chunks := seq(|texts|, i requires 0 <= i < |texts| => Some(texts[i]));
      var init := texts[..|texts| - 1];
      DeltasAllPresent(init);
      assert chunks[..|chunks| - 1] == seq(|init|, i requires 0 <= i < |init| => Some(init[i]));
    }
  }

  /** The `for chunk in response` loop of `stream`: every delta with content is yielded. */
  method StreamDeltas(chunks: seq<Option<string>>) returns (yielded: seq<string>)
    ensures yielded == Deltas(chunks)
  {
    yielded := [];
    var i := 0;
    while i < |chunks|
      invariant 0 <= i <= |chunks|
      invariant yielded == Deltas(chunks[..i])
    {
      assert chunks[..i + 1][..i] == chunks[..i];
      if chunks[i].Some? {
        yielded := yielded + [chunks[i].value];
      }
      i := i + 1;
    }
    assert chunks[..i] == chunks;
  }

  /** `stream`: the chunks received before the request ended are given, and
      `failure` says how it ended (a failure of the request itself comes with
      no chunks). The result is what the generator yields, in order, and the
      messages sent. */
  method Stream(p: Prompt, systemPrompt: Option<string>, chunks: seq<Option<string>>, failure: Failure)
    returns (sent: seq<ChatMessage>, yielded: seq<string>)
    ensures sent == BuildMessages(p, systemPrompt)
    ensures yielded == Deltas(chunks) + StreamFailureText(failure)
    ensures |yielded| <= |chunks| + 1
  {
    sent := BuildMessages(p, systemPrompt);
    yielded := StreamDeltas(chunks);
    match failure {
      case NoFailure =>
      case ConnectionFailure =>
        yielded := yielded + [StreamConnectionWarning];
      case OtherFailure(m) =>
        yielded := yielded + [ErrorWarning(m)];
    }
  }

  /** `generate`: `reply` is the first choice's content when the request
      succeeds. The result is the messages sent and the text returned. */
  function Generate(p: Prompt, systemPrompt: Option<string>, reply: string, failure: Failure): (r: (seq<ChatMessage>, string))
    ensures r.0 == BuildMessages(p, systemPrompt)
    ensures failure.NoFailure? ==> r.1 == reply
    ensures failure.ConnectionFailure? ==> r.1 == GenerateConnectionWarning
    ensures failure.OtherFailure? ==> r.1 == ErrorWarning(failure.message)
  {
    var sent := BuildMessages(p, systemPrompt);
    match failure
    case NoFailure => (sent, reply)
    case ConnectionFailure => (sent, GenerateConnectionWarning)
    case OtherFailure(m) => (sent, ErrorWarning(m))
  }
}

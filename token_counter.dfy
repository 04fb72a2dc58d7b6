/** Token estimates of `engine/modules/token_counter.py`: a tokenizer when one
    could be loaded, a words-times-1.3 estimate otherwise, and the per-message
    framing overhead of a chat request. */
module TokenCounter {
  import opened Common

  /** The loaded encoding, if any. `encode` gives the token count of a text, or
      `None` when encoding raises. */
  datatype Encoder = NoEncoding | Encoding(encode: string -> Option<nat>)

  /** Framing tokens around every message, and the tokens priming the reply. */
  const TokensPerMessage := 3
  const ReplyPriming := 3

  /** `len(s.split())`: the number of maximal runs of non-whitespace characters. */
  function WordCount(s: string): (w: nat)
    ensures w == 0 <==> AllSpace(s)
    ensures w <= |s|
  {
    if |s| == 0 then 0
    else
      var init := s[..|s| - 1];
      var starts := !IsSpace(s[|s| - 1]) && (|s| == 1 || IsSpace(s[|s| - 2]));
      assert forall k :: 0 <= k < |init| ==> init[k] == s[k];
      assert |s| >= 2 ==> s[|s| - 2] == init[|init| - 1];
      WordCount(init) + (if starts then 1 else 0)
  }

  /** `TokenCounter.count`. Without an encoder the estimate is one more than
      the whole part of 1.3 tokens per word. */
  function Count(enc: Encoder, text: string): (n: nat)
    ensures text == "" ==> n == 0
    ensures text != "" && enc.NoEncoding? ==> 10 * (n - 1) <= 13 * WordCount(text) < 10 * n
    ensures text != "" && enc.NoEncoding? ==> WordCount(text) < n <= 2 * WordCount(text) + 1
    ensures text != "" && enc.Encoding? && enc.encode(text).Some? ==> n == enc.encode(text).value
    ensures text != "" && enc.Encoding? && enc.encode(text).None? ==> n == WordCount(text)
  {
    if text == "" then 0
    else match enc
      case NoEncoding => (13 * WordCount(text)) / 10 + 1
      case Encoding(encode) =>
        match encode(text)
        case Some(k) => k
        case None => WordCount(text)
  }

  /** Without an encoder the estimate grows with the number of words. */
  lemma EstimateMonotone(a: string, b: string)
    requires a != "" && b != "" && WordCount(a) <= WordCount(b)
    ensures Count(NoEncoding, a) <= Count(NoEncoding, b)
  {
  }

  /** A message dict, reduced to the two keys the counter looks at. */
  datatype MessageDict = MessageDict(role: Option<string>, content: Option<string>)

  function MessageCost(enc: Encoder, m: MessageDict): nat {
    TokensPerMessage
    + (if m.content.Some? then Count(enc, m.content.value) else 0)
    + (if m.role.Some? then 1 else 0)
  }

  /** The tokens `count_messages` adds for the messages, before the reply priming. */
  function MessagesCost(enc: Encoder, ms: seq<MessageDict>): nat {
    if |ms| == 0 then 0
    else MessagesCost(enc, ms[..|ms| - 1]) + MessageCost(enc, ms[|ms| - 1])
  }

  /** `TokenCounter.count_messages`. */
  method CountMessages(enc: Encoder, messages: seq<MessageDict>) returns (tokens: nat)
    ensures tokens == MessagesCost(enc, messages) + ReplyPriming
  {
    tokens := 0;
    var i := 0;
    while i < |messages|
      invariant 0 <= i <= |messages|
      invariant tokens == MessagesCost(enc, messages[..i])
    {
      assert messages[..i + 1][..i] == messages[..i];
      var msg := messages[i];
      tokens := tokens + TokensPerMessage;
      if msg.content.Some? {
        tokens := tokens + Count(enc, msg.content.value);
      }
      if msg.role.Some? {
        tokens := tokens + 1;
      }
      i := i + 1;
    }
    assert messages[..i] == messages;
    tokens := tokens + ReplyPriming;
  }

  function ContentTokens(enc: Encoder, ms: seq<MessageDict>): nat {
    if |ms| == 0 then 0
    else
      var m := ms[|ms| - 1];
      ContentTokens(enc, ms[..|ms| - 1]) + (if m.content.Some? then Count(enc, m.content.value) else 0)
  }

  function RoleCount(ms: seq<MessageDict>): nat {
    if |ms| == 0 then 0
    else RoleCount(ms[..|ms| - 1]) + (if ms[|ms| - 1].role.Some? then 1 else 0)
  }

  /** The total is three per message, one per role, the content tokens, and
      three for the reply; so it always exceeds the content tokens alone. */
  lemma {:induction false} MessagesCostDecomposes(enc: Encoder, ms: seq<MessageDict>)
    ensures MessagesCost(enc, ms) == TokensPerMessage * |ms| + RoleCount(ms) + ContentTokens(enc, ms)
    ensures MessagesCost(enc, ms) + ReplyPriming > ContentTokens(enc, ms)
  {
    if |ms| > 0 {
      MessagesCostDecomposes(enc, ms[..|ms| - 1]);
    }
  }

  /** Adding a message to a conversation adds at least the framing overhead. */
  lemma AppendAddsOverhead(enc: Encoder, ms: seq<MessageDict>, m: MessageDict)
    ensures MessagesCost(enc, ms + [m]) >= MessagesCost(enc, ms) + TokensPerMessage
  {
    assert (ms + [m])[..|ms|] == ms;
  }
}

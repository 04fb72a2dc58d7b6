/** The chat controller of `interface/manager.py`: the same turn pipeline as
    `interface/controller.py`, with the runtime state held in the
    controller's own fields and the placeholder addressed by its index. */
module Manager {
  import opened Common
  import opened Calendar
  import opened CoreMemory
  import opened TurnLogic

  class ChatController {
    const memory: MemoryManager
    var currentChatId: Option<string>
    var isGenerating: bool
    var stopFlag: bool
    /** The messages displayed in the UI. */
    var messages: seq<UiMessage>

    /** `__init__`; the brain, the settings and the UI callbacks are not part of this model. */
    constructor(memory: MemoryManager)
      ensures this.memory == memory
      ensures currentChatId == None && !isGenerating && !stopFlag && messages == []
    {
      this.memory := memory;
      currentChatId := None;
      isGenerating := false;
      stopFlag := false;
      messages := [];
    }

    /** The history `send_message` reads; `None` is the exception of a corrupt file. */
    function History(): (h: Option<seq<ChatMessage>>)
      reads this, memory
      ensures !HasChat(currentChatId) ==> h == Some([])
      ensures HasChat(currentChatId) ==> h == memory.GetMessages(currentChatId.value)
    {
      if HasChat(currentChatId) then memory.GetMessages(currentChatId.value) else Some([])
    }

    /** `get_history_sections`: the listing `list_chats` returns (`listed`),
        sorted again newest first and split by day; nothing is changed. */
    method GetHistorySections(today: Date) returns (sections: map<string, seq<ChatSummary>>, ghost listed: seq<ChatSummary>)
      requires Valid(today) && today != MinDate
      ensures IsListing(memory.files, listed)
      ensures sections == SectionMap(listed, today)
      ensures multiset(sections["Today"]) + multiset(sections["Yesterday"]) + multiset(sections["Older"])
              == multiset(listed)
      ensures forall sec :: SortedDesc(InSection(listed, sec, today), UpdatedKey)
    {
      var chats: seq<ChatSummary>;
      ghost var order: seq<string>;
      chats, order := memory.ListChats();
      ListedInOrder(memory.files, order, chats);
      sections := HistorySections(chats, today);
      listed := chats;
    }

    /** `load_chat`: the id is set first; a corrupt file raises before the
        messages are cleared, and a timestamp `fromisoformat` rejects raises
        after the messages before it were added. */
    method LoadChat(chatId: string) returns (raised: bool)
      modifies this
      ensures currentChatId == Some(chatId)
      ensures memory.LoadChat(chatId).Raised? ==> raised && messages == old(messages)
      ensures memory.LoadChat(chatId).Missing? ==> !raised && messages == []
      ensures memory.LoadChat(chatId).Found? ==>
                var loaded := LoadedBubbles(memory.LoadChat(chatId).record.messages);
                messages == loaded.0 && (raised <==> !loaded.1)
      ensures isGenerating == old(isGenerating) && stopFlag == old(stopFlag)
    {
      currentChatId := Some(chatId);
      var chatData := memory.LoadChat(chatId);
      if chatData.Raised? {
        return true;
      }
      messages := [];
      raised := false;
      if chatData.Found? {
        var bubbles, complete := LoadBubbles(chatData.record.messages);
        messages := bubbles;
        raised := !complete;
      }
    }

    /** `load_new_chat`. */
    method LoadNewChat()
      modifies this
      ensures currentChatId == None && messages == []
      ensures isGenerating == old(isGenerating) && stopFlag == old(stopFlag)
    {
      currentChatId := None;
      messages := [];
    }

    /** `stop_generation`: only the flag; the toast is UI code. */
    method StopGeneration()
      modifies this
      ensures stopFlag
      ensures currentChatId == old(currentChatId) && messages == old(messages) && isGenerating == old(isGenerating)
    {
      stopFlag := true;
    }

    /** `send_message`. `assistantMessageId` is the placeholder's index (-1 when rejected). */
    method SendMessage(userMsg: string, s: BrainStream, stop: StopRequest, env: TurnEnv)
      returns (outcome: SendOutcome, assistantMessageId: int)
      modifies this, memory
      ensures outcome.Rejected? <==> userMsg == "" || old(isGenerating)
      ensures outcome.Rejected? ==>
                assistantMessageId == -1
                && messages == old(messages) && currentChatId == old(currentChatId)
                && isGenerating == old(isGenerating) && stopFlag == old(stopFlag) && memory.files == old(memory.files)
      ensures !outcome.Rejected? ==> SendEffect(userMsg, s, stop, env, outcome, assistantMessageId)
    {
      if userMsg == "" || isGenerating {
        return Rejected, -1;
      }
      outcome, assistantMessageId := RunSend(userMsg, s, stop, env);
    }

    /** What an accepted `send_message` does, from the state before it to the state after it. */
    twostate predicate SendEffect(userMsg: string, s: BrainStream, stop: StopRequest, env: TurnEnv,
                                  outcome: SendOutcome, assistantMessageId: int)
      reads this, memory
    {
      // the user message and then the placeholder, which `assistantMessageId` indexes
      && !outcome.Rejected?
      && assistantMessageId == |old(messages)| + 1
      && |messages| == |old(messages)| + 2
      && messages[..|old(messages)|] == old(messages)
      && messages[|old(messages)|] == UserBubble(userMsg, env.userStamp)
      // the history read can raise before the `try`: the flag then stays set
      && (outcome.HistoryRaised? <==> old(History()).None?)
      && (outcome.HistoryRaised? ==>
            isGenerating && !stopFlag
            && messages[assistantMessageId] == PlaceholderBubble(env.replyStamp)
            && currentChatId == old(currentChatId) && memory.files == old(memory.files))
      && (outcome.Streamed? ==>
            outcome.context == TurnContext(old(History()).value, userMsg)
            && !isGenerating && !stopFlag
            && messages[assistantMessageId] == PlaceholderBubble(env.replyStamp).(content := FinalContent(s, stop))
            && var r := SaveInFinally(old(memory.files), old(currentChatId), userMsg, Accumulated(s, stop), env);
               currentChatId == r.chatId && memory.files == r.files && outcome.saved == r.saved)
    }

    /** `send_message` past its guard. */
    method RunSend(userMsg: string, s: BrainStream, stop: StopRequest, env: TurnEnv)
      returns (outcome: SendOutcome, assistantMessageId: int)
      modifies this, memory
      ensures SendEffect(userMsg, s, stop, env, outcome, assistantMessageId)
    {
      ghost var history0 := History();
      assistantMessageId := BeginSend(userMsg, env);
      ghost var shown := messages;
      assert History() == history0;

      var history: seq<ChatMessage> := [];
      if HasChat(currentChatId) {
        var got := memory.GetMessages(currentChatId.value);
        if got.None? {
          return HistoryRaised, assistantMessageId;
        }
        history := got.value;
      }
      assert history0 == Some(history);
      outcome := StreamAndSave(userMsg, history, assistantMessageId, s, stop, env);
      assert messages[..|old(messages)|] == shown[..|old(messages)|];
    }

    /** `send_message` once the history is read: the `try` block streams into
        the placeholder at `idx`, then the `finally` block saves the turn. */
    method StreamAndSave(userMsg: string, history: seq<ChatMessage>, idx: int, s: BrainStream, stop: StopRequest, env: TurnEnv)
      returns (outcome: SendOutcome)
      requires 0 <= idx < |messages| && messages[idx] == PlaceholderBubble(env.replyStamp)
      requires !stopFlag
      modifies this, memory
      ensures outcome.Streamed? && outcome.context == TurnContext(history, userMsg)
      ensures messages == old(messages)[idx := PlaceholderBubble(env.replyStamp).(content := FinalContent(s, stop))]
      ensures !isGenerating && !stopFlag
      ensures var r := SaveInFinally(old(memory.files), old(currentChatId), userMsg, Accumulated(s, stop), env);
              currentChatId == r.chatId && memory.files == r.files && outcome.saved == r.saved
    {
      var context := TurnContext(history, userMsg);
      var fullResponse := StreamInto(idx, s, stop, env.replyStamp);
      var saved := FinishSend(userMsg, fullResponse, env);
      outcome := Streamed(context, saved);
    }

    /** The start of `send_message` past its guard: the flags are set, and the
        user message and the placeholder are shown; the placeholder's index is returned. */
    method BeginSend(userMsg: string, env: TurnEnv) returns (assistantMessageId: int)
      modifies this
      ensures isGenerating && !stopFlag && currentChatId == old(currentChatId)
      ensures messages == old(messages) + [UserBubble(userMsg, env.userStamp), PlaceholderBubble(env.replyStamp)]
      ensures assistantMessageId == |old(messages)| + 1
    {
      isGenerating := true;
      stopFlag := false;
      messages := messages + [UserBubble(userMsg, env.userStamp)];
      assistantMessageId := |messages|;
      messages := messages + [PlaceholderBubble(env.replyStamp)];
    }

    /** The `finally` block of `send_message`: the flags are reset, a chat is
        created when none is open, and the turn is saved; `saved` is false when
        `create_chat` or `save_turn` raised. */
    method FinishSend(userMsg: string, fullResponse: string, env: TurnEnv) returns (saved: bool)
      modifies this, memory
      ensures !isGenerating && !stopFlag && messages == old(messages)
      ensures var r := SaveInFinally(old(memory.files), old(currentChatId), userMsg, fullResponse, env);
              currentChatId == r.chatId && memory.files == r.files && saved == r.saved
    {
      isGenerating := false;
      stopFlag := false;
      if currentChatId.None? {
        var id, createRaised := memory.CreateChat(env.freshId, env.now, env.createFails);
        if createRaised {
          return false;
        }
        currentChatId := Some(id);
      }
      var raised := memory.SaveTurn(currentChatId.value, userMsg, fullResponse, env.now, env.saveFails);
      saved := !raised;
    }

    /** The `try` block of `send_message` and its `except`: the chunks are
        accumulated into the message at `idx` until the stop flag is seen. */
    method StreamInto(idx: int, s: BrainStream, stop: StopRequest, replyStamp: string) returns (fullResponse: string)
      requires 0 <= idx < |messages| && messages[idx] == PlaceholderBubble(replyStamp)
      requires !stopFlag
      modifies this
      ensures fullResponse == Accumulated(s, stop)
      ensures messages == old(messages)[idx := PlaceholderBubble(replyStamp).(content := FinalContent(s, stop))]
      ensures stopFlag <==> StopPressed(s, stop)
      ensures currentChatId == old(currentChatId) && isGenerating == old(isGenerating)
    {
      var i;
      fullResponse, i := ReadChunks(idx, s, stop, replyStamp);
      if i == |s.chunks| && stop == StopAfter(i) {
        // the click lands after the last chunk, while the stream is finishing
        StopGeneration();
      }
      if Raises(s, stop) {
        messages := messages[idx := messages[idx].(content := ErrorPrefix + s.failure.value)];
      }
    }

    /** The `async for` loop of `send_message`: each chunk is written into the
        message at `idx`; a stop request is seen when the next chunk arrives
        and ends the loop. */
    method ReadChunks(idx: int, s: BrainStream, stop: StopRequest, replyStamp: string)
      returns (fullResponse: string, consumed: nat)
      requires 0 <= idx < |messages| && messages[idx] == PlaceholderBubble(replyStamp)
      requires !stopFlag
      modifies this
      ensures consumed == Consumed(s, stop) && fullResponse == Accumulated(s, stop)
      ensures messages == old(messages)[idx := PlaceholderBubble(replyStamp).(content := if consumed == 0 then Placeholder else fullResponse)]
      ensures stopFlag <==> BrokeOut(s, stop)
      ensures currentChatId == old(currentChatId) && isGenerating == old(isGenerating)
    {
      fullResponse := "";
      consumed := 0;
      while consumed < |s.chunks|
        invariant 0 <= consumed <= |s.chunks|
        invariant stop.StopAfter? ==> consumed <= stop.k
        invariant fullResponse == Concat(s.chunks[..consumed])
        invariant !stopFlag
        invariant messages == old(messages)[idx := PlaceholderBubble(replyStamp).(content := if consumed == 0 then Placeholder else fullResponse)]
        invariant currentChatId == old(currentChatId) && isGenerating == old(isGenerating)
      {
        if stop == StopAfter(consumed) {
          StopGeneration();
          return;
        }
        ConcatStep(s.chunks, consumed);
        fullResponse := fullResponse + s.chunks[consumed];
        messages := messages[idx := messages[idx].(content := fullResponse)];
        consumed := consumed + 1;
      }
    }
  }
}

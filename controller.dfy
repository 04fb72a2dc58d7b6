/** The MVC controller of `interface/controller.py`: it groups the stored
    chats into sidebar sections, loads a chat into the displayed messages,
    and runs one turn (optimistic bubbles, the 20-message context, streaming
    under a stop flag, error text, the save in the `finally` block). */
module Controller {
  import opened Common
  import opened Calendar
  import opened CoreMemory
  import opened TurnLogic
  import opened AppStateModel

  const WarningKind := "warning"

  /** The index of the last user message, or -1 when there is none. */
  function LastUserIndex(ms: seq<UiMessage>): (r: int)
    ensures -1 <= r < |ms|
    ensures r >= 0 ==> ms[r].role == "user"
    ensures forall j :: r < j < |ms| ==> ms[j].role != "user"
  {
    if |ms| == 0 then -1
    else if ms[|ms| - 1].role == "user" then |ms| - 1
    else LastUserIndex(ms[..|ms| - 1])
  }

  class ErikaController {
    const state: AppState
    const memory: MemoryManager
    var stopFlag: bool

    /** `__init__`; the brain and the settings are not part of this model. */
    constructor(state: AppState, memory: MemoryManager)
      ensures this.state == state && this.memory == memory && !stopFlag
    {
      this.state := state;
      this.memory := memory;
      stopFlag := false;
    }

    /** The history `handle_send` reads: `get_messages` of the open chat, or
        `[]` when no chat is open. `None` is the exception of a corrupt file. */
    function History(): (h: Option<seq<ChatMessage>>)
      reads state, memory
      ensures !HasChat(state.currentChatId) ==> h == Some([])
      ensures HasChat(state.currentChatId) ==> h == memory.GetMessages(state.currentChatId.value)
    {
      if HasChat(state.currentChatId) then memory.GetMessages(state.currentChatId.value) else Some([])
    }

    /** `get_history_sections`: the listing `list_chats` returns (`listed`),
        sorted again newest first, split by day into the sidebar. */
    method GetHistorySections(today: Date) returns (ghost listed: seq<ChatSummary>)
      requires Valid(today) && today != MinDate
      modifies state
      ensures IsListing(memory.files, listed)
      ensures state.sidebarHistory == SectionMap(listed, today)
      ensures multiset(state.sidebarHistory["Today"]) + multiset(state.sidebarHistory["Yesterday"])
              + multiset(state.sidebarHistory["Older"]) == multiset(listed)
      ensures forall sec :: SortedDesc(InSection(listed, sec, today), UpdatedKey)
      ensures state.currentChatId == old(state.currentChatId) && state.messages == old(state.messages)
      ensures state.isGenerating == old(state.isGenerating) && state.notifications == old(state.notifications)
    {
      var chats: seq<ChatSummary>;
      ghost var order: seq<string>;
      chats, order := memory.ListChats();
      ListedInOrder(memory.files, order, chats);
      var sections := HistorySections(chats, today);
      state.sidebarHistory := sections;
      listed := chats;
    }

    /** `load_chat`: the id is set first; a corrupt file raises before the
        messages are cleared, and a timestamp `fromisoformat` rejects raises
        after the bubbles before it were added. */
    method LoadChat(chatId: string) returns (raised: bool)
      modifies state
      ensures state.currentChatId == Some(chatId)
      ensures memory.LoadChat(chatId).Raised? ==> raised && state.messages == old(state.messages)
      ensures memory.LoadChat(chatId).Missing? ==> !raised && state.messages == []
      ensures memory.LoadChat(chatId).Found? ==>
                var loaded := LoadedBubbles(memory.LoadChat(chatId).record.messages);
                state.messages == loaded.0 && (raised <==> !loaded.1)
      ensures state.isGenerating == old(state.isGenerating) && state.notifications == old(state.notifications)
      ensures state.sidebarHistory == old(state.sidebarHistory)
    {
      state.currentChatId := Some(chatId);
      var chatData := memory.LoadChat(chatId);
      if chatData.Raised? {
        return true;
      }
      state.ClearMessages();
      raised := false;
      if chatData.Found? {
        raised := AddLoadedBubbles(chatData.record.messages);
      }
    }

    /** One turn of the `load_chat` loop: the bubble of message `i` is added. */
    method AddBubble(ghost before: seq<UiMessage>, msgs: seq<StoredMessage>, i: nat)
      requires i < |msgs| && forall j :: 0 <= j <= i ==> ParseIso(msgs[j].timestamp).Some?
      requires state.messages == before + BubblesOf(msgs, i)
      modifies state
      ensures state.messages == before + BubblesOf(msgs, i + 1)
      ensures state.currentChatId == old(state.currentChatId) && state.isGenerating == old(state.isGenerating)
      ensures state.notifications == old(state.notifications) && state.sidebarHistory == old(state.sidebarHistory)
    {
      BubblesOfSnoc(msgs, i);
      state.AddMessage(Bubble(msgs[i], ParseIso(msgs[i].timestamp).value));
    }

    /** The loop of `load_chat`: one bubble per stored message, added in
        order, until a timestamp does not parse. */
    method AddLoadedBubbles(msgs: seq<StoredMessage>) returns (raised: bool)
      modifies state
      ensures state.messages == old(state.messages) + LoadedBubbles(msgs).0 && (raised <==> !LoadedBubbles(msgs).1)
      ensures state.currentChatId == old(state.currentChatId) && state.isGenerating == old(state.isGenerating)
      ensures state.notifications == old(state.notifications) && state.sidebarHistory == old(state.sidebarHistory)
    {
      var i := 0;
      while i < |msgs| && ParseIso(msgs[i].timestamp).Some?
        invariant 0 <= i <= |msgs| && forall j :: 0 <= j < i ==> ParseIso(msgs[j].timestamp).Some?
        invariant state.messages == old(state.messages) + BubblesOf(msgs, i)
        invariant state.currentChatId == old(state.currentChatId) && state.isGenerating == old(state.isGenerating)
        invariant state.notifications == old(state.notifications) && state.sidebarHistory == old(state.sidebarHistory)
      {
        AddBubble(old(state.messages), msgs, i);
        i := i + 1;
      }
      // `fromisoformat` raised on message `i`, or every message was added
      LoadedBubblesEnd(msgs, i);
      raised := i < |msgs|;
    }

    /** `load_new_chat`. */
    method LoadNewChat()
      modifies state
      ensures state.currentChatId == None && state.messages == []
      ensures state.isGenerating == old(state.isGenerating) && state.notifications == old(state.notifications)
      ensures state.sidebarHistory == old(state.sidebarHistory)
    {
      state.currentChatId := None;
      state.ClearMessages();
    }

    /** `notify`: the toast is queued; the immediate callback does nothing. */
    method Notify(msg: string, kind: string)
      modifies state
      ensures state.notifications == old(state.notifications) + [Notification(msg, kind)]
      ensures state.currentChatId == old(state.currentChatId) && state.messages == old(state.messages)
      ensures state.isGenerating == old(state.isGenerating) && state.sidebarHistory == old(state.sidebarHistory)
    {
      state.PushNotification(msg, kind);
    }

    /** `handle_stop`: the flag is set and a warning is queued. */
    method HandleStop()
      modifies this, state
      ensures stopFlag
      ensures state.notifications == old(state.notifications) + [Notification(StoppingNotice, WarningKind)]
      ensures state.currentChatId == old(state.currentChatId) && state.messages == old(state.messages)
      ensures state.isGenerating == old(state.isGenerating) && state.sidebarHistory == old(state.sidebarHistory)
    {
      stopFlag := true;
      Notify(StoppingNotice, WarningKind);
    }

    /** `handle_send`. The brain's stream is `s`; `stop` says when the stop
        button is clicked (which runs `handle_stop`). */
    method HandleSend(userMsg: string, s: BrainStream, stop: StopRequest, env: TurnEnv)
      returns (outcome: SendOutcome, ghost listed: seq<ChatSummary>)
      requires Valid(env.today) && env.today != MinDate
      modifies this, state, memory
      // an empty message, or one sent during a generation, changes nothing
      ensures outcome.Rejected? <==> userMsg == "" || old(state.isGenerating)
      ensures outcome.Rejected? ==>
                state.messages == old(state.messages) && state.currentChatId == old(state.currentChatId)
                && state.isGenerating == old(state.isGenerating) && state.notifications == old(state.notifications)
                && state.sidebarHistory == old(state.sidebarHistory)
                && memory.files == old(memory.files) && stopFlag == old(stopFlag)
      ensures !outcome.Rejected? ==> TurnEffect(old(state.messages), userMsg, s, stop, env, outcome, listed)
    {
      if userMsg == "" || state.isGenerating {
        return Rejected, [];
      }
      outcome, listed := RunTurn(userMsg, s, stop, env);
    }

    /** What an accepted `handle_send` does, from the state before it to the
        state after it; `start` is the message list the turn begins with. */
    twostate predicate TurnEffect(start: seq<UiMessage>, userMsg: string, s: BrainStream, stop: StopRequest, env: TurnEnv,
                                  outcome: SendOutcome, listed: seq<ChatSummary>)
      reads this, state, memory
    {
      // exactly two bubbles are added: the user's, then the reply
      && !outcome.Rejected?
      && |state.messages| == |start| + 2
      && state.messages[..|start|] == start
      && state.messages[|start|] == UserBubble(userMsg, env.userStamp)
      // reading the history outside the `try` can raise: the flag then stays set
      && (outcome.HistoryRaised? <==> old(History()).None?)
      && (outcome.HistoryRaised? ==>
            state.isGenerating && !stopFlag
            && state.messages[|state.messages| - 1] == PlaceholderBubble(env.replyStamp)
            && state.currentChatId == old(state.currentChatId) && state.notifications == old(state.notifications)
            && state.sidebarHistory == old(state.sidebarHistory) && memory.files == old(memory.files))
      // a turn that streamed
      && (outcome.Streamed? ==>
            outcome.context == TurnContext(old(History()).value, userMsg)
            && !state.isGenerating && !stopFlag
            && state.messages[|state.messages| - 1]
               == PlaceholderBubble(env.replyStamp).(content := FinalContent(s, stop))
            && state.notifications == old(state.notifications)
               + (if StopPressed(s, stop) then [Notification(StoppingNotice, WarningKind)] else [])
            && var r := SaveInFinally(old(memory.files), old(state.currentChatId), userMsg, Accumulated(s, stop), env);
               state.currentChatId == r.chatId && memory.files == r.files && outcome.saved == r.saved)
      && (outcome.Streamed? && outcome.saved ==>
            IsListing(memory.files, listed) && state.sidebarHistory == SectionMap(listed, env.today))
      && (outcome.Streamed? && !outcome.saved ==> state.sidebarHistory == old(state.sidebarHistory))
    }

    /** `handle_send` past its guard. */
    method RunTurn(userMsg: string, s: BrainStream, stop: StopRequest, env: TurnEnv)
      returns (outcome: SendOutcome, ghost listed: seq<ChatSummary>)
      requires Valid(env.today) && env.today != MinDate
      modifies this, state, memory
      ensures TurnEffect(old(state.messages), userMsg, s, stop, env, outcome, listed)
    {
      listed := [];
      ghost var history0 := History();
      BeginTurn(userMsg, env);
      ghost var shown := state.messages;
      assert History() == history0;

      var history: seq<ChatMessage> := [];
      if HasChat(state.currentChatId) {
        var got := memory.GetMessages(state.currentChatId.value);
        if got.None? {
          return HistoryRaised, [];
        }
        history := got.value;
      }
      assert history0 == Some(history);
      outcome, listed := StreamAndSave(userMsg, history, s, stop, env);
      ReplyReplacesPlaceholder(old(state.messages), shown, UserBubble(userMsg, env.userStamp), PlaceholderBubble(env.replyStamp),
                               PlaceholderBubble(env.replyStamp).(content := FinalContent(s, stop)));
    }

    /** The start of a turn: the generating flag is set, the stop flag cleared,
        and the user message and the placeholder are shown. */
    method BeginTurn(userMsg: string, env: TurnEnv)
      modifies this, state
      ensures state.isGenerating && !stopFlag
      ensures state.messages == old(state.messages) + [UserBubble(userMsg, env.userStamp), PlaceholderBubble(env.replyStamp)]
      ensures state.currentChatId == old(state.currentChatId) && state.notifications == old(state.notifications)
      ensures state.sidebarHistory == old(state.sidebarHistory)
    {
      state.SetGenerating(true);
      stopFlag := false;
      state.AddMessage(UserBubble(userMsg, env.userStamp));
      state.AddMessage(PlaceholderBubble(env.replyStamp));
    }

    /** A turn once the history is read: the `try` block streams into the
        placeholder, then the `finally` block saves the turn and refreshes the sidebar. */
    method StreamAndSave(userMsg: string, history: seq<ChatMessage>, s: BrainStream, stop: StopRequest, env: TurnEnv)
      returns (outcome: SendOutcome, ghost listed: seq<ChatSummary>)
      requires Valid(env.today) && env.today != MinDate
      requires state.messages != [] && state.messages[|state.messages| - 1] == PlaceholderBubble(env.replyStamp)
      requires !stopFlag
      modifies this, state, memory
      ensures outcome.Streamed? && outcome.context == TurnContext(history, userMsg)
      ensures state.messages == old(state.messages)[..|old(state.messages)| - 1]
                                + [PlaceholderBubble(env.replyStamp).(content := FinalContent(s, stop))]
      ensures !state.isGenerating && !stopFlag
      ensures state.notifications == old(state.notifications)
                                     + (if StopPressed(s, stop) then [Notification(StoppingNotice, WarningKind)] else [])
      ensures var r := SaveInFinally(old(memory.files), old(state.currentChatId), userMsg, Accumulated(s, stop), env);
              state.currentChatId == r.chatId && memory.files == r.files && outcome.saved == r.saved
      ensures outcome.saved ==> IsListing(memory.files, listed) && state.sidebarHistory == SectionMap(listed, env.today)
      ensures !outcome.saved ==> state.sidebarHistory == old(state.sidebarHistory)
    {
      var context := TurnContext(history, userMsg);
      var fullResponse := StreamReply(s, stop, env.replyStamp);
      var saved;
      saved, listed := FinishTurn(userMsg, fullResponse, env);
      outcome := Streamed(context, saved);
    }

    /** The `try` block of `handle_send` and its `except`: the chunks are
        accumulated into the reply bubble until the stop flag is seen. */
    method StreamReply(s: BrainStream, stop: StopRequest, replyStamp: string) returns (fullResponse: string)
      requires state.messages != [] && state.messages[|state.messages| - 1] == PlaceholderBubble(replyStamp)
      requires !stopFlag
      modifies this, state
      ensures fullResponse == Accumulated(s, stop)
      ensures state.messages == old(state.messages)[..|old(state.messages)| - 1]
                                + [PlaceholderBubble(replyStamp).(content := FinalContent(s, stop))]
      ensures stopFlag <==> StopPressed(s, stop)
      ensures state.notifications == old(state.notifications)
                                     + (if StopPressed(s, stop) then [Notification(StoppingNotice, WarningKind)] else [])
      ensures state.currentChatId == old(state.currentChatId) && state.isGenerating == old(state.isGenerating)
      ensures state.sidebarHistory == old(state.sidebarHistory)
    {
      ghost var shown := state.messages[..|state.messages| - 1];
      assert state.messages == shown + [PlaceholderBubble(replyStamp)];
      var i;
      fullResponse, i := ReadChunks(s, stop, replyStamp, shown);
      if i == |s.chunks| && stop == StopAfter(i) {
        // the click lands after the last chunk, while the stream is finishing
        HandleStop();
      }
      if Raises(s, stop) {
        state.UpdateLastMessage(ErrorPrefix + s.failure.value);
      }
    }

    /** `update_last_message(full_response)` while the placeholder is the last bubble. */
    method ShowPartial(ghost shown: seq<UiMessage>, replyStamp: string, text: string)
      requires exists c :: state.messages == shown + [PlaceholderBubble(replyStamp).(content := c)]
      modifies state
      ensures state.messages == shown + [PlaceholderBubble(replyStamp).(content := text)]
      ensures state.notifications == old(state.notifications)
      ensures state.currentChatId == old(state.currentChatId) && state.isGenerating == old(state.isGenerating)
      ensures state.sidebarHistory == old(state.sidebarHistory)
    {
      ghost var c :| state.messages == shown + [PlaceholderBubble(replyStamp).(content := c)];
      WithLastContentSnoc(shown, PlaceholderBubble(replyStamp).(content := c), text);
      state.UpdateLastMessage(text);
    }

    /** The `async for` loop of `handle_send`: each chunk is appended to the
        reply bubble; a stop request is seen when the next chunk arrives and
        ends the loop. */
    method ReadChunks(s: BrainStream, stop: StopRequest, replyStamp: string, ghost shown: seq<UiMessage>)
      returns (fullResponse: string, consumed: nat)
      requires state.messages == shown + [PlaceholderBubble(replyStamp)]
      requires !stopFlag
      modifies this, state
      ensures consumed == Consumed(s, stop) && fullResponse == Accumulated(s, stop)
      ensures state.messages
              == shown + [PlaceholderBubble(replyStamp).(content := if consumed == 0 then Placeholder else fullResponse)]
      ensures stopFlag <==> BrokeOut(s, stop)
      ensures state.notifications == old(state.notifications)
                                     + (if BrokeOut(s, stop) then [Notification(StoppingNotice, WarningKind)] else [])
      ensures state.currentChatId == old(state.currentChatId) && state.isGenerating == old(state.isGenerating)
      ensures state.sidebarHistory == old(state.sidebarHistory)
    {
      fullResponse := "";
      consumed := 0;
      while consumed < |s.chunks|
        invariant 0 <= consumed <= |s.chunks|
        invariant stop.StopAfter? ==> consumed <= stop.k
        invariant fullResponse == Concat(s.chunks[..consumed])
        invariant !stopFlag
        invariant state.messages
                  == shown + [PlaceholderBubble(replyStamp).(content := if consumed == 0 then Placeholder else fullResponse)]
        invariant state.notifications == old(state.notifications)
        invariant state.currentChatId == old(state.currentChatId) && state.isGenerating == old(state.isGenerating)
        invariant state.sidebarHistory == old(state.sidebarHistory)
      {
        if stop == StopAfter(consumed) {
          HandleStop();
          return;
        }
        ConcatStep(s.chunks, consumed);
        fullResponse := fullResponse + s.chunks[consumed];
        ShowPartial(shown, replyStamp, fullResponse);
        consumed := consumed + 1;
      }
    }

    /** The `finally` block of `handle_send`: the flags are reset, a chat is
        created when none is open, the turn is saved and the sidebar is
        refreshed (unless `create_chat` or `save_turn` raised). */
    method FinishTurn(userMsg: string, fullResponse: string, env: TurnEnv) returns (saved: bool, ghost listed: seq<ChatSummary>)
      requires Valid(env.today) && env.today != MinDate
      modifies this, state, memory
      ensures !state.isGenerating && !stopFlag
      ensures var r := SaveInFinally(old(memory.files), old(state.currentChatId), userMsg, fullResponse, env);
              state.currentChatId == r.chatId && memory.files == r.files && saved == r.saved
      ensures saved ==> IsListing(memory.files, listed) && state.sidebarHistory == SectionMap(listed, env.today)
      ensures !saved ==> state.sidebarHistory == old(state.sidebarHistory)
      ensures state.messages == old(state.messages) && state.notifications == old(state.notifications)
    {
      state.SetGenerating(false);
      stopFlag := false;
      if state.currentChatId.None? {
        var id, createRaised := memory.CreateChat(env.freshId, env.now, env.createFails);
        if createRaised {
          return false, [];
        }
        state.currentChatId := Some(id);
      }
      var raised := memory.SaveTurn(state.currentChatId.value, userMsg, fullResponse, env.now, env.saveFails);
      if raised {
        return false, [];
      }
      listed := GetHistorySections(env.today);
      saved := true;
    }

    /** `regenerate_last`: only when the last bubble is the assistant's, it is
        removed and the last user message is sent again. `sent` is what that
        `handle_send` did, or `None` when it was not called. */
    method RegenerateLast(s: BrainStream, stop: StopRequest, env: TurnEnv)
      returns (sent: Option<SendOutcome>, ghost listed: seq<ChatSummary>)
      requires Valid(env.today) && env.today != MinDate
      modifies this, state, memory
      ensures old(state.messages) == [] || old(state.messages)[|old(state.messages)| - 1].role != "assistant" ==>
                sent.None? && state.messages == old(state.messages)
      ensures old(state.messages) != [] && old(state.messages)[|old(state.messages)| - 1].role == "assistant" ==>
                var popped := old(state.messages)[..|old(state.messages)| - 1];
                var u := LastUserIndex(popped);
                (sent.Some? <==> u >= 0 && popped[u].content != "")
                && (sent.None? ==> state.messages == popped)
                && (sent.Some? ==> (sent.value.Rejected? <==> old(state.isGenerating)))
                // a rejected re-send still leaves the assistant message removed
                && (sent.Some? && sent.value.Rejected? ==> state.messages == popped)
                && (sent.Some? && !sent.value.Rejected? ==>
                      TurnEffect(popped, popped[u].content, s, stop, env, sent.value, listed))
      // without an accepted re-send only the message list may change
      ensures sent.None? || sent.value.Rejected? ==>
                memory.files == old(memory.files) && stopFlag == old(stopFlag)
                && state.isGenerating == old(state.isGenerating) && state.currentChatId == old(state.currentChatId)
                && state.notifications == old(state.notifications) && state.sidebarHistory == old(state.sidebarHistory)
    {
      listed := [];
      sent := None;
      if state.messages == [] || state.messages[|state.messages| - 1].role != "assistant" {
        return;
      }
      state.messages := state.messages[..|state.messages| - 1];

      var lastUserMsg: Option<string> := None;
      var j := |state.messages|;
      while j > 0
        invariant 0 <= j <= |state.messages|
        invariant forall q :: j <= q < |state.messages| ==> state.messages[q].role != "user"
        invariant lastUserMsg == None
      {
        if state.messages[j - 1].role == "user" {
          lastUserMsg := Some(state.messages[j - 1].content);
          break;
        }
        j := j - 1;
      }
      assert lastUserMsg.Some? ==> j - 1 == LastUserIndex(state.messages);
      assert lastUserMsg.None? ==> LastUserIndex(state.messages) == -1;

      if lastUserMsg.Some? && lastUserMsg.value != "" {
        var outcome;
        outcome, listed := HandleSend(lastUserMsg.value, s, stop, env);
        sent := Some(outcome);
      }
    }
  }
}

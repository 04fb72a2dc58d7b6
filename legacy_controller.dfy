/** The earlier controller of `legacy_src/legacy/interface/controller.py`.
    Its chat store and settings classes are not part of this model: the
    store is a log of the calls the controller makes on it, and the
    settings lookup and the store's answers are inputs. */
module LegacyController {
  import opened Common
  import opened TurnLogic

  const DefaultModel := "llama3"
  const LegacyErrorPrefix := "Error: "

  /** A call on the chat store: `create_chat()` or `save_message(chat_id, role, content)`. */
  datatype StoreCall = CreateChatCall(id: string) | SaveMessageCall(chatId: string, role: string, content: string)

  /** What `get_chat` gives `load_chat`: nothing, a chat's messages, or an exception. */
  datatype ChatLookup = NotFound | FoundChat(messages: seq<ChatMessage>) | LookupRaised

  /** The chat store, seen through the calls it receives. */
  class ChatStore {
    var log: seq<StoreCall>

    constructor()
      ensures log == []
    {
      log := [];
    }

    /** `create_chat`; the new id is an input. */
    method CreateChat(freshId: string) returns (id: string)
      modifies this
      ensures id == freshId && log == old(log) + [CreateChatCall(id)]
    {
      id := freshId;
      log := log + [CreateChatCall(id)];
    }

    method SaveMessage(chatId: string, role: string, content: string)
      modifies this
      ensures log == old(log) + [SaveMessageCall(chatId, role, content)]
    {
      log := log + [SaveMessageCall(chatId, role, content)];
    }
  }

  /** The fields of the legacy `AppState` the controller uses; `current_chat_id`
      is attached to it with `setattr`. */
  class LegacyState {
    var messages: seq<ChatMessage>
    var isLoading: bool
    var selectedModel: string
    var currentChatId: Option<string>

    constructor()
      ensures messages == [] && !isLoading && selectedModel == DefaultModel && currentChatId == None
    {
      messages := [];
      isLoading := false;
      selectedModel := DefaultModel;
      currentChatId := None;
    }
  }

  /** The messages after a turn: the user's, the assistant's accumulated
      reply, and a system error message when the stream raised. */
  function AfterSend(before: seq<ChatMessage>, content: string, s: BrainStream): (r: seq<ChatMessage>)
    ensures |r| == |before| + 2 + (if s.failure.Some? then 1 else 0)
    ensures r[..|before|] == before
    ensures r[|before|] == ChatMessage("user", content)
    ensures r[|before| + 1] == ChatMessage("assistant", Concat(s.chunks))
    ensures s.failure.Some? ==> r[|r| - 1] == ChatMessage("system", LegacyErrorPrefix + s.failure.value)
  {
    before + [ChatMessage("user", content), ChatMessage("assistant", Concat(s.chunks))]
    + (if s.failure.Some? then [ChatMessage("system", LegacyErrorPrefix + s.failure.value)] else [])
  }

  /** The store calls of a turn: a chat is created when none is open, the
      user message is saved, and the reply is saved only when the stream
      did not raise. */
  function SendCalls(created: bool, id: string, content: string, s: BrainStream): (r: seq<StoreCall>)
    ensures SaveMessageCall(id, "user", content) in r
    ensures CreateChatCall(id) in r <==> created
    ensures SaveMessageCall(id, "assistant", Concat(s.chunks)) in r <==> s.failure.None?
    ensures |r| == (if created then 1 else 0) + 1 + (if s.failure.None? then 1 else 0)
  {
    (if created then [CreateChatCall(id)] else [])
    + [SaveMessageCall(id, "user", content)]
    + (if s.failure.None? then [SaveMessageCall(id, "assistant", Concat(s.chunks))] else [])
  }

  class ErikaController {
    const state: LegacyState
    const store: ChatStore

    /** `__init__` followed by `_load_initial_data`: the model comes from the
        user settings, `llama3` when none is set. */
    constructor(state: LegacyState, store: ChatStore, userModel: Option<string>)
      modifies state
      ensures this.state == state && this.store == store
      ensures state.selectedModel == userModel.GetOr(DefaultModel)
      ensures state.messages == old(state.messages) && state.isLoading == old(state.isLoading)
      ensures state.currentChatId == old(state.currentChatId)
    {
      this.state := state;
      this.store := store;
      new;
      LoadInitialData(userModel);
    }

    /** `_load_initial_data`. */
    method LoadInitialData(userModel: Option<string>)
      modifies state
      ensures state.selectedModel == userModel.GetOr(DefaultModel)
      ensures state.messages == old(state.messages) && state.isLoading == old(state.isLoading)
      ensures state.currentChatId == old(state.currentChatId)
    {
      state.selectedModel := userModel.GetOr(DefaultModel);
    }

    /** `handle_send`. `context` is the message list the brain receives. */
    method HandleSend(content: string, s: BrainStream, freshId: string) returns (context: Option<seq<ChatMessage>>)
      modifies state, store
      ensures IsBlank(content) ==>
                context.None? && state.messages == old(state.messages) && state.isLoading == old(state.isLoading)
                && state.currentChatId == old(state.currentChatId) && store.log == old(store.log)
      ensures !IsBlank(content) ==>
                var created := !HasChat(old(state.currentChatId));
                var id := if created then freshId else old(state.currentChatId).value;
                context == Some(old(state.messages) + [ChatMessage("user", content)])
                && state.currentChatId == Some(id)
                && state.messages == AfterSend(old(state.messages), content, s)
                && store.log == old(store.log) + SendCalls(created, id, content, s)
                && !state.isLoading
      ensures state.selectedModel == old(state.selectedModel)
    {
      if IsBlank(content) {
        return None;
      }
      var id := EnsureChat(freshId);
      context := RunSend(id, content, s);
    }

    /** The start of `handle_send`'s non-blank path: a chat is created when none is open. */
    method EnsureChat(freshId: string) returns (id: string)
      modifies state, store
      ensures id == if HasChat(old(state.currentChatId)) then old(state.currentChatId).value else freshId
      ensures state.currentChatId == Some(id)
      ensures store.log == old(store.log) + (if HasChat(old(state.currentChatId)) then [] else [CreateChatCall(id)])
      ensures state.messages == old(state.messages) && state.isLoading == old(state.isLoading)
      ensures state.selectedModel == old(state.selectedModel)
    {
      if HasChat(state.currentChatId) {
        id := state.currentChatId.value;
      } else {
        id := store.CreateChat(freshId);
        state.currentChatId := Some(id);
      }
    }

    /** The rest of `handle_send`: the user message is shown and saved, the
        reply streamed, and then saved or replaced by an error message. */
    method RunSend(id: string, content: string, s: BrainStream) returns (context: Option<seq<ChatMessage>>)
      modifies state, store
      ensures context == Some(old(state.messages) + [ChatMessage("user", content)])
      ensures state.messages == AfterSend(old(state.messages), content, s)
      ensures store.log == old(store.log) + SendCalls(false, id, content, s)
      ensures !state.isLoading
      ensures state.currentChatId == old(state.currentChatId) && state.selectedModel == old(state.selectedModel)
    {
      state.messages := state.messages + [ChatMessage("user", content)];
      store.SaveMessage(id, "user", content);
      state.isLoading := true;

      // the context is taken before the placeholder is appended
      context := Some(state.messages);
      var fullResponse := StreamReply(s);
      if s.failure.None? {
        store.SaveMessage(id, "assistant", fullResponse);
      } else {
        state.messages := state.messages + [ChatMessage("system", LegacyErrorPrefix + s.failure.value)];
      }
      // finally
      state.isLoading := false;
    }

    /** The streaming loop of `handle_send`: an empty assistant message is
        appended and holds the chunks received so far. */
    method StreamReply(s: BrainStream) returns (fullResponse: string)
      modifies state
      ensures fullResponse == Concat(s.chunks)
      ensures state.messages == old(state.messages) + [ChatMessage("assistant", fullResponse)]
      ensures state.isLoading == old(state.isLoading) && state.currentChatId == old(state.currentChatId)
      ensures state.selectedModel == old(state.selectedModel)
    {
      ghost var shown := state.messages;
      state.messages := state.messages + [ChatMessage("assistant", "")];
      fullResponse := "";
      var i := 0;
      while i < |s.chunks|
        invariant 0 <= i <= |s.chunks|
        invariant fullResponse == Concat(s.chunks[..i])
        invariant state.messages == shown + [ChatMessage("assistant", fullResponse)]
        invariant state.isLoading == old(state.isLoading) && state.currentChatId == old(state.currentChatId)
        invariant state.selectedModel == old(state.selectedModel)
      {
        ConcatSnoc(s.chunks[..i], s.chunks[i]);
        assert s.chunks[..i + 1] == s.chunks[..i] + [s.chunks[i]];
        fullResponse := fullResponse + s.chunks[i];
        state.messages := state.messages[..|state.messages| - 1] + [ChatMessage("assistant", fullResponse)];
        i := i + 1;
      }
      assert s.chunks[..i] == s.chunks;
    }

    /** `handle_new_chat`. */
    method HandleNewChat()
      modifies state
      ensures state.messages == [] && state.currentChatId == None
      ensures state.isLoading == old(state.isLoading) && state.selectedModel == old(state.selectedModel)
    {
      state.messages := [];
      state.currentChatId := None;
    }

    /** `load_chat`: a found chat replaces the messages and becomes the open
        one; a missing chat or an exception changes neither; the loading flag
        is cleared in every case. */
    method LoadChat(chatId: string, lookup: ChatLookup)
      modifies state
      ensures !state.isLoading
      ensures lookup.FoundChat? ==> state.messages == lookup.messages && state.currentChatId == Some(chatId)
      ensures !lookup.FoundChat? ==> state.messages == old(state.messages) && state.currentChatId == old(state.currentChatId)
      ensures state.selectedModel == old(state.selectedModel)
    {
      state.isLoading := true;
      match lookup {
        case FoundChat(msgs) =>
          state.messages := msgs;
          state.currentChatId := Some(chatId);
        case NotFound =>
        case LookupRaised =>
      }
      state.isLoading := false;
    }
  }
}

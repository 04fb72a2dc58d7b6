/** The reactive state of `interface/state.py`: the open chat, its displayed
    messages, the generating flag, the sidebar sections and the queue of
    toast notifications the UI consumes. */
module AppStateModel {
  import opened Common
  import opened CoreMemory
  import opened TurnLogic

  /** A queued toast: `(msg, type)`. */
  datatype Notification = Notification(message: string, kind: string)

  const DefaultKind := "info"

  /** `messages[-1]['content'] = content` on a non-empty list; nothing on an empty one. */
  function WithLastContent(ms: seq<UiMessage>, content: string): (r: seq<UiMessage>)
    ensures |r| == |ms|
    ensures ms == [] ==> r == []
    ensures ms != [] ==> r[..|r| - 1] == ms[..|ms| - 1] && r[|r| - 1] == ms[|ms| - 1].(content := content)
  {
    if ms == [] then [] else ms[..|ms| - 1] + [ms[|ms| - 1].(content := content)]
  }

  /** On a list ending in `m`, only `m`'s content is replaced. */
  lemma WithLastContentSnoc(ms: seq<UiMessage>, m: UiMessage, content: string)
    ensures WithLastContent(ms + [m], content) == ms + [m.(content := content)]
  {
    assert (ms + [m])[..|ms|] == ms;
  }

  /** Updating the last message twice keeps only the second content. */
  lemma WithLastContentTwice(ms: seq<UiMessage>, c1: string, c2: string)
    ensures WithLastContent(WithLastContent(ms, c1), c2) == WithLastContent(ms, c2)
  {
  }

  /** Updating the last message changes its content and nothing else in the list. */
  lemma WithLastContentOnlyContent(ms: seq<UiMessage>, content: string, i: int)
    requires 0 <= i < |ms|
    ensures var r := WithLastContent(ms, content);
            r[i].role == ms[i].role && r[i].stamp == ms[i].stamp && r[i].name == ms[i].name
            && r[i].avatar == ms[i].avatar
            && (i < |ms| - 1 ==> r[i] == ms[i])
            && (i == |ms| - 1 ==> r[i].content == content)
  {
  }

  class AppState {
    var currentChatId: Option<string>
    var messages: seq<UiMessage>
    var isGenerating: bool
    var sidebarHistory: map<string, seq<ChatSummary>>
    var notifications: seq<Notification>

    /** The dataclass defaults. */
    constructor()
      ensures currentChatId == None && messages == [] && !isGenerating
      ensures sidebarHistory == map[] && notifications == []
    {
      currentChatId := None;
      messages := [];
      isGenerating := false;
      sidebarHistory := map[];
      notifications := [];
    }

    /** `clear_messages`. */
    method ClearMessages()
      modifies this
      ensures messages == []
      ensures currentChatId == old(currentChatId) && isGenerating == old(isGenerating)
      ensures sidebarHistory == old(sidebarHistory) && notifications == old(notifications)
    {
      messages := [];
    }

    /** `add_message`: appended at the end, earlier messages unchanged. */
    method AddMessage(msg: UiMessage)
      modifies this
      ensures messages == old(messages) + [msg]
      ensures |messages| == |old(messages)| + 1 && messages[..|old(messages)|] == old(messages)
      ensures currentChatId == old(currentChatId) && isGenerating == old(isGenerating)
      ensures sidebarHistory == old(sidebarHistory) && notifications == old(notifications)
    {
      messages := messages + [msg];
    }

    /** `update_last_message`: only the last message's content changes; an empty list stays empty. */
    method UpdateLastMessage(content: string)
      modifies this
      ensures messages == WithLastContent(old(messages), content)
      ensures old(messages) == [] ==> messages == []
      ensures currentChatId == old(currentChatId) && isGenerating == old(isGenerating)
      ensures sidebarHistory == old(sidebarHistory) && notifications == old(notifications)
    {
      if messages != [] {
        messages := messages[..|messages| - 1] + [messages[|messages| - 1].(content := content)];
      }
    }

    /** `set_generating`. */
    method SetGenerating(generating: bool)
      modifies this
      ensures isGenerating == generating
      ensures currentChatId == old(currentChatId) && messages == old(messages)
      ensures sidebarHistory == old(sidebarHistory) && notifications == old(notifications)
    {
      isGenerating := generating;
    }

    /** `push_notification`; callers pass `DefaultKind` for the default type. */
    method PushNotification(msg: string, kind: string)
      modifies this
      ensures notifications == old(notifications) + [Notification(msg, kind)]
      ensures currentChatId == old(currentChatId) && messages == old(messages)
      ensures isGenerating == old(isGenerating) && sidebarHistory == old(sidebarHistory)
    {
      notifications := notifications + [Notification(msg, kind)];
    }
  }
}

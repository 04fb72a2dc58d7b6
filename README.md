# Erika-AI core, modelled in Dafny

Erika-AI is a desktop chat assistant. The UI shows a chat with the local
"brain" (an Ollama or OpenAI-compatible model). Each turn is streamed into a
reply bubble that the user can stop. Turns are saved as one JSON file per
chat. A nightly "subconscious" writes a diary entry (a reflection) about the
day's chats and keeps a growth profile up to date. Around this sit:

- a router that sends reflection work to a remote host while it is online;
- a settings store;
- a speech service and an MCP server manager;
- a vision caption clean-up;
- sandboxed tools the model may call.

This project models that core as Dafny values, functions, classes and
methods, and proves what each part promises. Every file is one module:

| file | models |
|---|---|
| `common.dfy` | Python's whitespace, `strip`, `split`, `join`, `int()`, `str()`, string order and the stable `sorted(..., reverse=True)` |
| `calendar.dfy` | `datetime.date`, the day before a date, `%d-%m-%Y`, `%I:%M %p` and ISO stamps |
| `app_state.dfy` | `interface/state.py`, the UI state object |
| `turn_logic.dfy` | what both interface controllers share: bubbles, the 20-message context window, chunks accumulated under a stop flag, grouping chats by day |
| `controller.dfy`, `manager.dfy` | `interface/controller.py` and `interface/manager.py` |
| `legacy_controller.dfy` | `legacy_src/legacy/interface/controller.py` |
| `core_memory.dfy`, `engine_memory.dfy` | the chat stores `core/memory.py` and `engine/memory.py` |
| `llm_engine.dfy` | `core/llm/engine.py` |
| `network_router.dfy` | `engine/network_router.py` |
| `subconscious.dfy` | what the reflection and growth code shares: transcript, brain chunks, journal file names, latest entry |
| `reflection_service.dfy`, `growth_service.dfy` | `domain/subconscious/` |
| `engine_reflector.dfy`, `archive_reflector.dfy` | `engine/modules/reflector.py` and `archive/reflector.py` |
| `time_keeper.dfy`, `token_counter.dfy` | `engine/modules/` |
| `settings.dfy`, `settings_ui.dfy` | `core/settings.py` and the logic inside `interface/settings_ui.py` |
| `tts_service.dfy` | `mcp_tools/erika_voice/service.py` |
| `mcp_manager.dfy` | `engine/mcp_manager.py` |
| `vision.dfy` | `core/erika_vision/engine.py` |
| `safe_tools.dfy` | `tools/safe_tools.py` |

Classes the source updates in place are Dafny classes whose methods state
their whole new state. Examples are the UI state, the controllers, the
stores, the settings manager, the speaker, the MCP manager and the router.

The outside world enters as parameters:

- the clock, uuids, probe results and file-system outcomes;
- the brain's stream: the chunks it yields, then possibly an exception;
- the chunk at which the stop button is seen.

## Model

| member | source | states |
|---|---|---|
| Common.Strip | core/erika_vision/engine.py:17 | `str.strip()`: neither end of the result is whitespace (Python's `isspace` set) |
| Common.StripIsSlice | domain/subconscious/reflection_service.py:87 | the stripped text is a contiguous piece of the input with only whitespace cut on either side |
| Common.StripEmptyIffBlank | legacy_src/legacy/interface/controller.py:43 | `not s.strip()` holds exactly when the text is empty or whitespace only |
| Common.SplitOn | tools/safe_tools.py:77 | `s.split('-')` gives at least one part, no part holds the separator, and the parts joined by the separator are `s` |
| Common.Lower | tools/safe_tools.py:123 | `lower()` maps every character through ASCII lower-casing, length kept |
| Common.ParseUnsigned | tools/safe_tools.py:80-81 | `int()` of a run of decimal digits is its decimal value |
| Common.ParseGrouped | tools/safe_tools.py:80-81 | `int()` accepts digits grouped by single underscores and reads them as the digits alone |
| Common.DigitsValueOfNatToString | tools/safe_tools.py:80-81 | the decimal text of `n` is all digits and `int()` of it is `n` again |
| Common.LexLeTotal | core/memory.py:105 | Python's string order compares every pair of strings |
| Common.LexLeTrans | core/memory.py:105 | Python's string order is transitive |
| Common.SortDescCorrect | core/memory.py:105 | `sort(key, reverse=True)` returns a permutation of its input in non-increasing key order |
| Calendar.PrevDay | interface/controller.py:51 | `today - timedelta(days=1)` is a valid date before `today` (undefined only on `date.min`) |
| Calendar.NothingBetween | interface/controller.py:51 | no valid date lies strictly between yesterday and today |
| Calendar.FormatDmy | engine/modules/reflector.py:39 | `strftime('%d-%m-%Y')` is ten characters |
| Calendar.ParseDmy | engine/modules/reflector.py:112 | `strptime(..., '%d-%m-%Y')` only ever gives a valid date |
| Calendar.ParseFormatDmy | engine/modules/reflector.py:112 | a date written with `%d-%m-%Y` reads back as the same date |
| Calendar.Clock12 | interface/controller.py:80 | `%I:%M %p` is eight characters `hh:mm XM`: the hour reads back in 1..12 and equals the 24-hour hour modulo 12, the minutes read back unchanged, and the suffix is "AM" exactly before noon and "PM" otherwise |
| Calendar.ParseIso | interface/controller.py:56 | `fromisoformat` only ever gives a valid date and time |
| Calendar.FormatIso | core/memory.py:42 | `isoformat()` cut after the minutes is 16 characters |
| Calendar.IsoDateFields | core/memory.py:42 | the year, month and day of a written stamp sit where `fromisoformat` reads them |
| Calendar.IsoTimeFields | core/memory.py:42 | the hour and minute of a written stamp sit where `fromisoformat` reads them |
| Calendar.ParseFormatIso | interface/controller.py:80 | a stamp `save_turn` writes reads back as its date and time, whatever follows the minutes |
| AppStateModel.WithLastContent | interface/state.py:27-29 | `messages[-1]['content'] = c` changes only the last message's content; an empty list stays empty |
| AppStateModel.WithLastContentSnoc | interface/state.py:27-29 | on a list ending in `m`, only `m`'s content is replaced |
| AppStateModel.WithLastContentTwice | interface/state.py:27-29 | two updates of the last message leave only the second content |
| AppStateModel.WithLastContentOnlyContent | interface/state.py:27-29 | role, stamp, name and avatar of every message survive an update, and earlier messages are untouched |
| AppStateModel.AppState.constructor | interface/state.py:7-19 | the dataclass defaults: no chat, no messages, not generating, no sections, no notifications |
| AppStateModel.AppState.ClearMessages | interface/state.py:21-22 | messages become empty; every other field is kept |
| AppStateModel.AppState.AddMessage | interface/state.py:24-25 | the message is appended and earlier messages are unchanged; every other field is kept |
| AppStateModel.AppState.UpdateLastMessage | interface/state.py:27-29 | messages become `WithLastContent(old messages, content)`; every other field is kept |
| AppStateModel.AppState.SetGenerating | interface/state.py:31-32 | sets the generating flag only |
| AppStateModel.AppState.PushNotification | interface/state.py:34-35 | the `(msg, type)` pair is queued at the end; nothing else changes |
| TurnLogic.Bubble | interface/controller.py:77-83 | a loaded bubble keeps role and content, shows the `%I:%M %p` time, and is "You" with no avatar exactly for user messages |
| TurnLogic.ParsedUpTo | interface/controller.py:76-83 | the first message whose timestamp `fromisoformat` rejects, or the end |
| TurnLogic.BubblesOf | interface/controller.py:76-83 | one bubble per parsed message |
| TurnLogic.LoadedBubblesEnd | interface/controller.py:76-83 | loading stops at the first unparseable timestamp, or completes past the last message |
| TurnLogic.ReplyReplacesPlaceholder | interface/controller.py:99-127 | replacing the placeholder keeps everything shown before the turn and the user's bubble |
| TurnLogic.LoadBubbles | interface/controller.py:76-83 | the loading loop computes `LoadedBubbles`: the bubbles added, and whether every message was loaded |
| TurnLogic.LoadedBubblesSpec | interface/controller.py:76-83 | bubbles match the stored messages one for one up to the first bad timestamp; loading completes exactly when every timestamp parses |
| TurnLogic.TurnContext | interface/controller.py:117-119 | the context is the last 20 history messages (all if fewer) followed by the user message |
| TurnLogic.Consumed | interface/controller.py:123-126 | the chunks appended; fewer than all exactly when the loop broke on the stop flag |
| TurnLogic.FinalContent | interface/controller.py:122-132 | the reply bubble ends as the error text, the untouched "...", or the accumulated response |
| TurnLogic.AccumulatedIsPrefix | interface/controller.py:123-126 | what is saved after a stop is a prefix of the full response |
| TurnLogic.UninterruptedTurnKeepsAll | interface/controller.py:123-127 | without a stop every chunk is kept, and without an exception the bubble holds them all |
| TurnLogic.TurnChatId | interface/controller.py:138-139 | a turn is saved to the open chat, or to the one created for it |
| TurnLogic.StoreForTurn | interface/controller.py:138-139 | a new chat record is created only when no chat is open |
| TurnLogic.SaveInFinallyEffect | interface/controller.py:137-140 | a failing create leaves no chat open and the store unchanged; the turn is saved exactly when neither write fails and the open chat's file is not corrupt; a saved turn leaves the open chat readable and ending in the user message and the reply; other existing chats are untouched |
| TurnLogic.SaveInFinallyAsWritten | interface/controller.py:138-140 | with no chat open, `create_chat(user_msg)` raises before any write: no chat is opened, the store is unchanged and the turn is not saved; with a chat open it is `SaveInFinally` |
| TurnLogic.FirstTurnLostAsWritten | interface/controller.py:138-140 | for the first turn of a new conversation, the as-written block saves nothing and opens no chat, while `SaveInFinally` stores the turn as the only two messages of a new chat under the fresh id |
| TurnLogic.ChatDate | interface/controller.py:55-58 | `fromisoformat(...).date()`, or `datetime.min.date()` when that raises: always a valid date |
| TurnLogic.SectionOf | interface/controller.py:60-65 | Today exactly for today's date, Yesterday exactly for the day before, Older otherwise |
| TurnLogic.UnparseableIsOlder | interface/controller.py:57-58 | an unparseable date lands in Older (unless today is 0001-01-02) |
| TurnLogic.PickMembers | interface/controller.py:60-65 | a section holds only chats of the input that belong to it |
| TurnLogic.PickPartition | interface/controller.py:54-65 | the three sections together are the input, as a multiset |
| TurnLogic.PickSorted | interface/controller.py:54-65 | a section of a newest-first list is newest first |
| TurnLogic.GroupByDay | interface/controller.py:54-65 | the grouping loop builds the `{'Today', 'Yesterday', 'Older'}` dict of `SectionMap` |
| TurnLogic.SectionsPartition | interface/controller.py:47-67 | every chat is in exactly one section, the one its date calls for; sections of a sorted list stay sorted |
| TurnLogic.SortDescOfSorted | interface/controller.py:54 | re-sorting a newest-first listing changes nothing |
| TurnLogic.ListedInOrder | core/memory.py:84-106 | whatever order the directory is read in, `list_chats` returns a listing of the readable chats |
| TurnLogic.HistorySections | interface/controller.py:47-67 | the sections of a newest-first listing: a partition of it, each newest first |
| Controller.LastUserIndex | interface/controller.py:155-159 | the index of the last user message: no user message follows it, -1 when there is none |
| Controller.ErikaController.constructor | interface/controller.py:19-32 | holds the given state and store; the stop flag is clear |
| Controller.ErikaController.History | interface/controller.py:117 | `get_messages` of the open chat, `[]` when none is open, `None` when the chat file is corrupt |
| Controller.ErikaController.GetHistorySections | interface/controller.py:47-67 | the sidebar becomes the day sections of the listing: a partition of it, each newest first; nothing else changes |
| Controller.ErikaController.LoadChat | interface/controller.py:69-86 | the id is set first; a corrupt file raises before clearing; a missing chat clears; a found chat shows its bubbles up to the first bad timestamp, raising there |
| Controller.ErikaController.AddBubble | interface/controller.py:77-83 | one more stored message shows its bubble at the end |
| Controller.ErikaController.AddLoadedBubbles | interface/controller.py:76-83 | the loop appends `LoadedBubbles` and raises exactly when a timestamp does not parse |
| Controller.ErikaController.LoadNewChat | interface/controller.py:88-90 | no chat is open and no message is shown |
| Controller.ErikaController.Notify | interface/controller.py:168-174 | the toast is queued; nothing else changes |
| Controller.ErikaController.HandleStop | interface/controller.py:145-147 | the stop flag is set and a warning toast is queued |
| Controller.ErikaController.HandleSend | interface/controller.py:92-143 | an empty message, or one sent while generating, changes nothing; otherwise the whole turn effect |
| Controller.ErikaController.RunTurn | interface/controller.py:96-143 | the turn effect: optimistic bubbles; a history read that may raise; the streamed reply under the stop flag; the save; the sidebar refresh |
| Controller.ErikaController.BeginTurn | interface/controller.py:96-110 | generating is set, the stop flag is cleared, and the user bubble and the "..." placeholder are appended |
| Controller.ErikaController.StreamAndSave | interface/controller.py:116-143 | the context sent; the placeholder's final content; flags reset; the open chat, the store and the saved flag are those of `SaveInFinally`; the sidebar refreshed after a save |
| Controller.ErikaController.StreamReply | interface/controller.py:121-132 | the response is the chunks read before the stop; the placeholder ends as `FinalContent`; the stop toast is queued exactly when stop was pressed |
| Controller.ErikaController.ShowPartial | interface/controller.py:127 | `update_last_message` rewrites the reply bubble only |
| Controller.ErikaController.ReadChunks | interface/controller.py:123-127 | the loop appends each chunk into the reply bubble and breaks when it sees the stop flag |
| Controller.ErikaController.FinishTurn | interface/controller.py:133-143 | flags reset; the open chat, the store and the saved flag are those of `SaveInFinally` (a chat is created when none is open, a failing create leaves none open, a failing write or a corrupt file leaves the turn unsaved); the sidebar is refreshed only after a save |
| Controller.ErikaController.RegenerateLast | interface/controller.py:149-163 | only a trailing assistant bubble is dropped; the last user message, if non-empty, is sent again; a rejected re-send leaves the list without that bubble and changes nothing else; an accepted one has the full `TurnEffect` of `handle_send` from the shortened list |
| Manager.ChatController.constructor | interface/manager.py:19-36 | no chat, not generating, no stop, no messages |
| Manager.ChatController.History | interface/manager.py:115 | `get_messages` of the open chat, `[]` without one, `None` for a corrupt file |
| Manager.ChatController.GetHistorySections | interface/manager.py:38-56 | the day sections of the listing: a partition of it, each newest first |
| Manager.ChatController.LoadChat | interface/manager.py:58-78 | as the controller's `load_chat`, on the manager's own message list |
| Manager.ChatController.LoadNewChat | interface/manager.py:80-87 | no chat is open and no message is shown |
| Manager.ChatController.StopGeneration | interface/manager.py:145-148 | only the stop flag is set |
| Manager.ChatController.SendMessage | interface/manager.py:89-143 | an empty or concurrent message changes nothing (index -1); otherwise the whole send effect |
| Manager.ChatController.RunSend | interface/manager.py:89-143 | the send effect, with the placeholder addressed by its index |
| Manager.ChatController.StreamAndSave | interface/manager.py:110-143 | the context sent; the placeholder at its index holds the final content; the open chat, the store and the saved flag are those of `SaveInFinally` |
| Manager.ChatController.BeginSend | interface/manager.py:96-108 | flags set, bubbles appended; the placeholder's index is returned |
| Manager.ChatController.FinishSend | interface/manager.py:132-143 | flags reset; the open chat, the store and the saved flag are those of `SaveInFinally` (a chat is created when none is open, a failing create leaves none open, a failing write or a corrupt file leaves the turn unsaved) |
| Manager.ChatController.StreamInto | interface/manager.py:115-130 | the message at the placeholder's index ends as `FinalContent` |
| Manager.ChatController.ReadChunks | interface/manager.py:118-125 | each chunk is written into the placeholder at its index until the stop flag is seen |
| LegacyController.ChatStore.CreateChat | legacy_src/legacy/interface/controller.py:52 | the store is asked for a new chat |
| LegacyController.ChatStore.SaveMessage | legacy_src/legacy/interface/controller.py:57 | the store is asked to save one message |
| LegacyController.LegacyState.constructor | legacy_src/legacy/interface/state.py:4-20 | the dataclass defaults the controller reads: no messages, not loading, model "llama3"; no chat id, as `getattr(state, "current_chat_id", None)` sees it |
| LegacyController.AfterSend | legacy_src/legacy/interface/controller.py:55-104 | the user message, the accumulated reply, and a system error message exactly when the stream raised |
| LegacyController.SendCalls | legacy_src/legacy/interface/controller.py:50-100 | store calls: create when no chat is open; the user message always; the reply only when the stream did not raise |
| LegacyController.ErikaController.constructor | legacy_src/legacy/interface/controller.py:18-28 | the selected model is the user setting, "llama3" when unset |
| LegacyController.ErikaController.LoadInitialData | legacy_src/legacy/interface/controller.py:38-40 | the selected model is the user setting, "llama3" when unset |
| LegacyController.ErikaController.HandleSend | legacy_src/legacy/interface/controller.py:42-108 | a blank message changes nothing; otherwise the context is the messages up to the user's, followed by the message and call effects above; loading is cleared |
| LegacyController.ErikaController.EnsureChat | legacy_src/legacy/interface/controller.py:50-53 | the open chat, or a newly created one that becomes open |
| LegacyController.ErikaController.RunSend | legacy_src/legacy/interface/controller.py:55-108 | the rest of the turn, with the messages and store calls of `AfterSend` and `SendCalls` |
| LegacyController.ErikaController.StreamReply | legacy_src/legacy/interface/controller.py:72-91 | an assistant message is appended and ends holding all the chunks |
| LegacyController.ErikaController.HandleNewChat | legacy_src/legacy/interface/controller.py:110-113 | messages cleared and no chat open |
| LegacyController.ErikaController.LoadChat | legacy_src/legacy/interface/controller.py:124-142 | a found chat replaces the messages and becomes open; otherwise nothing changes; loading always ends cleared |
| CoreMemory.NewRecord | core/memory.py:18-24 | a new chat is titled "New Chat", has no messages, and created = updated |
| CoreMemory.AutoTitle | core/memory.py:47 | the first 30 characters of the user message, with "..." exactly when it was longer |
| CoreMemory.WithTurn | core/memory.py:42-61 | a turn appends the user and the assistant message with one timestamp; the title is set only on the first turn; updated_at is the turn's |
| CoreMemory.TitleSetOnce | core/memory.py:45-47 | later turns keep the title the first turn set |
| CoreMemory.AfterSaveTurnEffect | core/memory.py:29-62 | a corrupt file leaves the store unchanged; otherwise the chat becomes readable and other chats are untouched |
| CoreMemory.Project | core/memory.py:71-74 | `get_messages` keeps role and content of every message, in order |
| CoreMemory.SummariesCover | core/memory.py:90-100 | every readable chat file appears in the listing |
| CoreMemory.SummariesSound | core/memory.py:93-102 | every listing entry comes from a readable chat file |
| CoreMemory.MemoryManager.constructor | core/memory.py:9-11 | the store starts as the files on disk |
| CoreMemory.MemoryManager.CreateChat | core/memory.py:13-27 | the fresh id is returned; it raises exactly when the write fails, leaving the store unchanged, and otherwise stores a new empty record under that id |
| CoreMemory.MemoryManager.LoadChat | core/memory.py:76-82 | `None` exactly for a missing file, an exception exactly for a corrupt one, else the stored record |
| CoreMemory.MemoryManager.SaveTurn | core/memory.py:29-62 | raises exactly when `load_chat` does or the write fails, leaving the store unchanged; otherwise the store is `AfterSaveTurn` |
| CoreMemory.MemoryManager.GetMessages | core/memory.py:64-74 | `[]` for a missing chat, an exception for a corrupt one, else the projected messages |
| CoreMemory.MemoryManager.ListChats | core/memory.py:84-106 | one summary per readable file, sorted newest first, a permutation of the summaries |
| CoreMemory.MemoryManager.DeleteChat | core/memory.py:108-112 | the chat's file is gone; a missing id changes nothing |
| EngineMemory.Preview | engine/memory.py:78 | the first 50 characters of the first message, "Empty" for a chat without messages |
| EngineMemory.EntriesCount | engine/memory.py:67-80 | one listing entry per readable chat file |
| EngineMemory.Memory.constructor | engine/memory.py:9-14 | the store starts as the files on disk |
| EngineMemory.Memory.SaveChat | engine/memory.py:31-38 | a successful write stores the data; a failed one is logged and leaves the file as it was (see "## Left out") |
| EngineMemory.Memory.CreateChat | engine/memory.py:16-29 | the fresh id is returned and stores an empty chat when the write succeeds |
| EngineMemory.Memory.GetChat | engine/memory.py:55-65 | `None` for a missing or unreadable file, else the stored chat |
| EngineMemory.Memory.DeleteChat | engine/memory.py:40-53 | true exactly when an existing file was removed, and then the file is gone |
| EngineMemory.Memory.ListChats | engine/memory.py:67-80 | one entry per readable chat, newest creation first, a permutation of the entries |
| EngineMemory.SaveThenGet | engine/memory.py:31-65 | a saved chat reads back as saved; other chats are untouched |
| LlmEngine.BuildMessages | core/llm/engine.py:43-59 | the list survives as a suffix; the system prompt is prepended exactly when given and the list does not open with a system message; a plain prompt ends in the user message |
| LlmEngine.BuildMessagesIdempotent | core/llm/engine.py:43-52 | building twice adds nothing more |
| LlmEngine.SingleSystemMessage | core/llm/engine.py:48-51 | with a prompt and no system message in the list, exactly one system message results, in front |
| LlmEngine.StreamFailureText | core/llm/engine.py:38-41 | a failed stream yields exactly one warning; a normal end yields none |
| LlmEngine.Deltas | core/llm/engine.py:35-37 | the deltas with content, never more than the chunks |
| LlmEngine.DeltasAllPresent | core/llm/engine.py:35-37 | when every delta carries content, all of them are yielded in order |
| LlmEngine.StreamDeltas | core/llm/engine.py:35-37 | the loop yields exactly `Deltas` |
| LlmEngine.Stream | core/llm/engine.py:27-41 | the messages sent are `BuildMessages`; what is yielded is the deltas, then the failure warning if any |
| LlmEngine.Generate | core/llm/engine.py:13-25 | the messages sent are `BuildMessages`; the reply on success, the connection warning on `APIConnectionError`, the error warning otherwise |
| NetworkRouter.CheckAvailability | engine/network_router.py:28-35 | available exactly when `/api/tags` answered 200 |
| NetworkRouter.PingRemote | engine/network_router.py:37-40 | "Online" exactly when the remote host is available, "Offline" otherwise |
| NetworkRouter.HostsDiffer | engine/network_router.py:9-26 | the local and the remote brain are different hosts |
| NetworkRouter.GetActiveUrl | engine/network_router.py:73-74 | "remote" gives the remote URL; any other name gives the local one |
| NetworkRouter.BrainRouter.constructor | engine/network_router.py:9-26 | both hosts start offline |
| NetworkRouter.BrainRouter.UpdateStatus | engine/network_router.py:42-50 | each status is the availability of its probe |
| NetworkRouter.BrainRouter.GetPrimaryHost | engine/network_router.py:52-68 | remote exactly for reflection while the remote host is online, local otherwise |
| NetworkRouter.BrainRouter.RouteQuery | engine/network_router.py:69-71 | the node name whose URL is the primary host |
| Subconscious.TargetFor | domain/subconscious/reflection_service.py:46-49 | the remote host and model exactly while the remote host is online, the local ones otherwise |
| Subconscious.ChatLinesSpec | domain/subconscious/reflection_service.py:111-114 | one line per message, in order |
| Subconscious.TranscriptLinesSpec | domain/subconscious/reflection_service.py:107-115 | as many lines as messages, each labelled "Tim: " or "Erika: " |
| Subconscious.TranscriptEmptyIff | domain/subconscious/reflection_service.py:60-62 | the transcript is empty exactly when the chats hold no message |
| Subconscious.AddChatLines | domain/subconscious/reflection_service.py:111-114 | the inner loop appends one line per message of one chat |
| Subconscious.BuildTranscript | domain/subconscious/reflection_service.py:107-115 | `"\n".join` of the transcript lines; empty exactly when there are no messages |
| Subconscious.MessageTextAppend | domain/subconscious/reflection_service.py:81-82 | the text of two stream pieces is the text of one, then of the other |
| Subconscious.MessageTextSkips | domain/subconscious/reflection_service.py:81-82 | a chunk without a message adds nothing to the text |
| Subconscious.CollectMessages | engine/modules/reflector.py:74-80 | the loop adds up the message contents and passes over every other chunk |
| Subconscious.FileNameRoundTrip | domain/subconscious/reflection_service.py:96 | the name a reflection is saved under is dated, with its own date |
| Subconscious.LatestFile | domain/subconscious/reflection_service.py:131-140 | a picked name is always dated |
| Subconscious.LatestFileSpec | domain/subconscious/reflection_service.py:128-140 | no pick exactly when no name is dated; a pick is a listed name and no dated name is later |
| Subconscious.MarkdownFiles | domain/subconscious/reflection_service.py:123 | keeping only the `.md` names does not change the pick |
| Subconscious.ScanLatest | domain/subconscious/reflection_service.py:128-140 | the scan loop settles on `LatestFile` |
| Subconscious.LatestReflection | domain/subconscious/reflection_service.py:117-150 | the content of the latest-dated file, `""` when no name is dated |
| Subconscious.LatestReflectionSpec | domain/subconscious/reflection_service.py:117-150 | nothing is found exactly when no file is dated; what is found is dated no earlier than any other file |
| ReflectionServiceModel.ReadUntilError | domain/subconscious/reflection_service.py:71-82 | the loop stops exactly on an error chunk; without one the text is every message's content |
| ReflectionServiceModel.ErrorChunkSpoils | domain/subconscious/reflection_service.py:76-79 | an error chunk anywhere fails the reflection, whatever surrounds it |
| ReflectionServiceModel.ReflectionService.constructor | domain/subconscious/reflection_service.py:9-15 | the reflections directory is the one on disk |
| ReflectionServiceModel.ReflectionService.ReflectOnDay | domain/subconscious/reflection_service.py:36-105 | "No Data" without messages; otherwise the brain is asked via `TargetFor`; "Completed" exactly when the stream is error-free, raise-free and non-blank and the write succeeds; "Failed" in every other case with messages; only on "Completed" is `day_DD-MM-YYYY.md` written |
| ReflectionServiceModel.ReflectionService.GetLatestReflection | domain/subconscious/reflection_service.py:117-150 | the content of the latest-dated entry, `""` when none |
| ReflectionServiceModel.SavedReflectionIsFound | domain/subconscious/reflection_service.py:96-140 | a reflection just saved, with no later-dated entry, is the one the next search returns |
| GrowthServiceModel.PreviousGrowth | domain/subconscious/growth_service.py:27-35 | the growth file's content, `""` when it is missing or unreadable |
| GrowthServiceModel.GrowthAfter | domain/subconscious/growth_service.py:56-76 | the file becomes the new text exactly when the stream did not raise, the text is non-empty and the write goes through; otherwise it is left as it was |
| GrowthServiceModel.GrowthIgnoresErrorChunks | domain/subconscious/growth_service.py:60-62 | error chunks do not affect the new profile |
| GrowthServiceModel.GrowthService.constructor | domain/subconscious/growth_service.py:10-14 | the growth file is the one on disk |
| GrowthServiceModel.GrowthService.Evolve | domain/subconscious/growth_service.py:16-76 | the brain (via `TargetFor`) is asked with the previous profile and the reflection; the file becomes `GrowthAfter`, so a failing write is swallowed and leaves the file |
| EngineReflector.Reflector.constructor | engine/modules/reflector.py:10-17 | the reflections directory is the one on disk |
| EngineReflector.Reflector.ReflectOnDay | engine/modules/reflector.py:37-92 | "Pending" while the remote host is offline; "No Data" without messages; otherwise the remote brain is asked; "Failed" exactly when the stream raises; a failing save raises out with the directory unchanged; "Completed" exactly when the file `day_DD-MM-YYYY.md` is written |
| EngineReflector.Reflector.GetLatestReflection | engine/modules/reflector.py:94-127 | the content of the latest-dated entry, `""` when none |
| EngineReflector.ErrorOnlyStreamIsEmpty | engine/modules/reflector.py:79-80 | a stream of error chunks only gives an empty reflection, which is still saved |
| ArchiveReflector.Reflector.constructor | archive/reflector.py:10-17 | the reflections directory and growth file are the ones on disk |
| ArchiveReflector.Reflector.EvolvePersonality | archive/reflector.py:91-139 | an existing growth file that cannot be read raises out; otherwise the remote brain gets the previous profile and the reflection, and the file becomes `GrowthAfter`, a failing write being swallowed |
| ArchiveReflector.Reflector.ReflectOnDay | archive/reflector.py:37-89 | offline gives Pending and no request, no transcript gives NoData; a failing generation gives Failed; a failing save raises out with the directory and growth file unchanged and no growth request; otherwise the reflection document is stored, and Completed holds exactly when the growth step did not raise, in which case the growth request carried the previous profile and the reflection and the growth file is `GrowthAfter`; with no growth request the growth file is unchanged |
| ArchiveReflector.Reflector.GetLatestReflection | archive/reflector.py:151-184 | the content of the latest-dated entry, `""` when none |
| TimeKeeper.GetDateFromDatetime | engine/modules/time_keeper.py:8-13 | from 05:00 the calendar date, before 05:00 the day before it (`PrevDay`, the only valid date just before it) |
| TimeKeeper.GetLogicalDate | engine/modules/time_keeper.py:16-21 | for the clock reading given, today from 05:00 and the day before it before 05:00 |
| TimeKeeper.RolloverSplitsTheNight | engine/modules/time_keeper.py:10-13 | 04:59 belongs to the previous day and 05:00 to the current one |
| TimeKeeper.LogicalDateMonotone | engine/modules/time_keeper.py:8-13 | the logical date never goes backwards as the clock moves forward |
| TokenCounter.WordCount | engine/modules/token_counter.py:31 | `len(s.split())` is zero exactly for blank text |
| TokenCounter.Count | engine/modules/token_counter.py:21-34 | 0 for empty text; the encoder's token count when encoding succeeds; the word count when encoding raises; without an encoder, 1 + the whole part of 1.3·words, hence between words+1 and 2·words+1 |
| TokenCounter.EstimateMonotone | engine/modules/token_counter.py:34 | more words never give a smaller estimate |
| TokenCounter.CountMessages | engine/modules/token_counter.py:36-55 | the loop adds the per-message cost of every message, then 3 for the reply |
| TokenCounter.MessagesCostDecomposes | engine/modules/token_counter.py:44-54 | the total is 3 per message, 1 per role, the content tokens, and 3 for the reply |
| TokenCounter.AppendAddsOverhead | engine/modules/token_counter.py:46-47 | one more message adds at least the 3 framing tokens |
| Settings.DefaultSystem | core/settings.py:40-45 | the system defaults hold exactly url, model, context window and model paths |
| Settings.ModelPaths | core/settings.py:35-38 | `~/.ollama/models` exactly when it exists |
| Settings.EnsureDefaults | core/settings.py:24-46 | only a missing file is written, with its defaults |
| Settings.LoadFile | core/settings.py:48-53 | any read or parse failure gives `{}` |
| Settings.Migrate | core/settings.py:18-22 | `model_paths` is added only when missing; nothing else is touched |
| Settings.FirstRunLoadsDefaults | core/settings.py:10-46 | a first run loads both default configs and the migration changes nothing |
| Settings.GarbledSystemFileLosesDefaults | core/settings.py:14-22 | an unreadable system file is overwritten with only `model_paths` |
| Settings.Lookup | core/settings.py:61 | `dict.get(key, default)` |
| Settings.SettingsManager.constructor | core/settings.py:10-22 | missing defaults written, both files loaded, the system config migrated and saved when changed |
| Settings.SettingsManager.GetUserSetting | core/settings.py:60-61 | the stored user value, or the default |
| Settings.SettingsManager.GetSystemSetting | core/settings.py:68-69 | the stored system value, or the default |
| Settings.SettingsManager.SetUserSetting | core/settings.py:63-65 | the new value reads back; other keys are kept; it raises exactly when the write fails, the file then keeping its old content, and otherwise the file holds the config |
| Settings.SettingsManager.SetSystemSetting | core/settings.py:71-73 | the new value reads back; other keys are kept; it raises exactly when the write fails, the file then keeping its old content, and otherwise the file holds the config |
| Settings.SettingsManager.SaveUserSettings | core/settings.py:75-77 | `dict.update`: new keys win, absent keys are kept; it raises exactly when the write fails, the file then keeping its old content, and otherwise the file holds the config |
| Settings.SettingsManager.SaveSystemSettings | core/settings.py:79-81 | `dict.update`: new keys win, absent keys are kept; it raises exactly when the write fails, the file then keeping its old content, and otherwise the file holds the config |
| SettingsUi.SafeGetHandler | interface/settings_ui.py:14-18 | a handler is returned exactly for a whitelisted name the controller has |
| SettingsUi.UnlistedNeverResolves | interface/settings_ui.py:4-18 | a name outside `ALLOWED_HANDLERS` never resolves |
| SettingsUi.StepLabelTokens | interface/settings_ui.py:340-341 | a step labelled "Nk" stands for N·1024 tokens |
| SettingsUi.FirstMatch | interface/settings_ui.py:321-327 | the first step whose tokens match, or none; no earlier step matches |
| SettingsUi.InitialIndex | interface/settings_ui.py:314-328 | with a controller, the first step matching `context_window` (8192 when unset); the default index otherwise |
| SettingsUi.FindStep | interface/settings_ui.py:321-327 | the loop finds `FirstMatch`, passing over steps that do not parse |
| SettingsUi.OnStepChange | interface/settings_ui.py:333-347 | out-of-range indices do nothing; otherwise the label is shown, and the tokens reach the whitelisted handler only when the step parses and the controller has it |
| SettingsUi.ActiveSwatches | interface/settings_ui.py:186-193 | a swatch is active exactly when it equals the stored colour (the first option when none is stored) |
| SettingsUi.OneSwatchActive | interface/settings_ui.py:186-193 | with distinct options and a known stored value, exactly one swatch is active |
| TtsService.Clamp | mcp_tools/erika_voice/service.py:195 | `max(lo, min(hi, x))` lies in range, keeps in-range values and snaps others to the nearest bound |
| TtsService.ClampInt | mcp_tools/erika_voice/service.py:203 | the same on integers |
| TtsService.ClampStable | mcp_tools/erika_voice/service.py:194-208 | clamping twice is clamping once, and it is monotone |
| TtsService.ClampIntStable | mcp_tools/erika_voice/service.py:202-204 | the same on integers |
| TtsService.ShouldAllowUpdateCheck | mcp_tools/erika_voice/service.py:101-117 | never unless offline with positive days; then allowed when the stamp is missing, unreadable, blank or unparseable, when days overflow `timedelta`, or when that many days have passed |
| TtsService.UpdateCheckStaysAllowed | mcp_tools/erika_voice/service.py:101-117 | once allowed, a check stays allowed as time passes |
| TtsService.UpdateLogLines | mcp_tools/erika_voice/service.py:160-166 | a header, the first 50 updates, a truncation line with the total when there are more, and a closing empty line |
| TtsService.Speaker.constructor | mcp_tools/erika_voice/service.py:24-84 | old temp files are cleaned up as `CleanupTempFiles` says, hidden ones kept; stored settings are taken as they are, else 0.7, 1 and -4.0; voice "azelma", volume 1, not speaking |
| TtsService.Speaker.SetVoice | mcp_tools/erika_voice/service.py:189-192 | an empty name is ignored; nothing else changes |
| TtsService.Speaker.SetVolume | mcp_tools/erika_voice/service.py:194-196 | volume clamped to [0, 1]; nothing else changes |
| TtsService.Speaker.SetTemperature | mcp_tools/erika_voice/service.py:198-200 | temperature clamped to [0, 2]; nothing else changes |
| TtsService.Speaker.SetDecodeSteps | mcp_tools/erika_voice/service.py:202-204 | steps clamped to [1, 10]; nothing else changes |
| TtsService.Speaker.SetEosThreshold | mcp_tools/erika_voice/service.py:206-208 | threshold clamped to [-10, 0]; nothing else changes |
| TtsService.Speaker.Stop | mcp_tools/erika_voice/service.py:210-213 | the stop event is set only while speaking |
| TtsService.Speaker.Speak | mcp_tools/erika_voice/service.py:215-231 | empty text is refused; otherwise speaking starts with the stop event cleared |
| TtsService.Speaker.FinishSpeaking | mcp_tools/erika_voice/service.py:267-273 | the callback runs exactly when present and not stopped; speaking ends |
| TtsService.Speaker.WriteUpdateLog | mcp_tools/erika_voice/service.py:158-170 | the header, one line per update for the first 50, the truncation line with the total exactly when there are more, and the closing empty line; their join is appended to the log unless the write fails |
| TtsService.Speaker.CleanupTempFiles | mcp_tools/erika_voice/service.py:172-187 | listed files older than one hour are removed, except those whose removal fails; hidden files, which `glob('*')` does not list, are all kept; no kept file is old unless hidden or undeletable |
| McpManager.LaunchFor | engine/mcp_manager.py:43-58 | "python" becomes the running interpreter; args kept; the server's env overrides the inherited one |
| McpManager.SessionsAfterKeys | engine/mcp_manager.py:38-41 | the sessions gained are exactly the launches that connected |
| McpManager.SessionsAfterKeeps | engine/mcp_manager.py:38-41 | a session no launch names is kept |
| McpManager.SessionsAfterHolds | engine/mcp_manager.py:38-41 | each connected launch is stored under its name |
| McpManager.FilterKeepsDistinct | engine/mcp_manager.py:36-38 | a filter of distinct-named servers stays distinct-named |
| McpManager.LaunchNamesDistinct | engine/mcp_manager.py:36-41 | the launches of distinct servers have distinct names |
| McpManager.Capitalize | engine/mcp_manager.py:102 | `str.capitalize()`: first letter upper, rest lower |
| McpManager.RowFor | engine/mcp_manager.py:95-106 | "ok"/"Connected" exactly when the server has a session, "error"/"Disconnected" otherwise |
| McpManager.StartedLaunchesSpec | engine/mcp_manager.py:36-41 | the walk launches exactly the enabled auto-start servers, in configuration order |
| McpManager.Manager.constructor | engine/mcp_manager.py:14-19 | no servers and no sessions |
| McpManager.Manager.LoadConfig | engine/mcp_manager.py:21-31 | a readable file replaces the configuration; otherwise it is kept |
| McpManager.Manager.StartServer | engine/mcp_manager.py:43-74 | the launch is `LaunchFor`; its session is kept exactly when it connects |
| McpManager.Manager.StartAll | engine/mcp_manager.py:33-41 | the launches are those of the auto-start servers; the sessions are `SessionsAfter` them |
| McpManager.Manager.StartEach | engine/mcp_manager.py:38-41 | the loop makes `StartedLaunches` and the matching sessions |
| McpManager.Manager.StopAll | engine/mcp_manager.py:76-84 | the sessions are emptied unless closing raises |
| McpManager.Manager.GetSession | engine/mcp_manager.py:86-88 | the session stored under the name, if any |
| McpManager.Manager.GetStatus | engine/mcp_manager.py:90-107 | one `RowFor` per enabled server, in configuration order |
| McpManager.LaunchedIsAutoStart | engine/mcp_manager.py:36-38 | the server behind an auto-start name is an auto-start server |
| McpManager.LaunchedIffAutoStart | engine/mcp_manager.py:36-41 | a server is launched exactly when it is enabled with auto start |
| McpManager.StartAllSessionKeys | engine/mcp_manager.py:33-41 | after `start_all` a server has a session exactly when it had one or is an auto-start server that connected |
| McpManager.StartAllSessionValues | engine/mcp_manager.py:33-41 | a connected auto-start server holds its own launch; others keep their session |
| Vision.MatchFrom | core/erika_vision/engine.py:16 | the removed length never exceeds the text |
| Vision.CleanCaption | core/erika_vision/engine.py:14-18 | neither end of the cleaned caption is whitespace |
| Vision.StripDropsLeadingSpace | core/erika_vision/engine.py:16-17 | leading whitespace makes no difference once stripped |
| Vision.PhrasesExclusive | core/erika_vision/engine.py:16 | no two filler phrases match the same text |
| Vision.MatchFromFinds | core/erika_vision/engine.py:16 | the pattern settles on the first alternative that matches with its whitespace |
| Vision.MatchFromNone | core/erika_vision/engine.py:16 | without a matching alternative nothing is removed |
| Vision.StripAfterRun | core/erika_vision/engine.py:16-17 | cutting the whitespace run after a phrase changes nothing once stripped |
| Vision.CleanCaptionDropsFiller | core/erika_vision/engine.py:14-18 | a caption opening with a filler phrase and whitespace loses both, once, and is stripped |
| Vision.CleanCaptionPlain | core/erika_vision/engine.py:14-18 | a caption without a leading filler phrase is only stripped |
| Vision.LeadingSpaceKeepsPhrase | core/erika_vision/engine.py:16 | text opening with whitespace keeps its phrase, because the pattern is anchored |
| Vision.See | core/erika_vision/engine.py:20-56 | a missing file is reported before any upload; the image is posted exactly when the file exists and could be read; a 200 answer gives the cleaned caption; other answers and exceptions give their error texts |
| SafeTools.NormalizeKeepsPrefix | tools/safe_tools.py:26 | `abspath` without `..` never leaves the directory it starts from |
| SafeTools.NoParentIsSafe | tools/safe_tools.py:22-30 | every relative path without `..` is inside the workspace |
| SafeTools.ParentEscapes | tools/safe_tools.py:22-30 | `..` from a workspace below `/` is refused |
| SafeTools.VisibleSpec | tools/safe_tools.py:48 | exactly the names not starting with a dot are kept |
| SafeTools.ListDir | tools/safe_tools.py:36-51 | access denied outside the workspace, not found for a missing path, else the first 50 names of the listing that do not start with a dot, in listing order |
| SafeTools.NoMinusNonNegative | tools/safe_tools.py:77-81 | a part of a `-`-split never reads as a negative number |
| SafeTools.LineWindow | tools/safe_tools.py:74-85 | the whole file without a two-part range; a range clipped to the file; the format error when a part is not an integer as `int()` reads it |
| SafeTools.RangeWindow | tools/safe_tools.py:77-83 | "a-b" selects lines a to b counted from 1, clipped to the file |
| SafeTools.GroupedRange | tools/safe_tools.py:77-83 | a range whose parts are underscore-grouped digits (`"1_0-2_0"`) selects the lines those numbers name, clipped to the file |
| SafeTools.PartsWindow | tools/safe_tools.py:77-83 | the window of a two-part range is `[max(0, a-1), min(n, b))` |
| SafeTools.BadPartFormatError | tools/safe_tools.py:77-85 | a two-part range gives the `ValueError` format error exactly when one of its parts is not an integer as `int()` reads it |
| SafeTools.Shown | tools/safe_tools.py:87-92 | at most 500 lines, from the window's start |
| SafeTools.ReadFile | tools/safe_tools.py:53-95 | access denied, not found, empty-file and format-error replies; otherwise the window's lines joined, with the truncation marker when over 500 |
| SafeTools.ReadSmallFileWhole | tools/safe_tools.py:74-92 | a file of at most 500 lines read without a range comes back whole |
| SafeTools.HitsGrow | tools/safe_tools.py:111-131 | walking further only adds hits after those already found |
| SafeTools.SearchMemory | tools/safe_tools.py:97-136 | the no-match text, or the first five hits joined by newlines |
| SafeTools.DelegateThought | tools/safe_tools.py:138-155 | no call without a callback or with a context over 100000 characters; otherwise the callback gets both texts, and its answer or exception is the reply |

## Left out

- Network clients are inputs: the Ollama/OpenAI requests, the `/api/tags` probe, the vision upload and the MCP stdio sessions. A probe or request is modelled by its outcome, and a session by the launch parameters it came from. `check_connection` in `core/llm/engine.py` is not modelled.
- Concurrency is left out: threads, locks, the `speak` busy-wait, `asyncio` callbacks and UI refreshes. Async loops are sequential loops over a finite chunk sequence, and the stop button is the chunk index at which the flag is seen.
- Streams end only after their last chunk. An exception that interrupts a stream is modelled after the chunks received before it.
- UI rendering is left out: nicegui widgets, scrolling callbacks and the rest of `interface/settings_ui.py`. The prompt prose of the reflection and growth prompts is not part of the requests modelled.
- File-system details are left out: JSON encoding, directory creation, mtimes, `os.walk` order, and the exact text of `str(list)` in `list_dir`. Directories are maps from name to content. The `os.walk` walk is given as a flat list of files in visiting order.
- The catch-all `Error: {e}` branches of `list_dir` and `read_file` are left out, because exception text is not modelled.
- SafeTools.LineWindow and SafeTools.ReadFile: `int()` also accepts non-ASCII decimal digits (Arabic-Indic, Devanagari and the other Unicode `Nd` digits). The model reads only ASCII digits, with underscores between them, so a range written in other digits gives the format error here.
- GrowthServiceModel.GrowthService.Evolve, ArchiveReflector.Reflector.EvolvePersonality, both `ReflectOnDay` methods, EngineMemory.Memory.SaveChat, EngineMemory.Memory.CreateChat, CoreMemory.MemoryManager.CreateChat, CoreMemory.MemoryManager.SaveTurn and the four `Settings.SettingsManager` setters: a write that fails after `open` has already emptied the file is treated like one that fails before `open`, and the file is taken as unchanged.
- Settings.SettingsManager.constructor: the writes of `_ensure_defaults` and of the migrated system file are taken to succeed. If one of them raises, `__init__` raises and no manager exists, which a Dafny constructor cannot express.
- McpManager.Manager.StartServer and McpManager.Manager.StartAll: `StdioServerParameters` is built outside the `try`. Its validation belongs to the `mcp` library, which is not part of this model. A server entry without `command` is launched like any other, with the command absent. If that library rejects the entry, `start_server` and `start_all` would raise there, and the later servers would not start.
- Paths are POSIX paths, and `os.path.isabs` is a leading `/`.
- `lower()`, `capitalize()` and `%I:%M %p` are modelled on ASCII. The regex `IGNORECASE` extras are limited to the case partners of `i` and `s` that Python's regex engine accepts (İ, ı, ſ).
- Calendar.ParseIso: reads `YYYY-MM-DD`, optionally followed by a separator and `HH:MM`. Other `fromisoformat` forms (week dates, time zones checked for validity, seconds) are not distinguished, because the program only reads stamps written by `isoformat()`.
- Calendar.ParseDmy: accepts only the zero-padded `DD-MM-YYYY` form; `strptime` also accepts unpadded fields.
- TokenCounter.Count: the 1.3-tokens-per-word float estimate is modelled as the integer `(13 * words) / 10 + 1`. Floating-point rounding is not modelled.
- TtsService: reals stand in for Python floats. The model load, the Hugging Face environment and cache helpers (`_set_hf_offline`, `_get_hf_cache_dir`, `_detect_cache_updates`, `_write_update_check`), audio generation, playback and the volume scaling of samples are left out.
- Controller.ErikaController.FinishTurn and Manager.ChatController.FinishSend: `interface/controller.py:139` and `interface/manager.py:138` call `create_chat(user_msg)`, but `core/memory.py:13` takes no argument. These methods model the intended call, `create_chat()`. The as-written behaviour is `TurnLogic.SaveInFinallyAsWritten`, listed under "## Findings".
- The legacy controller's chat store and settings classes are not part of this model. The store is the log of calls made on it, and the settings lookup and the store's answers are inputs. `load_all_chats` and `cleanup` only forward or log, and are not modelled.
- `ErikaController.startup`, `shutdown` and `read_aloud` only log, install a handler or queue a fixed toast, and are not modelled.
- `get_chats_by_date` of the reflection services' memory is not part of this model: the day's chats are an input.
- McpManager.Manager.LoadConfig: the JSON parse of `mcp_config.json` is an input (`None` when the file is missing or unreadable). The exit stack that owns the sessions is not modelled.
- TimeKeeper.GetDateFromDatetime: a clock reading before 05:00 on 0001-01-01, for which Python raises `OverflowError`, is excluded by its precondition.
- Calendar.PrevDay: `date.min`, for which Python raises `OverflowError`, is excluded by its precondition. The sidebar grouping inherits this, so it assumes today is not 0001-01-01.

## Findings

| source | as written | input that shows it | evidently intended | confidence | as-written member | corrected member |
|---|---|---|---|---|---|---|
| interface/controller.py:139 (and interface/manager.py:138) | `create_chat(user_msg)` passes an argument to `create_chat(self)` at `core/memory.py:13`, so with no chat open the `finally` block raises `TypeError` before saving | the first message of a new conversation (`current_chat_id` is `None`), with every write succeeding | `create_chat()`: a chat is created under a fresh id and the turn is saved to it | high; not executed | TurnLogic.SaveInFinallyAsWritten, with TurnLogic.FirstTurnLostAsWritten | Controller.ErikaController.FinishTurn and Manager.ChatController.FinishSend, through TurnLogic.SaveInFinally, with TurnLogic.SaveInFinallyEffect |

/** What `interface/controller.py` and `interface/manager.py` share: the chat
    bubbles they display, the 20-message context window, how streamed chunks
    accumulate under a stop button, and the grouping of chats by day. */
module TurnLogic {
  import opened Common
  import opened Calendar
  import opened CoreMemory

  const DefaultAvatar := "/assets/Erika-AI_logo2_transparant.png"
  const HistoryWindow := 20
  const Placeholder := "..."
  const ErrorPrefix := "**Error:** "
  const StoppingNotice := "Stopping generation..."

  /** A displayed message: the dict with keys role, content, stamp, name and avatar. */
  datatype UiMessage = UiMessage(role: string, content: string, stamp: string, name: string, avatar: Option<string>)

  function UserBubble(content: string, stamp: string): UiMessage {
    UiMessage("user", content, stamp, "You", None)
  }

  function PlaceholderBubble(stamp: string): UiMessage {
    UiMessage("assistant", Placeholder, stamp, "Erika", Some(DefaultAvatar))
  }

  // ---------------------------------------------------------------------------
  // Loading a stored chat

  /** The bubble `load_chat` builds for a stored message whose time parsed as `t`. */
  function Bubble(m: StoredMessage, t: DateTime): (b: UiMessage)
    requires ValidDateTime(t)
    ensures b.role == m.role && b.content == m.content && b.stamp == Clock12(t)
    ensures b.name == "You" <==> m.role == "user"
    ensures b.avatar.None? <==> m.role == "user"
  {
    var isUser := m.role == "user";
    UiMessage(m.role, m.content, Clock12(t),
              if isUser then "You" else "Erika",
              if isUser then None else Some(DefaultAvatar))
  }

  /** The first message from `i` on whose timestamp does not parse, or
      `|msgs|` when all of them do. */
  function ParsedUpTo(msgs: seq<StoredMessage>, i: nat): (k: nat)
    requires i <= |msgs|
    ensures i <= k <= |msgs|
    ensures forall j :: i <= j < k ==> ParseIso(msgs[j].timestamp).Some?
    ensures k < |msgs| ==> ParseIso(msgs[k].timestamp).None?
    decreases |msgs| - i
  {
    if i < |msgs| && ParseIso(msgs[i].timestamp).Some? then ParsedUpTo(msgs, i + 1) else i
  }

  /** The bubbles of the first `k` messages, whose timestamps all parse. */
  function BubblesOf(msgs: seq<StoredMessage>, k: nat): (bs: seq<UiMessage>)
    requires k <= |msgs| && forall j :: 0 <= j < k ==> ParseIso(msgs[j].timestamp).Some?
    ensures |bs| == k
  {
    seq(k, j requires 0 <= j < k && ParseIso(msgs[j].timestamp).Some? => Bubble(msgs[j], ParseIso(msgs[j].timestamp).value))
  }

  /** The bubbles `load_chat` adds, in order, and whether it got through all of
      them: `fromisoformat` raising on a timestamp ends the loop there. */
  function LoadedBubbles(msgs: seq<StoredMessage>): (seq<UiMessage>, bool) {
    var k := ParsedUpTo(msgs, 0);
    (BubblesOf(msgs, k), k == |msgs|)
  }

  /** One more parsed message adds its bubble at the end. */
  lemma BubblesOfSnoc(msgs: seq<StoredMessage>, k: nat)
    requires k < |msgs| && forall j :: 0 <= j <= k ==> ParseIso(msgs[j].timestamp).Some?
    ensures BubblesOf(msgs, k + 1) == BubblesOf(msgs, k) + [Bubble(msgs[k], ParseIso(msgs[k].timestamp).value)]
  {
    var longer := BubblesOf(msgs, k + 1);
    var shorter := BubblesOf(msgs, k);
    assert longer[..k] == shorter;
    assert longer == longer[..k] + [longer[k]];
  }

  /** The loading loop stops exactly where `ParsedUpTo` says: at the first
      timestamp that does not parse, or past the last message. */
  lemma LoadedBubblesEnd(msgs: seq<StoredMessage>, i: nat)
    requires i <= |msgs| && forall j :: 0 <= j < i ==> ParseIso(msgs[j].timestamp).Some?
    requires i < |msgs| ==> ParseIso(msgs[i].timestamp).None?
    ensures LoadedBubbles(msgs) == (BubblesOf(msgs, i), i == |msgs|)
  {
  }

  /** A turn shows the user's bubble and a placeholder, then replaces the
      placeholder: what was shown before the turn stays in front. */
  lemma ReplyReplacesPlaceholder(before: seq<UiMessage>, shown: seq<UiMessage>, u: UiMessage, p: UiMessage, reply: UiMessage)
    requires shown == before + [u, p]
    ensures var after := shown[..|shown| - 1] + [reply];
            |after| == |before| + 2 && after[..|before|] == before && after[|before|] == u && after[|after| - 1] == reply
  {
    assert shown[..|shown| - 1] == before + [u];
  }

  /** The loop of `load_chat`: one bubble per stored message, in order,
      until a timestamp does not parse; the bubbles made before that stay. */
  method LoadBubbles(msgs: seq<StoredMessage>) returns (bubbles: seq<UiMessage>, complete: bool)
    ensures (bubbles, complete) == LoadedBubbles(msgs)
  {
    bubbles := [];
    var i := 0;
    while i < |msgs| && ParseIso(msgs[i].timestamp).Some?
      invariant 0 <= i <= |msgs| && forall j :: 0 <= j < i ==> ParseIso(msgs[j].timestamp).Some?
      invariant bubbles == BubblesOf(msgs, i)
    {
      BubblesOfSnoc(msgs, i);
      bubbles := bubbles + [Bubble(msgs[i], ParseIso(msgs[i].timestamp).value)];
      i := i + 1;
    }
    // `fromisoformat` raised on message `i`, or every message was read
    LoadedBubblesEnd(msgs, i);
    complete := i == |msgs|;
  }

  /** The loaded bubbles are the stored messages, one for one, up to the first
      timestamp that does not parse; loading completes exactly when every
      timestamp parses. */
  lemma LoadedBubblesSpec(msgs: seq<StoredMessage>)
    ensures var r := LoadedBubbles(msgs);
            |r.0| <= |msgs|
            && (r.1 <==> forall i :: 0 <= i < |msgs| ==> ParseIso(msgs[i].timestamp).Some?)
            && (r.1 ==> |r.0| == |msgs|)
            && (!r.1 ==> |r.0| < |msgs| && ParseIso(msgs[|r.0|].timestamp).None?)
            && (forall i :: 0 <= i < |r.0| ==>
                  ParseIso(msgs[i].timestamp).Some? && r.0[i] == Bubble(msgs[i], ParseIso(msgs[i].timestamp).value))
  {
    var k := ParsedUpTo(msgs, 0);
    if k < |msgs| {
      assert !ParseIso(msgs[k].timestamp).Some?;
    }
  }

  // ---------------------------------------------------------------------------
  // One turn

  /** `history[-20:] + [{'role': 'user', 'content': user_msg}]`. */
  function TurnContext(history: seq<ChatMessage>, userMsg: string): (ctx: seq<ChatMessage>)
    ensures |ctx| == Min(|history|, HistoryWindow) + 1 && |ctx| <= HistoryWindow + 1
    ensures ctx[|ctx| - 1] == ChatMessage("user", userMsg)
    ensures ctx[..|ctx| - 1] == history[|history| - (|ctx| - 1)..]
  {
    LastN(history, HistoryWindow) + [ChatMessage("user", userMsg)]
  }

  /** The brain's stream: the chunks it yields, then possibly an exception (its text). */
  datatype BrainStream = BrainStream(chunks: seq<string>, failure: Option<string>)

  /** When the stop button is pressed during the turn: never, or after `k`
      chunks were received (the flag is looked at only when the next chunk
      arrives). */
  datatype StopRequest = NoStop | StopAfter(k: nat)

  /** The stop button is pressed while the stream is still being read. */
  predicate StopPressed(s: BrainStream, stop: StopRequest) {
    stop.StopAfter? && stop.k <= |s.chunks|
  }

  /** The loop breaks on the stop flag before the stream is exhausted. */
  predicate BrokeOut(s: BrainStream, stop: StopRequest) {
    stop.StopAfter? && stop.k < |s.chunks|
  }

  /** The number of chunks appended to the response. */
  function Consumed(s: BrainStream, stop: StopRequest): (n: nat)
    ensures n <= |s.chunks|
    ensures BrokeOut(s, stop) <==> n < |s.chunks|
  {
    if BrokeOut(s, stop) then stop.k else |s.chunks|
  }

  /** The stream's exception reaches the handler only when the loop did not break first. */
  predicate Raises(s: BrainStream, stop: StopRequest) {
    s.failure.Some? && !BrokeOut(s, stop)
  }

  /** `full_response` at the end of the loop. */
  function Accumulated(s: BrainStream, stop: StopRequest): string {
    Concat(s.chunks[..Consumed(s, stop)])
  }

  /** The placeholder's final content: the error text, the untouched "...", or the response. */
  function FinalContent(s: BrainStream, stop: StopRequest): (c: string)
    ensures Raises(s, stop) ==> c == ErrorPrefix + s.failure.value
    ensures !Raises(s, stop) && Consumed(s, stop) == 0 ==> c == Placeholder
    ensures !Raises(s, stop) && Consumed(s, stop) > 0 ==> c == Accumulated(s, stop)
  {
    if Raises(s, stop) then ErrorPrefix + s.failure.value
    else if Consumed(s, stop) == 0 then Placeholder
    else Accumulated(s, stop)
  }

  lemma {:induction false} ConcatPrefix(parts: seq<string>, k: nat)
    requires k <= |parts|
    ensures StartsWith(Concat(parts), Concat(parts[..k]))
  {
    if k < |parts| {
      var init := parts[..|parts| - 1];
      ConcatPrefix(init, k);
      assert init[..k] == parts[..k];
    } else {
      assert parts[..k] == parts;
    }
  }

  /** Whatever is saved after a stop is a prefix of the full response the
      stream would have produced. */
  lemma AccumulatedIsPrefix(s: BrainStream, stop: StopRequest)
    ensures StartsWith(Concat(s.chunks), Accumulated(s, stop))
  {
    ConcatPrefix(s.chunks, Consumed(s, stop));
  }

  /** Without a stop and without an exception, every chunk ends up in the response. */
  lemma UninterruptedTurnKeepsAll(s: BrainStream)
    ensures Accumulated(s, NoStop) == Concat(s.chunks)
    ensures s.failure.None? && |s.chunks| > 0 ==> FinalContent(s, NoStop) == Concat(s.chunks)
  {
    assert s.chunks[..|s.chunks|] == s.chunks;
  }

  /** The clock readings, the fresh uuid and the file-system outcomes one turn
      uses: the `%I:%M %p` stamps of the two bubbles, the ISO time of the save,
      today's date, and whether the write of `create_chat` and the write of
      `save_turn` raise. */
  datatype TurnEnv = TurnEnv(userStamp: string, replyStamp: string, now: string, freshId: string, today: Date,
                             createFails: bool, saveFails: bool)

  /** How `handle_send` / `send_message` ends: it returns at once, the
      history read raises before the `try`, or the stream was read (and
      `saved` is false when `save_turn` raised in the `finally` block). */
  datatype SendOutcome = Rejected | HistoryRaised | Streamed(context: seq<ChatMessage>, saved: bool)

  /** `if self.state.current_chat_id:` is true for a set, non-empty id. */
  predicate HasChat(id: Option<string>) {
    id.Some? && id.value != ""
  }

  /** The chat a turn is saved to: the open one, or the one created for it. */
  function TurnChatId(id: Option<string>, freshId: string): (r: string)
    ensures id.Some? ==> r == id.value
    ensures id.None? ==> r == freshId
  {
    if id.None? then freshId else id.value
  }

  /** The store just before `save_turn`: a chat is created when none is open. */
  function StoreForTurn(files: map<string, ChatFile>, id: Option<string>, env: TurnEnv): (r: map<string, ChatFile>)
    ensures id.Some? ==> r == files
    ensures id.None? ==> env.freshId in r && r[env.freshId] == Parsed(NewRecord(env.freshId, env.now))
  {
    if id.None? then files[env.freshId := Parsed(NewRecord(env.freshId, env.now))] else files
  }

  /** What the `finally` block's save leaves: the open chat, the store, and
      whether the turn was saved (`False` when an exception left the block). */
  datatype SaveResult = SaveResult(chatId: Option<string>, files: map<string, ChatFile>, saved: bool)

  /** The save of the `finally` block: a chat is created when none is open,
      then `save_turn` runs. A failing create leaves no chat open and the store
      as it was; a corrupt file or a failing write of `save_turn` leaves the
      store as the create left it. */
  function SaveInFinally(files: map<string, ChatFile>, id: Option<string>, userMsg: string, aiMsg: string, env: TurnEnv)
    : SaveResult
  {
    if id.None? && env.createFails then SaveResult(None, files, false)
    else
      var cid := TurnChatId(id, env.freshId);
      var before := StoreForTurn(files, id, env);
      if env.saveFails || (cid in before && before[cid].Corrupt?) then SaveResult(Some(cid), before, false)
      else SaveResult(Some(cid), AfterSaveTurn(before, cid, userMsg, aiMsg, env.now), true)
  }

  /** A failing create leaves no chat open and the store as it was; otherwise
      the open chat is the turn's. The turn is saved exactly when neither write
      fails and the open chat's file is not corrupt. A saved turn leaves that
      chat readable and ending in the user message and the reply; a turn that
      was not saved leaves at most the empty chat the create wrote. Every other
      chat that existed is left as it was. */
  lemma SaveInFinallyEffect(files: map<string, ChatFile>, id: Option<string>, userMsg: string, aiMsg: string, env: TurnEnv)
    ensures var r := SaveInFinally(files, id, userMsg, aiMsg, env);
            (id.None? && env.createFails ==> r == SaveResult(None, files, false))
            && (!(id.None? && env.createFails) ==> r.chatId == Some(TurnChatId(id, env.freshId)))
            && (r.saved <==> !(id.None? && env.createFails) && !env.saveFails
                             && !(id.Some? && id.value in files && files[id.value].Corrupt?))
            && (!r.saved && !(id.None? && env.createFails) ==> r.files == StoreForTurn(files, id, env))
            && (r.saved ==>
               r.chatId.Some? && r.chatId.value in r.files && r.files[r.chatId.value].Parsed?
               && |r.files[r.chatId.value].record.messages| >= 2
               && r.files[r.chatId.value].record.messages[|r.files[r.chatId.value].record.messages| - 2..]
                  == [StoredMessage("user", userMsg, env.now), StoredMessage("assistant", aiMsg, env.now)]
               && (forall k :: k in files && Some(k) != r.chatId ==> k in r.files && r.files[k] == files[k]))
            && (!r.saved ==>
                  forall k :: k in files && Some(k) != r.chatId ==> k in r.files && r.files[k] == files[k])
  {
    if !(id.None? && env.createFails) {
      var cid := TurnChatId(id, env.freshId);
      var before := StoreForTurn(files, id, env);
      assert forall k :: k in files && k != cid ==> k in before && before[k] == files[k];
      if !env.saveFails && !(cid in before && before[cid].Corrupt?) {
        AfterSaveTurnEffect(before, cid, userMsg, aiMsg, env.now);
      }
    }
  }

  /** The `finally` block as written: `create_chat(user_msg)` passes an argument
      that `create_chat(self)` does not take, so with no chat open the call
      raises `TypeError` before any file is written. */
  function SaveInFinallyAsWritten(files: map<string, ChatFile>, id: Option<string>, userMsg: string, aiMsg: string,
                                  env: TurnEnv): (r: SaveResult)
    ensures id.None? ==> r == SaveResult(None, files, false)
    ensures id.Some? ==> r == SaveInFinally(files, id, userMsg, aiMsg, env)
  {
    if id.None? then SaveResult(None, files, false) else SaveInFinally(files, id, userMsg, aiMsg, env)
  }

  /** The first turn of a new conversation: as written it is never saved and
      no chat is opened, so every later turn of the conversation is lost too;
      with the chat created as intended it is stored under the fresh id. */
  lemma FirstTurnLostAsWritten(files: map<string, ChatFile>, userMsg: string, aiMsg: string, env: TurnEnv)
    requires !env.createFails && !env.saveFails
    ensures var w := SaveInFinallyAsWritten(files, None, userMsg, aiMsg, env);
            !w.saved && w.chatId.None? && w.files == files
    ensures var r := SaveInFinally(files, None, userMsg, aiMsg, env);
            r.saved && r.chatId == Some(env.freshId) && env.freshId in r.files
            && r.files[env.freshId] == Parsed(WithTurn(NewRecord(env.freshId, env.now), userMsg, aiMsg, env.now))
            && r.files[env.freshId].record.messages
               == [StoredMessage("user", userMsg, env.now), StoredMessage("assistant", aiMsg, env.now)]
  {
  }

  // ---------------------------------------------------------------------------
  // History sections

  datatype Section = Today | Yesterday | Older

  /** `datetime.fromisoformat(updated_at).date()`, or `datetime.min.date()` when it raises. */
  function ChatDate(updatedAt: string): (d: Date)
    ensures Valid(d)
  {
    match ParseIso(updatedAt)
    case Some(t) => t.date
    case None => MinDate
  }

  function SectionOf(updatedAt: string, today: Date): (sec: Section)
    requires Valid(today) && today != MinDate
    ensures sec == Today <==> ChatDate(updatedAt) == today
    ensures sec == Yesterday <==> ChatDate(updatedAt) == PrevDay(today)
  {
    var d := ChatDate(updatedAt);
    if d == today then Today else if d == PrevDay(today) then Yesterday else Older
  }

  /** A date that does not parse lands in Older, unless today is 0001-01-02. */
  lemma UnparseableIsOlder(updatedAt: string, today: Date)
    requires Valid(today) && Before(Date(1, 1, 2), today)
    requires ParseIso(updatedAt).None?
    ensures SectionOf(updatedAt, today) == Older
  {
  }

  /** The elements `f` puts in section `sec`, in the order given. */
  function Pick<T>(xs: seq<T>, f: T -> Section, sec: Section): seq<T>
  {
    if |xs| == 0 then []
    else
      var last := xs[|xs| - 1];
      Pick(xs[..|xs| - 1], f, sec) + (if f(last) == sec then [last] else [])
  }

  lemma PickSnoc<T>(xs: seq<T>, x: T, f: T -> Section, sec: Section)
    ensures Pick(xs + [x], f, sec) == Pick(xs, f, sec) + (if f(x) == sec then [x] else [])
  {
    assert (xs + [x])[..|xs|] == xs;
  }

  /** A section holds only elements of the input that belong to it. */
  lemma {:induction false} PickMembers<T>(xs: seq<T>, f: T -> Section, sec: Section, x: T)
    requires x in Pick(xs, f, sec)
    ensures x in xs && f(x) == sec
  {
    var init := xs[..|xs| - 1];
    if x in Pick(init, f, sec) {
      PickMembers(init, f, sec, x);
      assert x in init;
    }
  }

  function Only<T>(x: T, f: T -> Section, sec: Section): multiset<T> {
    if f(x) == sec then multiset{x} else multiset{}
  }

  lemma PickLast<T>(xs: seq<T>, f: T -> Section, sec: Section)
    requires |xs| > 0
    ensures multiset(Pick(xs, f, sec)) == multiset(Pick(xs[..|xs| - 1], f, sec)) + Only(xs[|xs| - 1], f, sec)
  {
  }

  /** Every element is in exactly one section: together the sections are the input. */
  lemma {:induction false} PickPartition<T>(xs: seq<T>, f: T -> Section)
    ensures multiset(Pick(xs, f, Today)) + multiset(Pick(xs, f, Yesterday)) + multiset(Pick(xs, f, Older))
            == multiset(xs)
  {
    if |xs| > 0 {
      var init := xs[..|xs| - 1];
      var last := xs[|xs| - 1];
      PickPartition(init, f);
      PickLast(xs, f, Today);
      PickLast(xs, f, Yesterday);
      PickLast(xs, f, Older);
      OnlyOne(last, f);
      Regroup(multiset(Pick(init, f, Today)), multiset(Pick(init, f, Yesterday)), multiset(Pick(init, f, Older)),
              Only(last, f, Today), Only(last, f, Yesterday), Only(last, f, Older));
      MultisetSnoc(xs);
    }
  }

  lemma MultisetSnoc<T>(xs: seq<T>)
    requires |xs| > 0
    ensures multiset(xs) == multiset(xs[..|xs| - 1]) + multiset{xs[|xs| - 1]}
  {
    assert xs == xs[..|xs| - 1] + [xs[|xs| - 1]];
  }

  lemma Regroup<T>(a: multiset<T>, b: multiset<T>, c: multiset<T>, x: multiset<T>, y: multiset<T>, z: multiset<T>)
    ensures (a + x) + (b + y) + (c + z) == (a + b + c) + (x + y + z)
  {
  }

  /** An element belongs to exactly one of the three sections. */
  lemma OnlyOne<T>(x: T, f: T -> Section)
    ensures Only(x, f, Today) + Only(x, f, Yesterday) + Only(x, f, Older) == multiset{x}
  {
    match f(x)
    case Today =>
    case Yesterday =>
    case Older =>
  }

  /** A section of a list sorted newest first is sorted newest first. */
  lemma {:induction false} PickSorted<T>(xs: seq<T>, f: T -> Section, sec: Section, key: T -> string)
    requires SortedDesc(xs, key)
    ensures SortedDesc(Pick(xs, f, sec), key)
  {
    if |xs| > 0 {
      var init := xs[..|xs| - 1];
      var last := xs[|xs| - 1];
      assert SortedDesc(init, key) by {
        forall i, j | 0 <= i < j < |init| ensures LexLe(key(init[j]), key(init[i])) {
          assert init[i] == xs[i] && init[j] == xs[j];
        }
      }
      PickSorted(init, f, sec, key);
      var r := Pick(init, f, sec);
      if f(last) == sec {
        var r2 := r + [last];
        forall i, j | 0 <= i < j < |r2| ensures LexLe(key(r2[j]), key(r2[i])) {
          if j == |r| {
            PickMembers(init, f, sec, r2[i]);
            var p :| 0 <= p < |init| && init[p] == r2[i];
            assert xs[p] == r2[i];
          } else {
            assert r2[i] == r[i] && r2[j] == r[j];
          }
        }
      }
    }
  }

  /** The section of each chat, as `get_history_sections` decides it for `today`. */
  function Classify(today: Date): ChatSummary -> Section {
    (c: ChatSummary) => if Valid(today) && today != MinDate then SectionOf(c.updatedAt, today) else Older
  }

  /** The chats of one section, in the order given. */
  function InSection(chats: seq<ChatSummary>, sec: Section, today: Date): seq<ChatSummary> {
    Pick(chats, Classify(today), sec)
  }

  /** The dict `{'Today': [...], 'Yesterday': [...], 'Older': [...]}`. */
  function SectionMap(chats: seq<ChatSummary>, today: Date): map<string, seq<ChatSummary>> {
    map["Today" := InSection(chats, Today, today),
        "Yesterday" := InSection(chats, Yesterday, today),
        "Older" := InSection(chats, Older, today)]
  }

  /** The loop of `get_history_sections`: each chat goes to the end of its section. */
  method GroupByDay(chats: seq<ChatSummary>, today: Date) returns (sections: map<string, seq<ChatSummary>>)
    requires Valid(today) && today != MinDate
    ensures sections == SectionMap(chats, today)
  {
    var todays: seq<ChatSummary> := [];
    var yesterdays: seq<ChatSummary> := [];
    var olders: seq<ChatSummary> := [];
    var yesterday := PrevDay(today);
    ghost var f := Classify(today);
    var i := 0;
    while i < |chats|
      invariant 0 <= i <= |chats|
      invariant todays == Pick(chats[..i], f, Today)
      invariant yesterdays == Pick(chats[..i], f, Yesterday)
      invariant olders == Pick(chats[..i], f, Older)
    {
      assert chats[..i + 1] == chats[..i] + [chats[i]];
      PickSnoc(chats[..i], chats[i], f, Today);
      PickSnoc(chats[..i], chats[i], f, Yesterday);
      PickSnoc(chats[..i], chats[i], f, Older);
      var chatDate := ChatDate(chats[i].updatedAt);
      assert f(chats[i]) == SectionOf(chats[i].updatedAt, today);
      if chatDate == today {
        todays := todays + [chats[i]];
      } else if chatDate == yesterday {
        yesterdays := yesterdays + [chats[i]];
      } else {
        olders := olders + [chats[i]];
      }
      i := i + 1;
    }
    assert chats[..i] == chats;
    sections := map["Today" := todays, "Yesterday" := yesterdays, "Older" := olders];
  }

  /** Each chat lands in exactly one section, in the section its date calls
      for, and a newest-first listing gives newest-first sections. */
  lemma SectionsPartition(chats: seq<ChatSummary>, today: Date)
    requires Valid(today) && today != MinDate
    ensures multiset(InSection(chats, Today, today)) + multiset(InSection(chats, Yesterday, today))
            + multiset(InSection(chats, Older, today)) == multiset(chats)
    ensures forall sec, c :: c in InSection(chats, sec, today) ==> SectionOf(c.updatedAt, today) == sec
    ensures SortedDesc(chats, UpdatedKey) ==> forall sec :: SortedDesc(InSection(chats, sec, today), UpdatedKey)
  {
    PickPartition(chats, Classify(today));
    forall sec, c | c in InSection(chats, sec, today) ensures SectionOf(c.updatedAt, today) == sec {
      PickMembers(chats, Classify(today), sec, c);
    }
    if SortedDesc(chats, UpdatedKey) {
      forall sec ensures SortedDesc(InSection(chats, sec, today), UpdatedKey) {
        PickSorted(chats, Classify(today), sec, UpdatedKey);
      }
    }
  }

  /** Sorting an already newest-first list changes nothing. */
  lemma {:induction false} SortDescOfSorted<T>(xs: seq<T>, key: T -> string)
    requires SortedDesc(xs, key)
    ensures SortDesc(xs, key) == xs
  {
    if |xs| > 0 {
      assert SortedDesc(xs[1..], key) by {
        forall i, j | 0 <= i < j < |xs[1..]| ensures LexLe(key(xs[1..][j]), key(xs[1..][i])) {
          assert xs[1..][i] == xs[i + 1] && xs[1..][j] == xs[j + 1];
        }
      }
      SortDescOfSorted(xs[1..], key);
      if |xs| > 1 {
        assert LexLe(key(xs[1..][0]), key(xs[0]));
      }
      assert xs == [xs[0]] + xs[1..];
    }
  }

  /** The chat listings `list_chats` can return for a store: readable chats, newest first. */
  ghost predicate IsListing(files: map<string, ChatFile>, chats: seq<ChatSummary>) {
    exists order: seq<string> ::
      |order| == |files| && (forall k :: k in order <==> k in files)
      && chats == SortDesc(Summaries(files, order), UpdatedKey)
  }

  /** What `list_chats` returns from a given visiting order is a listing. */
  lemma ListedInOrder(files: map<string, ChatFile>, order: seq<string>, chats: seq<ChatSummary>)
    requires |order| == |files| && (forall k :: k in order <==> k in files)
    requires chats == SortDesc(Summaries(files, order), UpdatedKey)
    ensures IsListing(files, chats)
  {
  }

  /** `get_history_sections` after `list_chats`: sorting the newest-first
      listing again, then grouping it by day. Every chat lands in exactly one
      section, and each section stays newest first. */
  method HistorySections(chats: seq<ChatSummary>, today: Date) returns (sections: map<string, seq<ChatSummary>>)
    requires Valid(today) && today != MinDate
    requires SortedDesc(chats, UpdatedKey)
    ensures sections == SectionMap(chats, today)
    ensures multiset(sections["Today"]) + multiset(sections["Yesterday"]) + multiset(sections["Older"])
            == multiset(chats)
    ensures forall sec :: SortedDesc(InSection(chats, sec, today), UpdatedKey)
  {
    SortDescOfSorted(chats, UpdatedKey);
    var sorted := SortDesc(chats, UpdatedKey);
    sections := GroupByDay(sorted, today);
    SectionsPartition(sorted, today);
  }
}

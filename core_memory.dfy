/** The chat store of `core/memory.py`: one JSON file per chat in the chats
    directory, modelled as a map from chat id to the parsed file (or to a
    file that does not parse). */
module CoreMemory {
  import opened Common

  datatype StoredMessage = StoredMessage(role: string, content: string, timestamp: string)

  datatype ChatRecord = ChatRecord(
    id: string, title: string, createdAt: string, updatedAt: string, messages: seq<StoredMessage>)

  /** A file in the chats directory: valid JSON of a chat, or content `json.load` rejects. */
  datatype ChatFile = Parsed(record: ChatRecord) | Corrupt

  /** What `load_chat` does: `None` for a missing file, the record, or an exception. */
  datatype Loaded = Missing | Found(record: ChatRecord) | Raised

  /** An entry of `list_chats`. */
  datatype ChatSummary = ChatSummary(id: string, title: string, updatedAt: string)

  const NewChatTitle := "New Chat"
  const TitleLength := 30

  /** The record `create_chat` writes, and `save_turn` writes when the file is missing. */
  function NewRecord(id: string, now: string): (r: ChatRecord)
    ensures r.title == NewChatTitle && r.messages == [] && r.createdAt == r.updatedAt
  {
    ChatRecord(id, NewChatTitle, now, now, [])
  }

  /** The automatic title: the first 30 characters of the user message, and
      "..." exactly when something was cut. */
  function AutoTitle(userMsg: string): (t: string)
    ensures Min(|userMsg|, TitleLength) <= |t| <= TitleLength + 3
    ensures t[..Min(|userMsg|, TitleLength)] == userMsg[..Min(|userMsg|, TitleLength)]
    ensures |userMsg| <= TitleLength ==> t == userMsg
    ensures |userMsg| > TitleLength ==> |t| == TitleLength + 3 && EndsWith(t, "...")
  {
    Prefix(userMsg, TitleLength) + (if |userMsg| > TitleLength then "..." else "")
  }

  /** The record after one turn: a user and an assistant message with the same
      timestamp are appended, the title is set only on the first turn, and
      the update time is the turn's. */
  function WithTurn(rec: ChatRecord, userMsg: string, aiMsg: string, now: string): (r: ChatRecord)
    ensures r.messages == rec.messages + [StoredMessage("user", userMsg, now), StoredMessage("assistant", aiMsg, now)]
    ensures r.title == if rec.messages == [] then AutoTitle(userMsg) else rec.title
    ensures r.updatedAt == now && r.id == rec.id && r.createdAt == rec.createdAt
  {
    var title := if |rec.messages| == 0 then AutoTitle(userMsg) else rec.title;
    rec.(title := title,
         messages := rec.messages + [StoredMessage("user", userMsg, now), StoredMessage("assistant", aiMsg, now)],
         updatedAt := now)
  }

  /** The title is fixed by the first turn; later turns keep it. */
  lemma TitleSetOnce(rec: ChatRecord, u1: string, a1: string, t1: string, u2: string, a2: string, t2: string)
    ensures WithTurn(WithTurn(rec, u1, a1, t1), u2, a2, t2).title == WithTurn(rec, u1, a1, t1).title
  {
  }

  /** The store after `save_turn`: a corrupt file makes `load_chat` raise and
      nothing is written; otherwise the turn is added to the stored record,
      or to a new one when the file is missing. */
  function AfterSaveTurn(files: map<string, ChatFile>, id: string, userMsg: string, aiMsg: string, now: string)
    : map<string, ChatFile>
  {
    if id in files && files[id].Corrupt? then files
    else
      var base := if id in files then files[id].record else NewRecord(id, now);
      files[id := Parsed(WithTurn(base, userMsg, aiMsg, now))]
  }

  /** Saving a turn leaves every other chat alone and, unless the file is
      corrupt, leaves a readable chat ending in the user and assistant messages. */
  lemma AfterSaveTurnEffect(files: map<string, ChatFile>, id: string, userMsg: string, aiMsg: string, now: string)
    ensures var r := AfterSaveTurn(files, id, userMsg, aiMsg, now);
            (id in files && files[id].Corrupt? ==> r == files)
            && (!(id in files && files[id].Corrupt?) ==>
                  id in r && r[id].Parsed? && r.Keys == files.Keys + {id}
                  && |r[id].record.messages| >= 2
                  && r[id].record.messages[|r[id].record.messages| - 2..]
                     == [StoredMessage("user", userMsg, now), StoredMessage("assistant", aiMsg, now)])
            && (forall k :: k != id && k in files ==> k in r && r[k] == files[k])
  {
  }

  /** `get_messages` keeps only role and content, in the same order and number. */
  function Project(msgs: seq<StoredMessage>): (r: seq<ChatMessage>)
    ensures |r| == |msgs|
    ensures forall i :: 0 <= i < |msgs| ==> r[i] == ChatMessage(msgs[i].role, msgs[i].content)
  {
    if |msgs| == 0 then [] else [ChatMessage(msgs[0].role, msgs[0].content)] + Project(msgs[1..])
  }

  function Summary(rec: ChatRecord): ChatSummary {
    ChatSummary(rec.id, rec.title, rec.updatedAt)
  }

  function UpdatedKey(c: ChatSummary): string { c.updatedAt }

  /** The summaries of the readable files among `keys`, in that order. */
  ghost function Summaries(files: map<string, ChatFile>, keys: seq<string>): seq<ChatSummary>
    requires forall k :: k in keys ==> k in files
  {
    if |keys| == 0 then []
    else
      var k := keys[|keys| - 1];
      Summaries(files, keys[..|keys| - 1]) + (if files[k].Parsed? then [Summary(files[k].record)] else [])
  }

  /** Every readable chat appears in a listing of all the keys, and only readable ones. */
  lemma {:induction false} SummariesCover(files: map<string, ChatFile>, keys: seq<string>, k: string)
    requires forall x :: x in keys ==> x in files
    requires k in keys && files[k].Parsed?
    ensures Summary(files[k].record) in Summaries(files, keys)
  {
    var last := keys[|keys| - 1];
    if k != last {
      assert k in keys[..|keys| - 1];
      SummariesCover(files, keys[..|keys| - 1], k);
    }
  }

  lemma {:induction false} SummariesSound(files: map<string, ChatFile>, keys: seq<string>, c: ChatSummary)
    requires forall x :: x in keys ==> x in files
    requires c in Summaries(files, keys)
    ensures exists k :: k in keys && files[k].Parsed? && c == Summary(files[k].record)
  {
    var last := keys[|keys| - 1];
    var init := keys[..|keys| - 1];
    if c in Summaries(files, init) {
      SummariesSound(files, init, c);
      var k :| k in init && files[k].Parsed? && c == Summary(files[k].record);
      assert k in keys;
    } else {
      assert c == Summary(files[last].record);
    }
  }

  class MemoryManager {
    var files: map<string, ChatFile>

    constructor(existing: map<string, ChatFile>)
      ensures files == existing
    {
      files := existing;
    }

    /** `create_chat`: the uuid and the clock reading are parameters;
        `writeFails` is `_save_file` raising, which leaves the store as it was. */
    method CreateChat(freshId: string, now: string, writeFails: bool) returns (id: string, raised: bool)
      modifies this
      ensures id == freshId && raised == writeFails
      ensures raised ==> files == old(files)
      ensures !raised ==> files == old(files)[id := Parsed(NewRecord(id, now))]
    {
      id := freshId;
      if writeFails {
        return id, true;
      }
      files := files[id := Parsed(NewRecord(id, now))];
      raised := false;
    }

    /** `load_chat`. */
    function LoadChat(id: string): (r: Loaded)
      reads this
      ensures r.Missing? <==> id !in files
      ensures r.Raised? <==> id in files && files[id].Corrupt?
      ensures r.Found? ==> Parsed(r.record) == files[id]
    {
      if id !in files then Missing
      else match files[id]
        case Parsed(rec) => Found(rec)
        case Corrupt => Raised
    }

    /** `save_turn`: `raised` is the exception `load_chat` throws on a corrupt
        file, or `_save_file` raising (`writeFails`); either leaves the store
        unchanged. A missing chat is recreated first. */
    method SaveTurn(id: string, userMsg: string, aiMsg: string, now: string, writeFails: bool) returns (raised: bool)
      modifies this
      ensures raised <==> old(LoadChat(id)).Raised? || writeFails
      ensures raised ==> files == old(files)
      ensures !raised ==> files == AfterSaveTurn(old(files), id, userMsg, aiMsg, now)
    {
      var loaded := LoadChat(id);
      match loaded {
        case Raised =>
          raised := true;
        case Missing =>
          raised := writeFails;
          if !writeFails {
            files := files[id := Parsed(WithTurn(NewRecord(id, now), userMsg, aiMsg, now))];
          }
        case Found(rec) =>
          raised := writeFails;
          if !writeFails {
            files := files[id := Parsed(WithTurn(rec, userMsg, aiMsg, now))];
          }
      }
    }

    /** `get_messages`: `None` is the exception from a corrupt file. */
    function GetMessages(id: string): (r: Option<seq<ChatMessage>>)
      reads this
      ensures id !in files ==> r == Some([])
      ensures r.None? <==> id in files && files[id].Corrupt?
      ensures id in files && files[id].Parsed? ==> r == Some(Project(files[id].record.messages))
    {
      match LoadChat(id)
      case Missing => Some([])
      case Raised => None
      case Found(rec) => Some(Project(rec.messages))
    }

    /** `list_chats`: every readable file gives a summary, unreadable ones are
        skipped, and the result is sorted by update time, newest first.
        `order` is the (arbitrary) order in which the directory was read. */
    method ListChats() returns (chats: seq<ChatSummary>, ghost order: seq<string>)
      ensures |order| == |files| && (forall k :: k in order <==> k in files)
      ensures chats == SortDesc(Summaries(files, order), UpdatedKey)
      ensures SortedDesc(chats, UpdatedKey)
      ensures multiset(chats) == multiset(Summaries(files, order))
    {
      var found: seq<ChatSummary> := [];
      var remaining := files.Keys;
      order := [];
      while remaining != {}
        invariant remaining <= files.Keys
        invariant forall k :: k in order ==> k in files && k !in remaining
        invariant forall k :: k in files ==> k in order || k in remaining
        invariant |order| + |remaining| == |files|
        invariant found == Summaries(files, order)
        decreases |remaining|
      {
        var k :| k in remaining;
        assert (order + [k])[..|order|] == order;
        match files[k] {
          case Parsed(rec) => found := found + [Summary(rec)];
          case Corrupt =>
        }
        order := order + [k];
        remaining := remaining - {k};
      }
      assert |files.Keys| == |files|;
      chats := SortDesc(found, UpdatedKey);
      SortDescCorrect(found, UpdatedKey);
    }

    /** `delete_chat`: a missing id changes nothing. */
    method DeleteChat(id: string)
      modifies this
      ensures files == old(files) - {id}
    {
      if id in files {
        files := files - {id};
      }
    }
  }
}

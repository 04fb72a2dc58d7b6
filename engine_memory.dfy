/** The engine's chat store of `engine/memory.py`: a directory of chat JSON
    files, modelled as a map from chat id to file. Failures are logged and
    mapped to `None` or `False` rather than raised. */
module EngineMemory {
  import opened Common

  datatype EngineChat = EngineChat(id: string, createdAt: string, messages: seq<ChatMessage>)

  /** A chat file: stored data, or a file that cannot be opened or parsed. */
  datatype EngineFile = Stored(chat: EngineChat) | Unreadable

  /** An entry of `list_chats`. */
  datatype ChatEntry = ChatEntry(id: string, createdAt: string, preview: string)

  const PreviewLength := 50
  const EmptyPreview := "Empty"

  /** The first 50 characters of the first message, or "Empty" for a chat without messages. */
  function Preview(messages: seq<ChatMessage>): (p: string)
    ensures messages == [] ==> p == EmptyPreview
    ensures messages != [] ==> |p| <= PreviewLength && StartsWith(messages[0].content, p)
    ensures messages != [] && |messages[0].content| <= PreviewLength ==> p == messages[0].content
  {
    if messages == [] then EmptyPreview else Prefix(messages[0].content, PreviewLength)
  }

  function Entry(c: EngineChat): ChatEntry {
    ChatEntry(c.id, c.createdAt, Preview(c.messages))
  }

  function CreatedKey(e: ChatEntry): string { e.createdAt }

  /** The entries of the readable files among `keys`, in that order. */
  ghost function Entries(files: map<string, EngineFile>, keys: seq<string>): seq<ChatEntry>
    requires forall k :: k in keys ==> k in files
  {
    if |keys| == 0 then []
    else
      var k := keys[|keys| - 1];
      Entries(files, keys[..|keys| - 1]) + (if files[k].Stored? then [Entry(files[k].chat)] else [])
  }

  /** A listing has exactly one entry per readable chat file. */
  lemma {:induction false} EntriesCount(files: map<string, EngineFile>, keys: seq<string>)
    requires forall k :: k in keys ==> k in files
    ensures |Entries(files, keys)| == |set i | 0 <= i < |keys| && files[keys[i]].Stored?|
  {
    if |keys| > 0 {
      var init := keys[..|keys| - 1];
      EntriesCount(files, init);
      var n := |keys| - 1;
      var before := set i | 0 <= i < |init| && files[init[i]].Stored?;
      var after := set i | 0 <= i < |keys| && files[keys[i]].Stored?;
      if files[keys[n]].Stored? {
        assert after == before + {n};
      } else {
        assert after == before;
      }
    }
  }

  class Memory {
    var files: map<string, EngineFile>

    constructor(existing: map<string, EngineFile>)
      ensures files == existing
    {
      files := existing;
    }

    /** `save_chat`: a failed write is logged and leaves the directory as it was. */
    method SaveChat(id: string, data: EngineChat, writeSucceeds: bool)
      modifies this
      ensures writeSucceeds ==> files == old(files)[id := Stored(data)]
      ensures !writeSucceeds ==> files == old(files)
    {
      if writeSucceeds {
        files := files[id := Stored(data)];
      }
    }

    /** `create_chat`: the uuid and the UTC clock reading are parameters. */
    method CreateChat(freshId: string, now: string, writeSucceeds: bool) returns (id: string)
      modifies this
      ensures id == freshId
      ensures writeSucceeds ==> files == old(files)[id := Stored(EngineChat(id, now, []))]
      ensures !writeSucceeds ==> files == old(files)
    {
      id := freshId;
      SaveChat(id, EngineChat(id, now, []), writeSucceeds);
    }

    /** `get_chat`: `None` for a missing file and for one that cannot be read. */
    function GetChat(id: string): (r: Option<EngineChat>)
      reads this
      ensures id !in files ==> r.None?
      ensures r.Some? <==> id in files && files[id].Stored?
      ensures r.Some? ==> files[id] == Stored(r.value)
    {
      if id in files && files[id].Stored? then Some(files[id].chat) else None
    }

    /** `delete_chat`: true exactly when an existing file was removed. */
    method DeleteChat(id: string, removeSucceeds: bool) returns (deleted: bool)
      modifies this
      ensures deleted <==> id in old(files) && removeSucceeds
      ensures deleted ==> files == old(files) - {id}
      ensures !deleted ==> files == old(files)
    {
      if id in files && removeSucceeds {
        files := files - {id};
        deleted := true;
      } else {
        deleted := false;
      }
    }

    /** `list_chats`: one entry per readable chat, newest creation first. */
    method ListChats() returns (chats: seq<ChatEntry>, ghost order: seq<string>)
      ensures |order| == |files| && (forall k :: k in order <==> k in files)
      ensures chats == SortDesc(Entries(files, order), CreatedKey)
      ensures SortedDesc(chats, CreatedKey)
      ensures multiset(chats) == multiset(Entries(files, order))
    {
      var found: seq<ChatEntry> := [];
      var remaining := files.Keys;
      order := [];
      while remaining != {}
        invariant remaining <= files.Keys
        invariant forall k :: k in order ==> k in files && k !in remaining
        invariant forall k :: k in files ==> k in order || k in remaining
        invariant |order| + |remaining| == |files|
        invariant found == Entries(files, order)
        decreases |remaining|
      {
        var k :| k in remaining;
        assert (order + [k])[..|order|] == order;
        var data := GetChat(k);
        if data.Some? {
          found := found + [Entry(data.value)];
        }
        order := order + [k];
        remaining := remaining - {k};
      }
      assert |files.Keys| == |files|;
      chats := SortDesc(found, CreatedKey);
      SortDescCorrect(found, CreatedKey);
    }
  }

  /** Saving and then reading a chat gives back the saved data; other chats are untouched. */
  method SaveThenGet(m: Memory, id: string, data: EngineChat, other: string) returns (got: Option<EngineChat>)
    modifies m
    requires other != id
    ensures got == Some(data)
    ensures m.GetChat(other) == old(m.GetChat(other))
  {
    m.SaveChat(id, data, true);
    got := m.GetChat(id);
  }
}

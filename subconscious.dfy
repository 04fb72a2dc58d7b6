/** What the reflection and growth services of `domain/subconscious/` and the
    two reflectors (`engine/modules/reflector.py`, `archive/reflector.py`)
    share: the brain a job is sent to, the day's transcript, the text of a
    generation, the journal's file names and the search for the latest
    journal entry. The reflections directory is a map from file name to
    content. */
module Subconscious {
  import opened Common
  import opened Calendar
  import opened NetworkRouter

  const Pending := "Pending"
  const NoData := "No Data"
  const Failed := "Failed"
  const Completed := "Completed"

  /** One chunk of `generate_response`: its `error` entry, and the `content`
      of its `message` entry (`""` when the message has no content). */
  datatype BrainChunk = BrainChunk(error: Option<string>, message: Option<string>)

  /** A finished generation: the chunks it yields, and whether it raises after them. */
  datatype Generation = Generation(chunks: seq<BrainChunk>, raises: bool)

  datatype BrainTarget = BrainTarget(host: string, model: string)

  /** What a reflection asks of the brain: where, and about which transcript
      (the prompt's fixed prose is not part of this model). */
  datatype ReflectionRequest = ReflectionRequest(target: BrainTarget, transcript: string)

  /** What a growth update asks of the brain: where, the growth text it starts
      from and the reflection it folds in. */
  datatype GrowthRequest = GrowthRequest(target: BrainTarget, previous: string, reflection: string)

  /** The brain of a job that prefers the remote host: remote host and model
      exactly while the router sees the remote host online, local otherwise. */
  function TargetFor(remoteOnline: bool): (t: BrainTarget)
    ensures t.host == RemoteBrain <==> remoteOnline
    ensures t.model == RemoteModel <==> remoteOnline
    ensures !remoteOnline ==> t == BrainTarget(LocalBrain, LocalModel)
  {
    HostsDiffer();
    if remoteOnline then BrainTarget(RemoteBrain, RemoteModel) else BrainTarget(LocalBrain, LocalModel)
  }

  // ---------------------------------------------------------------------------
  // Transcript

  /** The speaker label of a transcript line. */
  function Speaker(role: string): string {
    if role == "user" then "Tim" else "Erika"
  }

  function Line(m: ChatMessage): string {
    Speaker(m.role) + ": " + m.content
  }

  /** The lines of one chat, message by message. */
  function ChatLines(msgs: seq<ChatMessage>): seq<string> {
    if msgs == [] then [] else ChatLines(msgs[..|msgs| - 1]) + [Line(msgs[|msgs| - 1])]
  }

  /** The lines of the day's chats, chat by chat. */
  function TranscriptLines(chats: seq<seq<ChatMessage>>): seq<string> {
    if chats == [] then [] else TranscriptLines(chats[..|chats| - 1]) + ChatLines(chats[|chats| - 1])
  }

  /** The number of messages in all the chats. */
  function MessageCount(chats: seq<seq<ChatMessage>>): nat {
    if chats == [] then 0 else MessageCount(chats[..|chats| - 1]) + |chats[|chats| - 1]|
  }

  /** One line per message, in order, labelled "Tim" for the user and "Erika" otherwise. */
  lemma {:induction false} ChatLinesSpec(msgs: seq<ChatMessage>)
    ensures |ChatLines(msgs)| == |msgs|
    ensures forall i :: 0 <= i < |msgs| ==> ChatLines(msgs)[i] == Line(msgs[i])
  {
    if msgs != [] {
      ChatLinesSpec(msgs[..|msgs| - 1]);
    }
  }

  /** Each message of each chat gives one line, and every line is labelled. */
  lemma {:induction false} TranscriptLinesSpec(chats: seq<seq<ChatMessage>>)
    ensures |TranscriptLines(chats)| == MessageCount(chats)
    ensures forall i :: 0 <= i < |TranscriptLines(chats)| ==>
              StartsWith(TranscriptLines(chats)[i], "Tim: ") || StartsWith(TranscriptLines(chats)[i], "Erika: ")
  {
    if chats != [] {
      var init := chats[..|chats| - 1];
      var last := chats[|chats| - 1];
      TranscriptLinesSpec(init);
      ChatLinesSpec(last);
      var ls := TranscriptLines(chats);
      forall i | 0 <= i < |ls|
        ensures StartsWith(ls[i], "Tim: ") || StartsWith(ls[i], "Erika: ")
      {
        if i >= |TranscriptLines(init)| {
          var m := last[i - |TranscriptLines(init)|];
          assert ls[i] == Line(m);
          assert Line(m)[..|Speaker(m.role) + ": "|] == Speaker(m.role) + ": ";
        }
      }
    }
  }

  /** The joined transcript is empty exactly when the chats hold no message. */
  lemma TranscriptEmptyIff(chats: seq<seq<ChatMessage>>)
    ensures Join(TranscriptLines(chats), "\n") == "" <==> MessageCount(chats) == 0
  {
    TranscriptLinesSpec(chats);
    var ls := TranscriptLines(chats);
    if |ls| > 0 {
      assert StartsWith(ls[0], "Tim: ") || StartsWith(ls[0], "Erika: ");
      assert ls[0] != "";
      JoinNonEmpty(ls, "\n");
    }
  }

  /** The inner loop of `_build_transcript`: one more line per message of one chat. */
  method AddChatLines(lines: seq<string>, msgs: seq<ChatMessage>) returns (out: seq<string>)
    ensures out == lines + ChatLines(msgs)
  {
    out := lines;
    var k := 0;
    while k < |msgs|
      invariant 0 <= k <= |msgs|
      invariant out == lines + ChatLines(msgs[..k])
    {
      assert msgs[..k + 1][..k] == msgs[..k];
      out := out + [Line(msgs[k])];
      k := k + 1;
    }
    assert msgs[..k] == msgs;
  }

  /** `_build_transcript`: `"\n".join` of one line per message. */
  method BuildTranscript(chats: seq<seq<ChatMessage>>) returns (transcript: string)
    ensures transcript == Join(TranscriptLines(chats), "\n")
    ensures transcript == "" <==> MessageCount(chats) == 0
  {
    var lines: seq<string> := [];
    var c := 0;
    while c < |chats|
      invariant 0 <= c <= |chats|
      invariant lines == TranscriptLines(chats[..c])
    {
      lines := AddChatLines(lines, chats[c]);
      assert chats[..c + 1][..c] == chats[..c];
      c := c + 1;
    }
    assert chats[..c] == chats;
    transcript := Join(lines, "\n");
    TranscriptEmptyIff(chats);
  }

  // ---------------------------------------------------------------------------
  // Generated text

  /** The reply: the content of every chunk that carries a `message`, in order. */
  function MessageText(chunks: seq<BrainChunk>): string {
    if chunks == [] then "" else MessageText(chunks[..|chunks| - 1]) + chunks[|chunks| - 1].message.GetOr("")
  }

  predicate HasError(chunks: seq<BrainChunk>) {
    exists i :: 0 <= i < |chunks| && chunks[i].error.Some?
  }

  /** The text of two pieces of a stream is the text of the first and then of the second. */
  lemma {:induction false} MessageTextAppend(a: seq<BrainChunk>, b: seq<BrainChunk>)
    ensures MessageText(a + b) == MessageText(a) + MessageText(b)
  {
    if b == [] {
      assert a + b == a;
    } else {
      var init := b[..|b| - 1];
      var last := b[|b| - 1].message.GetOr("");
      MessageTextAppend(a, init);
      assert (a + b)[..|a + b| - 1] == a + init;
      assert (a + b)[|a + b| - 1] == b[|b| - 1];
      calc {
        MessageText(a + b);
        MessageText(a + init) + last;
        MessageText(a) + MessageText(init) + last;
        MessageText(a) + (MessageText(init) + last);
      }
    }
  }

  /** A chunk without a `message` (an error chunk, say) adds nothing to the text. */
  lemma MessageTextSkips(a: seq<BrainChunk>, c: BrainChunk, b: seq<BrainChunk>)
    requires c.message.None?
    ensures MessageText(a + [c] + b) == MessageText(a + b)
  {
    MessageTextAppend(a + [c], b);
    MessageTextAppend(a, b);
    assert (a + [c])[..|a|] == a;
  }

  /** The `async for` that adds up the `message` contents and passes over every other chunk. */
  method CollectMessages(chunks: seq<BrainChunk>) returns (text: string)
    ensures text == MessageText(chunks)
  {
    text := "";
    var i := 0;
    while i < |chunks|
      invariant 0 <= i <= |chunks|
      invariant text == MessageText(chunks[..i])
    {
      assert chunks[..i + 1][..i] == chunks[..i];
      if chunks[i].message.Some? {
        text := text + chunks[i].message.value;
      }
      i := i + 1;
    }
    assert chunks[..i] == chunks;
  }

  // ---------------------------------------------------------------------------
  // Journal

  /** `f"day_{date_str}.md"`. */
  function ReflectionFileName(d: Date): string
    requires Valid(d)
  {
    "day_" + FormatDmy(d) + ".md"
  }

  /** The saved document: a heading with the date, a blank line, the reflection. */
  function ReflectionDocument(d: Date, text: string): string
    requires Valid(d)
  {
    "# Morning Perspective: " + FormatDmy(d) + "\n\n" + text
  }

  /** The date in a journal file name: `f[4:-3]` read as `DD-MM-YYYY`. */
  function FileNameDate(f: string): Option<Date> {
    ParseDmy(Slice(f, 4, if |f| >= 3 then |f| - 3 else 0))
  }

  /** A name the search for the latest entry takes into account. */
  predicate Dated(f: string) {
    EndsWith(f, ".md") && FileNameDate(f).Some?
  }

  /** The file a reflection is saved under is found again, with its date. */
  lemma FileNameRoundTrip(d: Date)
    requires Valid(d)
    ensures Dated(ReflectionFileName(d)) && FileNameDate(ReflectionFileName(d)) == Some(d)
  {
    var f := ReflectionFileName(d);
    assert Slice(f, 4, |f| - 3) == FormatDmy(d);
    ParseFormatDmy(d);
  }

  /** The name the scan of `names` settles on: a dated name replaces the one
      held only when its date is strictly later, so the first of equal dates stays. */
  function LatestFile(names: seq<string>): (r: Option<string>)
    ensures r.Some? ==> Dated(r.value)
  {
    if names == [] then None else LatestStep(LatestFile(names[..|names| - 1]), names[|names| - 1])
  }

  /** One step of the scan: `f` replaces the name held when it is dated later. */
  function LatestStep(held: Option<string>, f: string): Option<string>
    requires held.Some? ==> Dated(held.value)
  {
    if Dated(f) && (held.None? || Before(FileNameDate(held.value).value, FileNameDate(f).value)) then Some(f)
    else held
  }

  lemma LatestFileSnoc(names: seq<string>, f: string)
    ensures LatestFile(names + [f]) == LatestStep(LatestFile(names), f)
  {
    assert (names + [f])[..|names|] == names;
  }

  /** No name is picked exactly when no name is dated; a picked name is one of
      `names` and no dated name carries a later date. */
  lemma {:induction false} LatestFileSpec(names: seq<string>)
    ensures LatestFile(names).None? <==> forall i :: 0 <= i < |names| ==> !Dated(names[i])
    ensures LatestFile(names).Some? ==>
              LatestFile(names).value in names
              && forall i :: 0 <= i < |names| && Dated(names[i]) ==>
                   !Before(FileNameDate(LatestFile(names).value).value, FileNameDate(names[i]).value)
  {
    if names != [] {
      var init := names[..|names| - 1];
      var f := names[|names| - 1];
      LatestFileSpec(init);
      var held := LatestFile(init);
      var r := LatestFile(names);
      assert forall i :: 0 <= i < |init| ==> names[i] == init[i];
      if r.Some? {
        var top := FileNameDate(r.value).value;
        forall i | 0 <= i < |names| && Dated(names[i])
          ensures !Before(top, FileNameDate(names[i]).value)
        {
          if i < |init| && held.Some? && r.value == f {
            var h := FileNameDate(held.value).value;
            if Before(top, FileNameDate(names[i]).value) {
              BeforeTrans(h, top, FileNameDate(names[i]).value);
            }
          }
        }
      }
    }
  }

  /** The listing is the directory's names. */
  predicate Lists(listing: seq<string>, dir: map<string, string>) {
    (forall i :: 0 <= i < |listing| ==> listing[i] in dir) && (forall f :: f in dir ==> f in listing)
  }

  /** The `.md` names of `listing`, in order: dropping the others does not
      change which name the scan settles on. */
  method MarkdownFiles(listing: seq<string>) returns (files: seq<string>)
    ensures LatestFile(files) == LatestFile(listing)
    ensures forall i :: 0 <= i < |files| ==> EndsWith(files[i], ".md")
  {
    files := [];
    var k := 0;
    while k < |listing|
      invariant 0 <= k <= |listing|
      invariant LatestFile(files) == LatestFile(listing[..k])
      invariant forall i :: 0 <= i < |files| ==> EndsWith(files[i], ".md")
    {
      assert listing[..k + 1] == listing[..k] + [listing[k]];
      LatestFileSnoc(listing[..k], listing[k]);
      if EndsWith(listing[k], ".md") {
        LatestFileSnoc(files, listing[k]);
        files := files + [listing[k]];
      }
      k := k + 1;
    }
    assert listing[..k] == listing;
  }

  /** The scan over `.md` names keeping the latest date seen so far. */
  method ScanLatest(files: seq<string>) returns (latestFile: Option<string>)
    requires forall i :: 0 <= i < |files| ==> EndsWith(files[i], ".md")
    ensures latestFile == LatestFile(files)
  {
    latestFile := None;
    var latestDate: Option<Date> := None;
    var i := 0;
    while i < |files|
      invariant 0 <= i <= |files|
      invariant latestFile == LatestFile(files[..i])
      invariant latestFile.Some? <==> latestDate.Some?
      invariant latestFile.Some? ==> latestDate == FileNameDate(latestFile.value)
    {
      assert files[..i + 1] == files[..i] + [files[i]];
      LatestFileSnoc(files[..i], files[i]);
      var dt := FileNameDate(files[i]);
      if dt.Some? && (latestDate.None? || Before(latestDate.value, dt.value)) {
        latestDate := dt;
        latestFile := Some(files[i]);
      }
      i := i + 1;
    }
    assert files[..i] == files;
  }

  /** `get_latest_reflection` over the reflections directory, scanned in the
      order of `listing`: the content of the `.md` file with the latest date,
      or `""` when no file name carries one (a missing directory is empty). */
  method LatestReflection(dir: map<string, string>, listing: seq<string>) returns (text: string)
    requires Lists(listing, dir)
    ensures LatestFile(listing).None? ==> text == ""
    ensures LatestFile(listing).Some? ==> LatestFile(listing).value in dir && text == dir[LatestFile(listing).value]
  {
    var files := MarkdownFiles(listing);
    if files == [] {
      return "";
    }
    var latestFile := ScanLatest(files);
    LatestFileSpec(listing);
    if latestFile.Some? && latestFile.value != "" {
      text := dir[latestFile.value];
    } else {
      text := "";
    }
  }

  /** What the journal search gives back: the latest-dated entry, `""` when there is none. */
  lemma LatestReflectionSpec(dir: map<string, string>, listing: seq<string>)
    requires Lists(listing, dir)
    ensures LatestFile(listing).None? <==> forall f :: f in dir ==> !Dated(f)
    ensures LatestFile(listing).Some? ==>
              LatestFile(listing).value in dir
              && forall f :: f in dir && Dated(f) ==>
                   !Before(FileNameDate(LatestFile(listing).value).value, FileNameDate(f).value)
  {
    LatestFileSpec(listing);
    if LatestFile(listing).None? {
      forall f | f in dir ensures !Dated(f) {
        var i :| 0 <= i < |listing| && listing[i] == f;
      }
    }
    if LatestFile(listing).Some? {
      forall f | f in dir && Dated(f)
        ensures !Before(FileNameDate(LatestFile(listing).value).value, FileNameDate(f).value)
      {
        var i :| 0 <= i < |listing| && listing[i] == f;
      }
    }
  }
}

/** The reflector of `engine/modules/reflector.py`: the remote-only
    predecessor of the reflection service. It asks only the remote brain,
    reads only message chunks (an error chunk is passed over, so a stream
    that reports an error still saves a reflection, possibly empty). A
    stream exception is reported as "Failed"; a failing save is not caught
    and leaves the method. */
module EngineReflector {
  import opened Common
  import opened Calendar
  import opened NetworkRouter
  import opened Subconscious

  const RemoteTarget := BrainTarget(RemoteBrain, RemoteModel)

  class Reflector {
    const router: BrainRouter
    /** The reflections directory: file name to content. */
    var reflections: map<string, string>

    constructor(router: BrainRouter, existing: map<string, string>)
      ensures this.router == router && reflections == existing
    {
      this.router := router;
      reflections := existing;
    }

    /** `reflect_on_day`. `status` is `None` when the save raised out of it
        (`writeFails`: `open` of the reflection file raising, which nothing
        here catches); the directory is then left as it was. */
    method ReflectOnDay(date: Date, chats: seq<seq<ChatMessage>>, g: Generation, writeFails: bool)
      returns (status: Option<string>, asked: Option<ReflectionRequest>)
      requires Valid(date)
      modifies this
      ensures !router.remoteOnline ==> status == Some(Pending) && asked.None?
      ensures router.remoteOnline ==> (asked.Some? <==> MessageCount(chats) > 0)
      ensures router.remoteOnline && MessageCount(chats) == 0 ==> status == Some(NoData)
      ensures asked.Some? ==>
                asked.value == ReflectionRequest(RemoteTarget, Join(TranscriptLines(chats), "\n"))
                && (status == Some(Failed) <==> g.raises)
                && (status.None? <==> !g.raises && writeFails)
                && (status == Some(Completed) <==> !g.raises && !writeFails)
      ensures status == Some(Completed) ==>
                reflections == old(reflections)[ReflectionFileName(date) := ReflectionDocument(date, MessageText(g.chunks))]
      ensures status != Some(Completed) ==> reflections == old(reflections)
    {
      if !router.remoteOnline {
        return Some(Pending), None;
      }
      if chats == [] {
        return Some(NoData), None;
      }
      var transcript := BuildTranscript(chats);
      if transcript == "" {
        return Some(NoData), None;
      }
      asked := Some(ReflectionRequest(RemoteTarget, transcript));
      var fullResponse := CollectMessages(g.chunks);
      if g.raises {
        return Some(Failed), asked;
      }
      if writeFails {
        return None, asked;
      }
      reflections := reflections[ReflectionFileName(date) := ReflectionDocument(date, fullResponse)];
      status := Some(Completed);
    }

    /** `get_latest_reflection` on this reflector's directory. */
    method GetLatestReflection(listing: seq<string>) returns (text: string)
      requires Lists(listing, reflections)
      ensures LatestFile(listing).None? ==> text == ""
      ensures LatestFile(listing).Some? ==> LatestFile(listing).value in reflections && text == reflections[LatestFile(listing).value]
    {
      text := LatestReflection(reflections, listing);
    }
  }

  /** A stream holding only error chunks yields an empty reflection, which
      this reflector still saves. */
  lemma ErrorOnlyStreamIsEmpty(chunks: seq<BrainChunk>)
    requires forall i :: 0 <= i < |chunks| ==> chunks[i].message.None?
    ensures MessageText(chunks) == ""
  {
    if chunks != [] {
      var init := chunks[..|chunks| - 1];
      assert forall i :: 0 <= i < |init| ==> init[i] == chunks[i];
      ErrorOnlyStreamIsEmpty(init);
    }
  }
}

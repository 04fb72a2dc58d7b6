/** The nightly reflection of `domain/subconscious/reflection_service.py`:
    the day's chats become a transcript, the brain writes a diary entry from
    it, and the entry is saved in the reflections directory. The brain's
    stream, the day's chats and the outcome of the file write are inputs. */
module ReflectionServiceModel {
  import opened Common
  import opened Calendar
  import opened NetworkRouter
  import opened Subconscious

  /** The stream loop of `reflect_on_day`: message contents are added up
      until the first chunk that carries an `error`. */
  method ReadUntilError(chunks: seq<BrainChunk>) returns (text: string, hitError: bool)
    ensures hitError <==> HasError(chunks)
    ensures !hitError ==> text == MessageText(chunks)
  {
    text := "";
    hitError := false;
    var i := 0;
    while i < |chunks|
      invariant 0 <= i <= |chunks|
      invariant text == MessageText(chunks[..i])
      invariant forall j :: 0 <= j < i ==> chunks[j].error.None?
    {
      if chunks[i].error.Some? {
        hitError := true;
        return;
      }
      assert chunks[..i + 1][..i] == chunks[..i];
      if chunks[i].message.Some? {
        text := text + chunks[i].message.value;
      }
      i := i + 1;
    }
    assert chunks[..i] == chunks;
  }

  /** Whether a stream yields a reflection worth saving: no error chunk, no
      exception, and text that is not blank. */
  predicate Usable(g: Generation) {
    !HasError(g.chunks) && !g.raises && !IsBlank(MessageText(g.chunks))
  }

  /** An error chunk anywhere in the stream makes it unusable, whatever the
      message chunks around it say. */
  lemma ErrorChunkSpoils(a: seq<BrainChunk>, e: BrainChunk, b: seq<BrainChunk>, raises: bool)
    requires e.error.Some?
    ensures !Usable(Generation(a + [e] + b, raises))
  {
    assert (a + [e] + b)[|a|] == e;
  }

  class ReflectionService {
    const router: BrainRouter
    /** The reflections directory: file name to content. */
    var reflections: map<string, string>

    /** `__init__`; the directory already holds `existing` (it is created empty when missing). */
    constructor(router: BrainRouter, existing: map<string, string>)
      ensures this.router == router && reflections == existing
    {
      this.router := router;
      reflections := existing;
    }

    /** `reflect_on_day`. `asked` is the brain call made, if any; `writeFails`
        is an exception from opening the file. */
    method ReflectOnDay(date: Date, chats: seq<seq<ChatMessage>>, g: Generation, writeFails: bool)
      returns (status: string, content: Option<string>, asked: Option<ReflectionRequest>)
      requires Valid(date)
      modifies this
      ensures asked.Some? <==> MessageCount(chats) > 0
      ensures asked.Some? ==>
                asked.value == ReflectionRequest(TargetFor(router.remoteOnline), Join(TranscriptLines(chats), "\n"))
      ensures MessageCount(chats) == 0 ==> status == NoData
      ensures MessageCount(chats) > 0 ==> (status == Completed <==> Usable(g) && !writeFails)
      ensures status == Completed || status == NoData || status == Failed
      ensures status == NoData <==> MessageCount(chats) == 0
      ensures MessageCount(chats) > 0 && !(Usable(g) && !writeFails) ==> status == Failed
      ensures status == Completed ==>
                content == Some(MessageText(g.chunks))
                && reflections == old(reflections)[ReflectionFileName(date) := ReflectionDocument(date, MessageText(g.chunks))]
      ensures status != Completed ==> content.None? && reflections == old(reflections)
    {
      var remoteOnline := router.remoteOnline;
      var target := TargetFor(remoteOnline);
      if chats == [] {
        return NoData, None, None;
      }
      var transcript := BuildTranscript(chats);
      if transcript == "" {
        return NoData, None, None;
      }
      asked := Some(ReflectionRequest(target, transcript));
      var fullResponse, generationError := ReadUntilError(g.chunks);
      if generationError {
        return Failed, None, asked;
      }
      // an exception from the stream comes after its last chunk
      if g.raises {
        return Failed, None, asked;
      }
      if fullResponse == "" || IsBlank(fullResponse) {
        return Failed, None, asked;
      }
      if writeFails {
        return Failed, None, asked;
      }
      reflections := reflections[ReflectionFileName(date) := ReflectionDocument(date, fullResponse)];
      status, content := Completed, Some(fullResponse);
    }

    /** `get_latest_reflection` on this service's directory. */
    method GetLatestReflection(listing: seq<string>) returns (text: string)
      requires Lists(listing, reflections)
      ensures LatestFile(listing).None? ==> text == ""
      ensures LatestFile(listing).Some? ==> LatestFile(listing).value in reflections && text == reflections[LatestFile(listing).value]
    {
      text := LatestReflection(reflections, listing);
    }
  }

  /** A reflection that was saved is the one the next search finds when no
      other entry is dated later. */
  lemma SavedReflectionIsFound(dir: map<string, string>, date: Date, text: string, listing: seq<string>)
    requires Valid(date)
    requires forall f :: f in dir && Dated(f) && f != ReflectionFileName(date) ==> Before(FileNameDate(f).value, date)
    requires Lists(listing, dir[ReflectionFileName(date) := ReflectionDocument(date, text)])
    ensures LatestFile(listing) == Some(ReflectionFileName(date))
  {
    var dir' := dir[ReflectionFileName(date) := ReflectionDocument(date, text)];
    var name := ReflectionFileName(date);
    FileNameRoundTrip(date);
    LatestReflectionSpec(dir', listing);
    assert name in dir' && Dated(name);
  }
}

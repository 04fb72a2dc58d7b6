/** The archived reflector of `archive/reflector.py`: the engine reflector
    followed by a personality update, both on the remote brain. Saving the
    reflection and reading the growth file are not guarded: an exception
    from either leaves this reflector, the second after the reflection was
    saved. */
module ArchiveReflector {
  import opened Common
  import opened Calendar
  import opened NetworkRouter
  import opened Subconscious
  import opened GrowthServiceModel

  const RemoteTarget := BrainTarget(RemoteBrain, RemoteModel)

  class Reflector {
    const router: BrainRouter
    /** The reflections directory: file name to content. */
    var reflections: map<string, string>
    /** `erika_growth.md`; `None` while it does not exist. */
    var growth: Option<string>

    constructor(router: BrainRouter, existing: map<string, string>, growthFile: Option<string>)
      ensures this.router == router && reflections == existing && growth == growthFile
    {
      this.router := router;
      reflections := existing;
      growth := growthFile;
    }

    /** `evolve_personality`. `raised` is an exception while reading an existing
        growth file; an exception from the stream or from the write
        (`writeFails`) is swallowed. */
    method EvolvePersonality(latestReflection: string, readFails: bool, g: Generation, writeFails: bool)
      returns (raised: bool, asked: Option<GrowthRequest>)
      modifies this
      ensures raised <==> old(growth).Some? && readFails
      ensures raised ==> asked.None? && growth == old(growth)
      ensures !raised ==>
                asked == Some(GrowthRequest(RemoteTarget, PreviousGrowth(old(growth), false), latestReflection))
                && growth == GrowthAfter(old(growth), g, writeFails)
      ensures reflections == old(reflections)
    {
      var currentGrowth := "";
      if growth.Some? {
        if readFails {
          return true, None;
        }
        currentGrowth := growth.value;
      }
      raised := false;
      asked := Some(GrowthRequest(RemoteTarget, currentGrowth, latestReflection));
      var newGrowth := CollectMessages(g.chunks);
      if g.raises {
        return;
      }
      // `makedirs` or `open` raising inside the `try` leaves the file as it was
      if newGrowth != "" && !writeFails {
        growth := Some(newGrowth);
      }
    }

    /** `reflect_on_day`. `status` is `None` when an exception left it: the
        save of the reflection (`writeFails`, not caught), or the growth read
        after the reflection was written. */
    method ReflectOnDay(date: Date, chats: seq<seq<ChatMessage>>, g: Generation, writeFails: bool,
                        growthReadFails: bool, growthStream: Generation, growthWriteFails: bool)
      returns (status: Option<string>, asked: Option<ReflectionRequest>, growthAsked: Option<GrowthRequest>)
      requires Valid(date)
      modifies this
      ensures !router.remoteOnline ==> status == Some(Pending) && asked.None?
      ensures router.remoteOnline ==> (asked.Some? <==> MessageCount(chats) > 0)
      ensures router.remoteOnline && MessageCount(chats) == 0 ==> status == Some(NoData)
      ensures asked.Some? ==> asked.value == ReflectionRequest(RemoteTarget, Join(TranscriptLines(chats), "\n"))
      ensures asked.Some? && g.raises ==> status == Some(Failed)
      ensures asked.Some? && !g.raises && writeFails ==> status.None?
      ensures asked.Some? && !g.raises && !writeFails ==>
                reflections == old(reflections)[ReflectionFileName(date) := ReflectionDocument(date, MessageText(g.chunks))]
                && (status.None? <==> old(growth).Some? && growthReadFails)
                && (status.Some? ==> status == Some(Completed))
      ensures !(asked.Some? && !g.raises && !writeFails) ==>
                reflections == old(reflections) && growth == old(growth) && growthAsked.None?
      ensures growthAsked.Some? ==>
                growthAsked.value == GrowthRequest(RemoteTarget, PreviousGrowth(old(growth), false), MessageText(g.chunks))
                && growth == GrowthAfter(old(growth), growthStream, growthWriteFails)
      ensures status.None? ==> growth == old(growth) && growthAsked.None?
      ensures status == Some(Completed) ==>
                growthAsked == Some(GrowthRequest(RemoteTarget, PreviousGrowth(old(growth), false), MessageText(g.chunks)))
                && growth == GrowthAfter(old(growth), growthStream, growthWriteFails)
      ensures growthAsked.None? ==> growth == old(growth)
    {
      if !router.remoteOnline {
        return Some(Pending), None, None;
      }
      if chats == [] {
        return Some(NoData), None, None;
      }
      var transcript := BuildTranscript(chats);
      if transcript == "" {
        return Some(NoData), None, None;
      }
      asked := Some(ReflectionRequest(RemoteTarget, transcript));
      var fullResponse := CollectMessages(g.chunks);
      if g.raises {
        return Some(Failed), asked, None;
      }
      if writeFails {
        return None, asked, None;
      }
      reflections := reflections[ReflectionFileName(date) := ReflectionDocument(date, fullResponse)];
      var raised;
      raised, growthAsked := EvolvePersonality(fullResponse, growthReadFails, growthStream, growthWriteFails);
      if raised {
        return None, asked, None;
      }
      status := Some(Completed);
    }

    /** `get_latest_reflection` on this reflector's directory. */
    method GetLatestReflection(listing: seq<string>) returns (text: string)
      requires Lists(listing, reflections)
      ensures LatestFile(listing).None? ==> text == ""
      ensures LatestFile(listing).Some? ==> LatestFile(listing).value in reflections && text == reflections[LatestFile(listing).value]
    {
      text := LatestReflection(reflections, listing);
    }
  }
}

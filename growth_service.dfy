/** The personality update of `domain/subconscious/growth_service.py`: the
    brain rewrites the growth profile from the previous one and the latest
    reflection, and the profile file is replaced only by a non-empty text. */
module GrowthServiceModel {
  import opened Common
  import opened NetworkRouter
  import opened Subconscious

  /** The growth text a prompt starts from: the file's content, `""` when the
      file is missing or cannot be read. */
  function PreviousGrowth(file: Option<string>, readFails: bool): (prev: string)
    ensures file.None? || readFails ==> prev == ""
    ensures file.Some? && !readFails ==> prev == file.value
  {
    if file.Some? && !readFails then file.value else ""
  }

  /** The growth file after an update: the new text when the stream ran to
      its end without an exception, produced some text and the write went
      through, the old file otherwise. `writeFails` is `makedirs` or `open`
      raising; the exception is swallowed. */
  function GrowthAfter(file: Option<string>, g: Generation, writeFails: bool): (r: Option<string>)
    ensures !g.raises && MessageText(g.chunks) != "" && !writeFails ==> r == Some(MessageText(g.chunks))
    ensures g.raises || MessageText(g.chunks) == "" || writeFails ==> r == file
    ensures r != file ==> r == Some(MessageText(g.chunks)) && MessageText(g.chunks) != ""
  {
    if !g.raises && MessageText(g.chunks) != "" && !writeFails then Some(MessageText(g.chunks)) else file
  }

  /** Error chunks do not reach the profile: only message chunks make up the new text. */
  lemma GrowthIgnoresErrorChunks(file: Option<string>, a: seq<BrainChunk>, e: BrainChunk, b: seq<BrainChunk>, raises: bool, writeFails: bool)
    requires e.message.None?
    ensures GrowthAfter(file, Generation(a + [e] + b, raises), writeFails) == GrowthAfter(file, Generation(a + b, raises), writeFails)
  {
    MessageTextSkips(a, e, b);
  }

  class GrowthService {
    const router: BrainRouter
    /** `erika_growth.md`; `None` while it does not exist. */
    var growth: Option<string>

    constructor(router: BrainRouter, existing: Option<string>)
      ensures this.router == router && growth == existing
    {
      this.router := router;
      growth := existing;
    }

    /** `evolve`. `readFails` is an exception while reading the existing
        file, which is logged; an exception from the stream or from the
        write (`writeFails`) is swallowed. */
    method Evolve(latestReflection: string, readFails: bool, g: Generation, writeFails: bool) returns (asked: GrowthRequest)
      modifies this
      ensures asked == GrowthRequest(TargetFor(router.remoteOnline), PreviousGrowth(old(growth), readFails), latestReflection)
      ensures growth == GrowthAfter(old(growth), g, writeFails)
    {
      var target := TargetFor(router.remoteOnline);
      var currentGrowth := "";
      if growth.Some? {
        if !readFails {
          currentGrowth := growth.value;
        }
      }
      asked := GrowthRequest(target, currentGrowth, latestReflection);
      var newGrowth := CollectMessages(g.chunks);
      // an exception from the stream comes after its last chunk and skips the save
      if g.raises {
        return;
      }
      // `makedirs` or `open` raising leaves the file as it was
      if newGrowth != "" && !writeFails {
        growth := Some(newGrowth);
      }
    }
  }
}

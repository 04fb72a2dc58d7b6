/** The speech service of `mcp_tools/erika_voice/service.py`: its inference
    settings and their clamps, the speaking and stop flags around one
    utterance, the rule for when a model update check is allowed, the lines of
    the update log, and the clean-up of old temporary audio files. Audio,
    threads and the model itself are not part of this model; the clock and
    file outcomes are inputs. */
module TtsService {
  import opened Common

  /** `TEMP_FILE_MAX_AGE`, in seconds. */
  const TempFileMaxAge: real := 3600.0
  const DefaultVoice := "azelma"
  /** At most this many cache updates are listed one by one in the update log. */
  const LoggedUpdates := 50
  const SecondsPerDay: real := 86400.0
  /** The largest day count a `timedelta` accepts; a larger one raises `OverflowError`. */
  const MaxTimedeltaDays := 999999999

  function MinReal(a: real, b: real): real { if a <= b then a else b }
  function MaxReal(a: real, b: real): real { if a >= b then a else b }

  /** `max(lo, min(hi, x))` on floats. */
  function Clamp(lo: real, hi: real, x: real): (r: real)
    requires lo <= hi
    ensures lo <= r <= hi
    ensures lo <= x <= hi ==> r == x
    ensures x < lo ==> r == lo
    ensures x > hi ==> r == hi
  {
    MaxReal(lo, MinReal(hi, x))
  }

  /** `max(lo, min(hi, x))` on integers. */
  function ClampInt(lo: int, hi: int, x: int): (r: int)
    requires lo <= hi
    ensures lo <= r <= hi
    ensures lo <= x <= hi ==> r == x
    ensures x < lo ==> r == lo
    ensures x > hi ==> r == hi
  {
    Max(lo, Min(hi, x))
  }

  /** Setting a value twice is setting it once, and a larger request never
      gives a smaller setting. */
  lemma ClampStable(lo: real, hi: real, x: real, y: real)
    requires lo <= hi
    ensures Clamp(lo, hi, Clamp(lo, hi, x)) == Clamp(lo, hi, x)
    ensures x <= y ==> Clamp(lo, hi, x) <= Clamp(lo, hi, y)
  {
  }

  lemma ClampIntStable(lo: int, hi: int, x: int, y: int)
    requires lo <= hi
    ensures ClampInt(lo, hi, ClampInt(lo, hi, x)) == ClampInt(lo, hi, x)
    ensures x <= y ==> ClampInt(lo, hi, x) <= ClampInt(lo, hi, y)
  {
  }

  /** What `_should_allow_update_check` finds in `logs/tts_update_check.txt`:
      no file, a read that raised, or the text read together with its
      `fromisoformat` reading in seconds since the epoch (`None` when it does
      not parse; a stamp without a zone counts as UTC). */
  datatype CheckStamp = Missing | ReadFailed | Read(raw: string, parsed: Option<real>)

  /** `_should_allow_update_check`: only in offline mode with a positive day
      count; then whenever the last check cannot be established, or at least
      that many days have passed. A day count too large for `timedelta`
      raises inside the `try`, which also allows the check. */
  function ShouldAllowUpdateCheck(offline: bool, days: int, stamp: CheckStamp, now: real): (allow: bool)
    ensures !offline || days <= 0 ==> !allow
    ensures offline && days > MaxTimedeltaDays ==> allow
    ensures offline && days > 0 && (stamp.Missing? || stamp.ReadFailed?) ==> allow
    ensures offline && days > 0 && stamp.Read? && (IsBlank(stamp.raw) || stamp.parsed.None?) ==> allow
    ensures offline && 0 < days <= MaxTimedeltaDays && stamp.Read? && !IsBlank(stamp.raw) && stamp.parsed.Some? ==>
              (allow <==> now - stamp.parsed.value >= days as real * SecondsPerDay)
  {
    if !offline || days <= 0 then false
    else match stamp
      case Missing => true
      case ReadFailed => true
      case Read(raw, parsed) =>
        StripEmptyIffBlank(raw);
        if Strip(raw) == "" then true
        else if parsed.None? then true
        else if days > MaxTimedeltaDays then true
        else now - parsed.value >= days as real * SecondsPerDay
  }

  /** Once a check is allowed it stays allowed as time goes on. */
  lemma UpdateCheckStaysAllowed(offline: bool, days: int, stamp: CheckStamp, now: real, later: real)
    requires now <= later
    requires ShouldAllowUpdateCheck(offline, days, stamp, now)
    ensures ShouldAllowUpdateCheck(offline, days, stamp, later)
  {
  }

  /** One file found under the model cache: its path relative to the cache
      and its size in bytes. */
  datatype CacheUpdate = CacheUpdate(path: string, size: nat)

  function HeaderLine(timestamp: string): string {
    "[" + timestamp + "] TTS cache updates detected:"
  }

  function UpdateLine(u: CacheUpdate): string {
    "- " + u.path + " (" + NatToString(u.size) + " bytes)"
  }

  function TruncatedLine(total: nat): string {
    "... truncated, total files: " + NatToString(total)
  }

  /** The lines `_write_update_log` joins: a header, the first 50 updates,
      a truncation line with the total when there are more, and an empty
      line that ends the entry. */
  method UpdateLogLines(updates: seq<CacheUpdate>, timestamp: string) returns (lines: seq<string>)
    ensures var listed := Min(LoggedUpdates, |updates|);
            |lines| == listed + (if |updates| > LoggedUpdates then 3 else 2)
            && lines[0] == HeaderLine(timestamp)
            && (forall i :: 0 <= i < listed ==> lines[1 + i] == UpdateLine(updates[i]))
            && (|updates| > LoggedUpdates ==> lines[1 + listed] == TruncatedLine(|updates|))
            && lines[|lines| - 1] == ""
    ensures |lines| <= LoggedUpdates + 3
  {
    var listed := Min(LoggedUpdates, |updates|);
    lines := [HeaderLine(timestamp)];
    var i := 0;
    while i < listed
      invariant 0 <= i <= listed
      invariant |lines| == 1 + i && lines[0] == HeaderLine(timestamp)
      invariant forall j :: 0 <= j < i ==> lines[1 + j] == UpdateLine(updates[j])
    {
      lines := lines + [UpdateLine(updates[i])];
      i := i + 1;
    }
    if |updates| > LoggedUpdates {
      lines := lines + [TruncatedLine(|updates|)];
    }
    lines := lines + [""];
  }

  /** A name `glob('*')` does not list: one that starts with a dot. */
  predicate Hidden(name: string) {
    |name| > 0 && name[0] == '.'
  }

  /** What the sound thread reports when it ends. */
  datatype Finish = Finish(callbackRan: bool)

  class Speaker {
    var currentVoice: string
    var volume: real
    var temperature: real
    var decodeSteps: int
    var eosThreshold: real
    var isSpeaking: bool
    /** `stop_event` is set. */
    var stopRequested: bool
    /** The files of `erika_home/temp` and their modification times. */
    var tempFiles: map<string, real>
    /** The text appended to `logs/tts_update.log` so far. */
    var updateLog: string

    /** `__init__` without the model load: old temporary files are cleaned
        up first (see `CleanupTempFiles`), and the stored settings are taken
        as they are (the setters' clamps do not apply to them), with the
        defaults 0.7, 1 and -4.0. */
    constructor(temperature: Option<real>, decodeSteps: Option<int>, eosThreshold: Option<real>,
                tempFiles: map<string, real>, now: real, undeletable: set<string>)
      ensures currentVoice == DefaultVoice && volume == 1.0
      ensures this.temperature == temperature.GetOr(0.7)
      ensures this.decodeSteps == decodeSteps.GetOr(1)
      ensures this.eosThreshold == eosThreshold.GetOr(-4.0)
      ensures !isSpeaking && !stopRequested && updateLog == ""
      ensures this.tempFiles == map f | f in tempFiles && (Hidden(f) || now - tempFiles[f] <= TempFileMaxAge || f in undeletable)
                                      :: tempFiles[f]
    {
      currentVoice := DefaultVoice;
      volume := 1.0;
      this.temperature := temperature.GetOr(0.7);
      this.decodeSteps := decodeSteps.GetOr(1);
      this.eosThreshold := eosThreshold.GetOr(-4.0);
      isSpeaking := false;
      stopRequested := false;
      this.tempFiles := tempFiles;
      updateLog := "";
      new;
      CleanupTempFiles(now, undeletable);
    }

    /** `set_voice`: an empty name is ignored. */
    method SetVoice(name: string)
      modifies this
      ensures currentVoice == if name == "" then old(currentVoice) else name
      ensures volume == old(volume) && temperature == old(temperature) && decodeSteps == old(decodeSteps)
      ensures eosThreshold == old(eosThreshold) && isSpeaking == old(isSpeaking) && stopRequested == old(stopRequested)
      ensures tempFiles == old(tempFiles) && updateLog == old(updateLog)
    {
      if name != "" {
        currentVoice := name;
      }
    }

    /** `set_volume`. */
    method SetVolume(v: real)
      modifies this
      ensures volume == Clamp(0.0, 1.0, v)
      ensures currentVoice == old(currentVoice) && temperature == old(temperature) && decodeSteps == old(decodeSteps)
      ensures eosThreshold == old(eosThreshold) && isSpeaking == old(isSpeaking) && stopRequested == old(stopRequested)
      ensures tempFiles == old(tempFiles) && updateLog == old(updateLog)
    {
      volume := MaxReal(0.0, MinReal(1.0, v));
    }

    /** `set_temperature`. */
    method SetTemperature(t: real)
      modifies this
      ensures temperature == Clamp(0.0, 2.0, t)
      ensures currentVoice == old(currentVoice) && volume == old(volume) && decodeSteps == old(decodeSteps)
      ensures eosThreshold == old(eosThreshold) && isSpeaking == old(isSpeaking) && stopRequested == old(stopRequested)
      ensures tempFiles == old(tempFiles) && updateLog == old(updateLog)
    {
      temperature := MaxReal(0.0, MinReal(2.0, t));
    }

    /** `set_decode_steps`. */
    method SetDecodeSteps(steps: int)
      modifies this
      ensures decodeSteps == ClampInt(1, 10, steps)
      ensures currentVoice == old(currentVoice) && volume == old(volume) && temperature == old(temperature)
      ensures eosThreshold == old(eosThreshold) && isSpeaking == old(isSpeaking) && stopRequested == old(stopRequested)
      ensures tempFiles == old(tempFiles) && updateLog == old(updateLog)
    {
      decodeSteps := Max(1, Min(10, steps));
    }

    /** `set_eos_threshold`. */
    method SetEosThreshold(threshold: real)
      modifies this
      ensures eosThreshold == Clamp(-10.0, 0.0, threshold)
      ensures currentVoice == old(currentVoice) && volume == old(volume) && temperature == old(temperature)
      ensures decodeSteps == old(decodeSteps) && isSpeaking == old(isSpeaking) && stopRequested == old(stopRequested)
      ensures tempFiles == old(tempFiles) && updateLog == old(updateLog)
    {
      eosThreshold := MaxReal(-10.0, MinReal(0.0, threshold));
    }

    /** `stop`: only an utterance in progress can be stopped. */
    method Stop()
      modifies this
      ensures stopRequested == (old(stopRequested) || old(isSpeaking))
      ensures currentVoice == old(currentVoice) && volume == old(volume) && temperature == old(temperature)
      ensures decodeSteps == old(decodeSteps) && eosThreshold == old(eosThreshold) && isSpeaking == old(isSpeaking)
      ensures tempFiles == old(tempFiles) && updateLog == old(updateLog)
    {
      if isSpeaking {
        stopRequested := true;
      }
    }

    /** `speak`: empty text is refused; otherwise any utterance in progress
        is asked to stop, the stop request is cleared and the new one starts. */
    method Speak(text: string) returns (started: bool)
      modifies this
      ensures started <==> text != ""
      ensures !started ==> isSpeaking == old(isSpeaking) && stopRequested == old(stopRequested)
      ensures started ==> isSpeaking && !stopRequested
      ensures currentVoice == old(currentVoice) && volume == old(volume) && temperature == old(temperature)
      ensures decodeSteps == old(decodeSteps) && eosThreshold == old(eosThreshold) && tempFiles == old(tempFiles)
      ensures updateLog == old(updateLog)
    {
      if text == "" {
        return false;
      }
      if isSpeaking {
        Stop();
      }
      stopRequested := false;
      isSpeaking := true;
      started := true;
    }

    /** The `finally` block of `_speak_thread`: the completion callback runs
        only when no stop was requested, and speaking ends either way. */
    method FinishSpeaking(hasCallback: bool) returns (f: Finish)
      modifies this
      ensures f.callbackRan <==> hasCallback && !old(stopRequested)
      ensures !isSpeaking
      ensures currentVoice == old(currentVoice) && volume == old(volume) && temperature == old(temperature)
      ensures decodeSteps == old(decodeSteps) && eosThreshold == old(eosThreshold) && stopRequested == old(stopRequested)
      ensures tempFiles == old(tempFiles) && updateLog == old(updateLog)
    {
      f := Finish(hasCallback && !stopRequested);
      isSpeaking := false;
    }

    /** `_write_update_log`: the lines are appended as one block joined by
        newlines; `writeFails` is an exception while writing, which is logged. */
    method WriteUpdateLog(updates: seq<CacheUpdate>, timestamp: string, writeFails: bool) returns (lines: seq<string>)
      modifies this
      ensures var listed := Min(LoggedUpdates, |updates|);
              |lines| == listed + (if |updates| > LoggedUpdates then 3 else 2)
              && lines[0] == HeaderLine(timestamp)
              && (forall i :: 0 <= i < listed ==> lines[1 + i] == UpdateLine(updates[i]))
              && (|updates| > LoggedUpdates ==> lines[1 + listed] == TruncatedLine(|updates|))
              && lines[|lines| - 1] == ""
      ensures 2 <= |lines| <= LoggedUpdates + 3
      ensures updateLog == if writeFails then old(updateLog) else old(updateLog) + Join(lines, "\n")
      ensures currentVoice == old(currentVoice) && volume == old(volume) && temperature == old(temperature)
      ensures decodeSteps == old(decodeSteps) && eosThreshold == old(eosThreshold) && isSpeaking == old(isSpeaking)
      ensures stopRequested == old(stopRequested) && tempFiles == old(tempFiles)
    {
      lines := UpdateLogLines(updates, timestamp);
      if !writeFails {
        updateLog := updateLog + Join(lines, "\n");
      }
    }

    /** `_cleanup_temp_files`: every file `glob('*')` lists that is older than
        `TEMP_FILE_MAX_AGE` is removed, except those whose removal raises
        (`undeletable`); hidden files are never listed, so never removed. */
    method CleanupTempFiles(now: real, undeletable: set<string>)
      modifies this
      ensures tempFiles == map f | f in old(tempFiles) && (Hidden(f) || now - old(tempFiles)[f] <= TempFileMaxAge || f in undeletable)
                                 :: old(tempFiles)[f]
      ensures forall f :: f in tempFiles ==> Hidden(f) || now - tempFiles[f] <= TempFileMaxAge || f in undeletable
      ensures forall f :: f in old(tempFiles) && Hidden(f) ==> f in tempFiles
      ensures currentVoice == old(currentVoice) && volume == old(volume) && updateLog == old(updateLog)
      ensures temperature == old(temperature) && decodeSteps == old(decodeSteps) && eosThreshold == old(eosThreshold)
      ensures isSpeaking == old(isSpeaking) && stopRequested == old(stopRequested)
    {
      var pending := tempFiles.Keys;
      ghost var before := tempFiles;
      while pending != {}
        invariant pending <= before.Keys
        invariant currentVoice == old(currentVoice) && volume == old(volume) && updateLog == old(updateLog)
        invariant temperature == old(temperature) && decodeSteps == old(decodeSteps) && eosThreshold == old(eosThreshold)
        invariant isSpeaking == old(isSpeaking) && stopRequested == old(stopRequested)
        invariant tempFiles == map f | f in before && (f in pending || Hidden(f) || now - before[f] <= TempFileMaxAge || f in undeletable)
                                     :: before[f]
        decreases |pending|
      {
        var f :| f in pending;
        if !Hidden(f) && now - tempFiles[f] > TempFileMaxAge && f !in undeletable {
          tempFiles := tempFiles - {f};
        }
        pending := pending - {f};
      }
    }
  }
}

/** The logic inside the settings page of `interface/settings_ui.py`: the
    whitelist through which controls reach controller methods, the context
    window slider's "Nk" steps, and the active colour swatch. The widgets
    themselves are not part of this model; a controller is seen as the set of
    its method names and its current settings. */
module SettingsUi {
  import opened Common

  /** `ALLOWED_HANDLERS`. */
  const AllowedHandlers: set<string> := {
    "set_username", "set_persona_prompt", "set_tts_voice", "set_tts_volume",
    "set_tts_autoplay", "set_context_window", "set_accent_color"
  }

  const ContextWindowHandler := "set_context_window"
  const DefaultContextWindow := 8192

  /** `_safe_get_handler`: the method of that name, only when it is
      whitelisted and the controller has it. */
  function SafeGetHandler(methods: set<string>, name: string): (h: Option<string>)
    ensures h.Some? <==> name in AllowedHandlers && name in methods
    ensures h.Some? ==> h.value == name
  {
    if name !in AllowedHandlers then None
    else if name in methods then Some(name) else None
  }

  /** Any name outside the whitelist gets nothing, whatever the controller defines. */
  lemma UnlistedNeverResolves(methods: set<string>, name: string)
    requires name !in AllowedHandlers
    ensures SafeGetHandler(methods, name) == None
  {
  }

  /** `s.lower().replace('k', '')`, in one pass. */
  function LowerNoK(s: string): string {
    if s == [] then [] else (if LowerChar(s[0]) == 'k' then [] else [LowerChar(s[0])]) + LowerNoK(s[1..])
  }

  /** `int(step.lower().replace('k', '')) * 1024`; `None` is the `ValueError`. */
  function StepTokens(step: string): Option<int> {
    var kb := ParseInt(LowerNoK(step));
    if kb.Some? then Some(kb.value * 1024) else None
  }

  /** A step labelled `"Nk"` (or `"NK"`) stands for `N * 1024` tokens. */
  lemma StepLabelTokens(n: nat, k: char)
    requires k == 'k' || k == 'K'
    ensures StepTokens(NatToString(n) + [k]) == Some(n * 1024)
  {
    var digits := NatToString(n);
    DigitsValueOfNatToString(n);
    LowerNoKDigits(digits, k);
    ParseUnsigned(digits);
  }

  /** Digits followed by one `k` or `K` lose the letter and keep the digits. */
  lemma {:induction false} LowerNoKDigits(digits: string, k: char)
    requires AllDigits(digits) && (k == 'k' || k == 'K')
    ensures LowerNoK(digits + [k]) == digits
    decreases |digits|
  {
    if digits == [] {
      assert LowerNoK([k]) == [] + LowerNoK([]);
    } else {
      assert (digits + [k])[1..] == digits[1..] + [k];
      assert AllDigits(digits[1..]) by {
        assert forall i :: 0 <= i < |digits[1..]| ==> digits[1..][i] == digits[i + 1];
      }
      LowerNoKDigits(digits[1..], k);
      assert IsDigit(digits[0]);
      assert [digits[0]] + digits[1..] == digits;
    }
  }

  /** The tokens of every step, `None` where the step does not parse. */
  function StepTokensAll(steps: seq<string>): seq<Option<int>> {
    MapAll(steps, StepTokens)
  }

  /** The first index holding `Some(tokens)`, if any. */
  function FirstMatch(ts: seq<Option<int>>, tokens: int): (r: Option<nat>)
    ensures r.Some? ==> r.value < |ts| && ts[r.value] == Some(tokens)
    ensures r.Some? ==> forall j :: 0 <= j < r.value ==> ts[j] != Some(tokens)
    ensures r.None? ==> forall j :: 0 <= j < |ts| ==> ts[j] != Some(tokens)
  {
    if ts == [] then None
    else if ts[0] == Some(tokens) then Some(0)
    else
      var rest := FirstMatch(ts[1..], tokens);
      if rest.Some? then Some(rest.value + 1) else None
  }

  /** The slider's starting index in `render_step_slider`: with a controller,
      the first step that matches its `context_window` (8192 when unset); the
      item's `default_index` otherwise. */
  method InitialIndex(steps: seq<string>, defaultIndex: int, hasController: bool, contextWindow: Option<int>)
    returns (idx: int)
    ensures var first := FirstMatch(StepTokensAll(steps), contextWindow.GetOr(DefaultContextWindow));
            idx == if hasController && first.Some? then first.value else defaultIndex
  {
    idx := defaultIndex;
    if hasController {
      var currentTokens := contextWindow.GetOr(DefaultContextWindow);
      var found := FindStep(steps, StepTokens, currentTokens);
      if found.Some? {
        idx := found.value;
      }
    }
  }

  /** The loop of `render_step_slider`: the index of the first step whose
      tokens (read by `tokensOf`, `None` for a `ValueError`) equal `tokens`. */
  method FindStep<T>(steps: seq<T>, tokensOf: T -> Option<int>, tokens: int) returns (found: Option<nat>)
    ensures found == FirstMatch(MapAll(steps, tokensOf), tokens)
  {
    ghost var ts := MapAll(steps, tokensOf);
    var i := 0;
    while i < |steps|
      invariant 0 <= i <= |steps|
      invariant forall j :: 0 <= j < i ==> ts[j] != Some(tokens)
    {
      if tokensOf(steps[i]) == Some(tokens) {
        assert ts[i] == Some(tokens);
        return Some(i);
      }
      i := i + 1;
    }
    return None;
  }

  /** What moving the slider to `value` does: the label text shown, and the tokens
      passed to `set_context_window`. */
  datatype StepChange = StepChange(shown: Option<string>, tokens: Option<int>)

  /** `on_change` of the step slider: out-of-range indices do nothing; a step
      that does not parse updates only the label; otherwise the whitelisted
      handler, when the controller has it, receives the tokens. */
  function OnStepChange(steps: seq<string>, value: int, hasController: bool, methods: set<string>): (c: StepChange)
    ensures c.shown.Some? <==> 0 <= value < |steps|
    ensures c.shown.Some? ==> c.shown.value == steps[value]
    ensures c.tokens.Some? <==>
              0 <= value < |steps| && StepTokens(steps[value]).Some? && hasController && ContextWindowHandler in methods
    ensures c.tokens.Some? ==> c.tokens == StepTokens(steps[value])
  {
    if !(0 <= value < |steps|) then StepChange(None, None)
    else
      var tokens := StepTokens(steps[value]);
      if tokens.Some? && hasController && SafeGetHandler(methods, ContextWindowHandler).Some? then
        StepChange(Some(steps[value]), tokens)
      else StepChange(Some(steps[value]), None)
  }

  /** The swatch highlights of `render_color_picker`: `setting` is the stored
      value under the item's key (`None` without a controller, a key or a value). */
  function ActiveSwatches(options: seq<string>, setting: Option<string>): (flags: seq<bool>)
    requires |options| > 0
    ensures |flags| == |options|
    ensures forall i :: 0 <= i < |options| ==> (flags[i] <==> options[i] == setting.GetOr(options[0]))
  {
    seq(|options|, i requires 0 <= i < |options| => options[i] == setting.GetOr(options[0]))
  }

  /** With distinct options and a stored value among them (or none stored),
      exactly one swatch is active; with none stored it is the first. */
  lemma OneSwatchActive(options: seq<string>, setting: Option<string>)
    requires |options| > 0
    requires forall i, j :: 0 <= i < j < |options| ==> options[i] != options[j]
    requires setting.None? || setting.value in options
    ensures exists i :: 0 <= i < |options| && ActiveSwatches(options, setting)[i]
    ensures forall i, j :: (0 <= i < |options| && 0 <= j < |options|
              && ActiveSwatches(options, setting)[i] && ActiveSwatches(options, setting)[j]) ==> i == j
    ensures setting.None? ==> ActiveSwatches(options, setting)[0]
  {
    var flags := ActiveSwatches(options, setting);
    var current := setting.GetOr(options[0]);
    var k :| 0 <= k < |options| && options[k] == current;
    assert flags[k];
  }
}

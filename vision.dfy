/** The caption clean-up of `core/erika_vision/engine.py`: a leading filler
    phrase ("here is a", "this is a", "a photo of", "an image of"), matched
    without regard to case and followed by whitespace, is cut off once, then
    the caption is stripped. The image upload itself is an input here. */
module Vision {
  import opened Common

  const NotFound := "Error: Image file not found."

  /** The alternatives of the clean-up pattern, in the order they are tried. */
  const Phrases: seq<string> := ["here is a", "this is a", "a photo of", "an image of"]

  /** A subject character matching a pattern character under `re.IGNORECASE`
      on a `str` pattern: the character itself, its ASCII capital, and for
      `i` and `s` the extra case partners Python's regex engine accepts
      (dotted capital I, dotless i, long s). */
  predicate CharMatches(c: char, p: char) {
    c == p
    || ('a' <= p <= 'z' && c == UpperChar(p))
    || (p == 'i' && (c == 'İ' || c == 'ı'))
    || (p == 's' && c == 'ſ')
  }

  /** `phrase` matches at the very start of `text`, ignoring case. */
  predicate StartsWithPhrase(text: string, phrase: string) {
    |phrase| <= |text| && forall j :: 0 <= j < |phrase| ==> CharMatches(text[j], phrase[j])
  }

  /** `phrase` then at least one whitespace character open `text`: the
      alternative succeeds together with its `\s+`. */
  predicate PhraseThenSpace(text: string, phrase: string) {
    StartsWithPhrase(text, phrase) && |phrase| < |text| && IsSpace(text[|phrase|])
  }

  /** The length of the text the pattern removes: the first alternative, from
      `phrases[i]` on, that matches with its whitespace, plus all of that whitespace. */
  function MatchFrom(text: string, phrases: seq<string>, i: nat): (m: Option<nat>)
    requires i <= |phrases|
    ensures m.Some? ==> m.value <= |text|
    decreases |phrases| - i
  {
    if i == |phrases| then None
    else if PhraseThenSpace(text, phrases[i]) then Some(SpaceRunEnd(text, |phrases[i]|))
    else MatchFrom(text, phrases, i + 1)
  }

  /** `re.sub(r'(?i)^(here is a|this is a|a photo of|an image of)\s+', '', text)`:
      the pattern is anchored, so it applies at most once. */
  function RemoveFiller(text: string): string {
    var m := MatchFrom(text, Phrases, 0);
    if m.Some? then text[m.value..] else text
  }

  /** `clean_caption`. */
  function CleanCaption(text: string): (r: string)
    ensures r == [] || (!IsSpace(r[0]) && !IsSpace(r[|r| - 1]))
  {
    Strip(RemoveFiller(text))
  }

  /** Whitespace is all the run from `i` to `k` holds, so the run from `i`
      ends where the run from `k` ends. */
  lemma {:induction false} SpaceRunSkip(s: string, i: nat, k: nat)
    requires i <= k <= |s|
    requires forall j :: i <= j < k ==> IsSpace(s[j])
    ensures SpaceRunEnd(s, i) == SpaceRunEnd(s, k)
    decreases k - i
  {
    if i < k {
      SpaceRunSkip(s, i + 1, k);
    }
  }

  /** A whitespace run measured in a suffix of `s` ends at the same place. */
  lemma {:induction false} SpaceRunShift(s: string, k: nat, i: nat)
    requires k <= i <= |s|
    ensures SpaceRunEnd(s, i) == k + SpaceRunEnd(s[k..], i - k)
    decreases |s| - i
  {
    if i < |s| && IsSpace(s[i]) {
      assert s[k..][i - k] == s[i];
      SpaceRunShift(s, k, i + 1);
    }
  }

  /** Leading whitespace makes no difference to `strip`. */
  lemma StripDropsLeadingSpace(s: string, k: nat)
    requires k <= |s|
    requires forall j :: 0 <= j < k ==> IsSpace(s[j])
    ensures Strip(s[k..]) == Strip(s)
  {
    SpaceRunSkip(s, 0, k);
    SpaceRunShift(s, k, k);
    var e := SpaceRunEnd(s, 0);
    assert LStrip(s) == s[e..];
    assert LStrip(s[k..]) == s[k..][e - k..];
    assert s[k..][e - k..] == s[e..];
  }

  /** No two alternatives can both match the same text: they differ in a
      character no subject character matches both ways. */
  lemma PhrasesExclusive(text: string, k: nat, l: nat)
    requires k < l < |Phrases|
    ensures StartsWithPhrase(text, Phrases[k]) ==> !StartsWithPhrase(text, Phrases[l])
  {
    if l < 2 {
      assert Phrases[k][0] == 'h' && Phrases[l][0] == 't';
      assert forall c :: CharMatches(c, 'h') ==> !CharMatches(c, 't');
    } else if k < 2 {
      assert Phrases[l][0] == 'a';
      assert forall c :: CharMatches(c, Phrases[k][0]) ==> !CharMatches(c, 'a');
    } else {
      assert Phrases[k][1] == ' ' && Phrases[l][1] == 'n';
      assert forall c :: CharMatches(c, ' ') ==> !CharMatches(c, 'n');
    }
  }

  /** The search reaches the first alternative that matches. */
  lemma {:induction false} MatchFromFinds(text: string, phrases: seq<string>, i: nat, k: nat)
    requires i <= k < |phrases| && PhraseThenSpace(text, phrases[k])
    requires forall j :: i <= j < k ==> !PhraseThenSpace(text, phrases[j])
    ensures MatchFrom(text, phrases, i) == Some(SpaceRunEnd(text, |phrases[k]|))
    decreases k - i
  {
    if i < k {
      assert !PhraseThenSpace(text, phrases[i]);
      MatchFromFinds(text, phrases, i + 1, k);
      assert MatchFrom(text, phrases, i) == MatchFrom(text, phrases, i + 1);
    } else {
      assert PhraseThenSpace(text, phrases[i]);
    }
  }

  /** Without a matching alternative the search comes back empty. */
  lemma {:induction false} MatchFromNone(text: string, phrases: seq<string>, i: nat)
    requires i <= |phrases|
    requires forall j :: i <= j < |phrases| ==> !PhraseThenSpace(text, phrases[j])
    ensures MatchFrom(text, phrases, i).None?
    decreases |phrases| - i
  {
    if i < |phrases| {
      assert !PhraseThenSpace(text, phrases[i]);
      MatchFromNone(text, phrases, i + 1);
    }
  }

  /** Cutting a whitespace run before stripping changes nothing. */
  lemma StripAfterRun(text: string, p: nat)
    requires p <= |text|
    ensures Strip(text[SpaceRunEnd(text, p)..]) == Strip(text[p..])
  {
    var rest := text[p..];
    var run := SpaceRunEnd(rest, 0);
    SpaceRunShift(text, p, p);
    StripDropsLeadingSpace(rest, run);
    var e := SpaceRunEnd(text, p);
    assert e == p + run;
    assert rest[run..] == text[p + run..];
  }

  /** A caption opening with a filler phrase and whitespace loses both, and the
      rest is stripped; a later repetition of the phrase stays. */
  lemma CleanCaptionDropsFiller(text: string, k: nat)
    requires k < |Phrases| && PhraseThenSpace(text, Phrases[k])
    ensures CleanCaption(text) == Strip(text[|Phrases[k]|..])
  {
    forall j | 0 <= j < k
      ensures !PhraseThenSpace(text, Phrases[j])
    {
      PhrasesExclusive(text, j, k);
    }
    MatchFromFinds(text, Phrases, 0, k);
    StripAfterRun(text, |Phrases[k]|);
  }

  /** A caption that does not open with any filler phrase followed by
      whitespace is only stripped; in particular leading whitespace before a
      phrase keeps the phrase. */
  lemma CleanCaptionPlain(text: string)
    requires forall k :: 0 <= k < |Phrases| ==> !PhraseThenSpace(text, Phrases[k])
    ensures CleanCaption(text) == Strip(text)
  {
    MatchFromNone(text, Phrases, 0);
  }

  /** Text that starts with whitespace never loses a phrase. */
  lemma LeadingSpaceKeepsPhrase(text: string)
    requires |text| > 0 && IsSpace(text[0])
    ensures CleanCaption(text) == Strip(text)
  {
    forall k | 0 <= k < |Phrases|
      ensures !PhraseThenSpace(text, Phrases[k])
    {
      assert !CharMatches(text[0], Phrases[k][0]);
    }
    CleanCaptionPlain(text);
  }

  /** What happened to the upload: reading the file raised before anything
      was posted, the endpoint gave an HTTP answer with its body text and its
      `response` field, or the post (or decoding its answer) raised. */
  datatype Reply =
    | ReadFailed(error: string)
    | Answer(status: int, body: string, response: Option<string>)
    | Raised(error: string)

  /** `see`: a missing file is reported before anything is sent; otherwise the
      cleaned caption of a 200 answer (an absent `response` is `""`), or the
      error text. `r.1` says whether the image was posted. */
  function See(exists_: bool, reply: Reply): (r: (string, bool))
    ensures !exists_ ==> r == (NotFound, false)
    ensures r.1 <==> exists_ && !reply.ReadFailed?
    ensures exists_ && reply.ReadFailed? ==> r.0 == "Vision Error: " + reply.error
    ensures exists_ && reply.Answer? && reply.status == 200 ==> r.0 == CleanCaption(reply.response.GetOr(""))
    ensures exists_ && reply.Answer? && reply.status != 200 ==> r.0 == "Error from Ollama: " + reply.body
    ensures exists_ && reply.Raised? ==> r.0 == "Vision Error: " + reply.error
  {
    if !exists_ then (NotFound, false)
    else match reply
      case ReadFailed(e) => ("Vision Error: " + e, false)
      case Answer(status, body, response) =>
        if status == 200 then (CleanCaption(response.GetOr("")), true)
        else ("Error from Ollama: " + body, true)
      case Raised(e) => ("Vision Error: " + e, true)
  }
}

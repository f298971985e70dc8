/**
 * The browser text-to-speech fallback (utils/ttsFallback.ts): recognising the
 * server's "not configured" error, and speaking through the browser's global
 * speech synthesizer. The synthesizer is a shared object that records the
 * calls made on it; whether an utterance ends or fails is an input.
 */
module TtsFallback {
  import opened Wrappers

  /** The exact phrase the speech endpoint uses when it has no text-to-speech service. */
  const NotConfiguredPhrase := "Text-to-speech is not configured on the server."
  const NotAvailableMessage := "Browser text-to-speech is not available on this device."
  const FailedMessage := "Browser text-to-speech failed."
  const DefaultLanguage := "en"

  /** `toLowerCase` on one character: ASCII letters only. */
  function LowerChar(c: char): char {
    if 'A' <= c <= 'Z' then (c as int + 32) as char else c
  }

  function UpperChar(c: char): char {
    if 'a' <= c <= 'z' then (c as int - 32) as char else c
  }

  function ToLower(s: string): string {
    seq(|s|, i requires 0 <= i < |s| => LowerChar(s[i]))
  }

  function ToUpper(s: string): string {
    seq(|s|, i requires 0 <= i < |s| => UpperChar(s[i]))
  }

  /** `s` and `t` differ at most in the case of their letters. */
  predicate SameIgnoringCase(s: string, t: string) {
    |s| == |t| && forall i :: 0 <= i < |s| ==> LowerChar(s[i]) == LowerChar(t[i])
  }

  /** `sub` stands in `s` starting at position `i`. */
  ghost predicate OccursAt(sub: string, s: string, i: int) {
    0 <= i && i + |sub| <= |s| && s[i..i + |sub|] == sub
  }

  /** `sub` is a contiguous substring of `s`. */
  ghost predicate Occurs(sub: string, s: string) {
    exists i :: OccursAt(sub, s, i)
  }

  /** `s.includes(sub)` */
  function Includes(s: string, sub: string): (r: bool)
    ensures r <==> Occurs(sub, s)
    decreases |s|
  {
    if |sub| > |s| then
      assert forall i :: !OccursAt(sub, s, i);
      false
    else if s[..|sub|] == sub then
      assert OccursAt(sub, s, 0);
      true
    else
      var r := Includes(s[1..], sub);
      assert r ==> Occurs(sub, s) by {
        if r {
          var i :| OccursAt(sub, s[1..], i);
          assert s[1..][i..i + |sub|] == s[i + 1..i + 1 + |sub|];
          assert OccursAt(sub, s, i + 1);
        }
      }
      assert Occurs(sub, s) ==> r by {
        if Occurs(sub, s) {
          var i :| OccursAt(sub, s, i);
          assert i != 0;
          assert s[1..][i - 1..i - 1 + |sub|] == s[i..i + |sub|];
          assert OccursAt(sub, s[1..], i - 1);
        }
      }
      r
  }

  /** `isServerTtsNotConfigured`: the lower-cased phrase occurs in the lower-cased message. */
  function IsServerTtsNotConfigured(message: string): (r: bool)
    ensures r <==> Occurs(ToLower(NotConfiguredPhrase), ToLower(message))
  {
    Includes(ToLower(message), ToLower(NotConfiguredPhrase))
  }

  /** The empty message never matches. */
  lemma EmptyMessageNeverMatches()
    ensures !IsServerTtsNotConfigured("")
  {
    assert |ToLower(NotConfiguredPhrase)| > 0;
  }

  /** Messages that differ only in letter case get the same verdict. */
  lemma CaseInsensitive(m: string, m': string)
    requires SameIgnoringCase(m, m')
    ensures IsServerTtsNotConfigured(m) == IsServerTtsNotConfigured(m')
  {
    assert ToLower(m) == ToLower(m');
  }

  /** In particular, upper-casing a message does not change the verdict. */
  lemma UpperCaseKeepsVerdict(m: string)
    ensures IsServerTtsNotConfigured(ToUpper(m)) == IsServerTtsNotConfigured(m)
  {
    assert forall i :: 0 <= i < |m| ==> LowerChar(ToUpper(m)[i]) == LowerChar(m[i]);
    CaseInsensitive(ToUpper(m), m);
  }

  /** The phrase itself matches, in any letter case. */
  lemma PhraseMatchesInAnyCase(m: string)
    requires SameIgnoringCase(m, NotConfiguredPhrase)
    ensures IsServerTtsNotConfigured(m)
  {
    assert ToLower(m) == ToLower(NotConfiguredPhrase);
    assert OccursAt(ToLower(NotConfiguredPhrase), ToLower(m), 0);
  }

  lemma ToLowerAppend(a: string, b: string)
    ensures ToLower(a + b) == ToLower(a) + ToLower(b)
  {
  }

  /** A message that matches still matches with any text around it. */
  lemma MatchIsMonotone(m: string, before: string, after: string)
    requires IsServerTtsNotConfigured(m)
    ensures IsServerTtsNotConfigured(before + m + after)
  {
    var p := ToLower(NotConfiguredPhrase);
    var i :| OccursAt(p, ToLower(m), i);
    ToLowerAppend(before, m);
    ToLowerAppend(before + m, after);
    var w := ToLower(before + m + after);
    assert w == ToLower(before) + ToLower(m) + ToLower(after);
    assert w[|before| + i..|before| + i + |p|] == ToLower(m)[i..i + |p|];
    assert OccursAt(p, w, |before| + i);
  }

  // ---------------------------------------------------------------------------
  // speakWithBrowserTts

  /** A call made on the browser's speech synthesizer; `Speak` records the utterance as spoken. */
  datatype SynthCall = Cancel | Speak(text: string, lang: string, rate: real, pitch: real)

  /** `window.speechSynthesis`: one per browser, shared by every caller. */
  class SpeechSynthesis {
    var calls: seq<SynthCall>

    constructor ()
      ensures calls == []
    {
      calls := [];
    }
  }

  /** `SpeechSynthesisUtterance`, with the defaults the Web Speech API gives a new one. */
  class Utterance {
    var text: string
    var lang: string
    var rate: real
    var pitch: real

    constructor (text: string)
      ensures this.text == text && lang == "" && rate == 1.0 && pitch == 1.0
    {
      this.text := text;
      lang := "";
      rate := 1.0;
      pitch := 1.0;
    }
  }

  /** How a spoken utterance finishes: its `end` or its `error` event. */
  datatype UtteranceEvent = Ended | Errored

  /** `language || "en"` */
  function UtteranceLanguage(language: string): (lang: string)
    ensures lang != ""
    ensures language != "" ==> lang == language
    ensures language == "" ==> lang == DefaultLanguage
  {
    if language != "" then language else DefaultLanguage
  }

  /** How the promise of `speakWithBrowserTts` settles, given whether the synthesizer exists. */
  function BrowserSpeechOutcome(available: bool, event: UtteranceEvent): (r: Outcome<string>)
    ensures !available ==> r == Fail(NotAvailableMessage)
    ensures available ==> (r.Pass? <==> event == Ended)
    ensures available && event == Errored ==> r == Fail(FailedMessage)
    ensures r.Fail? ==> r.error != ""
  {
    if !available then Fail(NotAvailableMessage)
    else if event == Ended then Pass
    else Fail(FailedMessage)
  }

  /**
   * `speakWithBrowserTts(text, language)`. `synth` is `window.speechSynthesis`,
   * `null` when the environment has none: then the call fails at once and no
   * utterance is made. Otherwise an utterance is configured, any speech in
   * progress is cancelled, the utterance is spoken, and the promise settles by
   * `event`.
   */
  method SpeakWithBrowserTts(synth: SpeechSynthesis?, text: string, language: string, event: UtteranceEvent)
    returns (r: Outcome<string>)
    modifies synth
    ensures r == BrowserSpeechOutcome(synth != null, event)
    ensures synth != null ==> synth.calls == old(synth.calls) + [Cancel, Speak(text, UtteranceLanguage(language), 1.0, 1.0)]
  {
    if synth == null {
      return Fail(NotAvailableMessage);
    }
    var utterance := new Utterance(text);
    utterance.lang := UtteranceLanguage(language);
    utterance.rate := 1.0;
    utterance.pitch := 1.0;
    synth.calls := synth.calls + [Cancel];
    synth.calls := synth.calls + [Speak(utterance.text, utterance.lang, utterance.rate, utterance.pitch)];
    if event == Ended {
      r := Pass;
    } else {
      r := Fail(FailedMessage);
    }
  }
}

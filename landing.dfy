/**
 * The narration feature of the landing page (Components/Landing/Landing.tsx):
 * "Listen page" asks the server to synthesize the page text, keeps the audio
 * as an object URL in a per-view cache keyed by language and text, plays it,
 * and falls back to the browser voice when the server has no text-to-speech.
 * Also the navigation menu's open/closed state.
 *
 * React state and refs become fields of one object. Every asynchronous step
 * (the synthesis request, `audio.play()`, the browser voice) is an input that
 * says how it settled; one run of the handler is one method call. The two
 * refs and the log of what the view asks of the server and of audio playback
 * form one value, `Player`; the object URLs the view revokes are recorded,
 * in order, in `revoked`.
 */
module Landing {
  import opened Wrappers
  import opened TtsFallback

  /** The audio languages the selector offers. */
  const LanguageCodes: seq<string> := ["en", "es", "fr", "hi", "ar", "pt"]

  /** The text read out: the page's sentences joined by single spaces. */
  const LandingAudioText: string :=
    "Welcome to ConnectHER."
    + " Main heading: Accessible Women's Healthcare, Anytime."
    + " Subheading: Understand your symptoms. Find the right care."
    + " Primary actions: Symptom Checker and Find a Provider."
    + " Important information section includes disclaimer, privacy, and inclusive care notice."
    + " Mission section: ConnectHer empowers women with accessible healthcare guidance, trusted resources, and faster paths to care."
    + " Navigation links include login, register, and your profile."

  const AudioUnavailable := "Audio unavailable right now."
  const PlaybackFailed := "Audio playback failed. Please try again."
  const BrowserVoiceNotice := "Using browser voice because server text-to-speech is not configured."

  /** The cache key of a narration: `${language}::${text}`. */
  function CacheKey(language: string, text: string): string {
    language + "::" + text
  }

  /** In the key of a language without a colon, the first colon stands right after the language. */
  lemma FirstColon(language: string, text: string)
    requires ':' !in language
    ensures |language| < |CacheKey(language, text)| && CacheKey(language, text)[|language|] == ':'
    ensures forall i :: 0 <= i < |language| ==> CacheKey(language, text)[i] != ':'
  {
    var k := CacheKey(language, text);
    forall i | 0 <= i < |language|
      ensures k[i] != ':'
    {
      assert k[i] == language[i];
    }
  }

  /** For languages without a colon (all the offered codes), distinct narrations get distinct keys. */
  lemma CacheKeyInjective(l1: string, t1: string, l2: string, t2: string)
    requires ':' !in l1 && ':' !in l2
    requires CacheKey(l1, t1) == CacheKey(l2, t2)
    ensures l1 == l2 && t1 == t2
  {
    var k := CacheKey(l1, t1);
    FirstColon(l1, t1);
    FirstColon(l2, t2);
    assert |l1| == |l2|;
    assert l1 == k[..|l1|] == l2;
    assert t1 == k[|l1| + 2..] == t2;
  }

  /** A URL made by `URL.createObjectURL`; each one made is new. */
  datatype ObjectUrl = ObjectUrl(id: nat)

  /** An `Audio` element, playing the object URL `src`. */
  datatype Audio = Audio(id: nat, src: ObjectUrl)

  /** What a rejected promise carries: an `Error` with its message, or some other value. */
  datatype Thrown = ErrorWithMessage(message: string) | NonError

  /** `err instanceof Error && err.message ? err.message : "Audio unavailable right now."` */
  function MessageOf(e: Thrown): (m: string)
    ensures m != ""
    ensures e.ErrorWithMessage? && e.message != "" ==> m == e.message
    ensures !(e.ErrorWithMessage? && e.message != "") ==> m == AudioUnavailable
  {
    if e.ErrorWithMessage? && e.message != "" then e.message else AudioUnavailable
  }

  /** How `apiService.synthesizeSpeech` settles: with an audio blob, or by throwing. */
  datatype SynthesisOutcome = Synthesized | SynthesisFailed(error: Thrown)

  /** How `audio.play()` settles. */
  datatype PlayOutcome = Playing | PlayRejected(error: Thrown)

  /** A request the view makes of the server or the browser. */
  datatype Effect =
    | RequestSynthesis(text: string, language: string)
    | CreateObjectUrl(url: ObjectUrl)
    | PauseAudio(audio: Audio)
    | PlayAudio(audio: Audio)

  /** The error a run of `handleListen` catches, if any: the synthesis failure, else the play failure. */
  function ListenFailure(cacheHit: bool, synthesis: SynthesisOutcome, play: PlayOutcome): (failure: Option<Thrown>)
    ensures failure.None? <==> (cacheHit || synthesis.Synthesized?) && play.Playing?
    ensures !cacheHit && synthesis.SynthesisFailed? ==> failure == Some(synthesis.error)
    ensures (cacheHit || synthesis.Synthesized?) && play.PlayRejected? ==> failure == Some(play.error)
  {
    if !cacheHit && synthesis.SynthesisFailed? then Some(synthesis.error)
    else if play.PlayRejected? then Some(play.error)
    else None
  }

  /** The caught error names the unconfigured server voice, so the browser voice is tried. */
  predicate FallsBack(failure: Option<Thrown>) {
    failure.Some? && IsServerTtsNotConfigured(MessageOf(failure.value))
  }

  /** `isSpeaking` and `audioError` once a run of `handleListen` has finished. */
  datatype NarrationStatus = NarrationStatus(isSpeaking: bool, audioError: string)

  /**
   * The status after a run that caught `failure` (none if playback started),
   * where `fallback` is how the browser voice would settle. Playback leaves
   * the view speaking with no message; every failure ends speaking and shows
   * a message; a failure that is not about the server voice shows its own.
   */
  function ListenStatus(failure: Option<Thrown>, fallback: Outcome<string>): (st: NarrationStatus)
    ensures st.isSpeaking <==> failure.None?
    ensures st.isSpeaking ==> st.audioError == ""
    ensures !st.isSpeaking ==> st.audioError != ""
    ensures failure.Some? && !FallsBack(failure) ==> st.audioError == MessageOf(failure.value)
    ensures FallsBack(failure) && fallback.Pass? ==> st.audioError == BrowserVoiceNotice
    ensures FallsBack(failure) && fallback.Fail? ==>
      st.audioError == (if fallback.error != "" then fallback.error else AudioUnavailable)
  {
    if failure.None? then NarrationStatus(true, "")
    else if FallsBack(failure) then
      if fallback.Pass? then NarrationStatus(false, BrowserVoiceNotice)
      else NarrationStatus(false, if fallback.error != "" then fallback.error else AudioUnavailable)
    else NarrationStatus(false, MessageOf(failure.value))
  }

  /** Pausing the `previous` audio, if any, then playing `started`. */
  function PlaybackEffects(previous: Option<Audio>, started: Audio): (r: seq<Effect>)
    ensures r != [] && r[|r| - 1] == PlayAudio(started)
    ensures previous != Some(started) ==> PauseAudio(started) !in r
    ensures previous.Some? ==> |r| == 2 && r[0] == PauseAudio(previous.value)
    ensures previous.None? ==> r == [PlayAudio(started)]
  {
    (if previous.Some? then [PauseAudio(previous.value)] else []) + [PlayAudio(started)]
  }

  /**
   * The `catch` of `handleListen` for the narration `text` in `language`:
   * the browser voice if the server has none, and the status to show.
   */
  method SettleFailure(error: Thrown, synth: SpeechSynthesis?, text: string, language: string, event: UtteranceEvent)
    returns (status: NarrationStatus)
    modifies synth
    ensures status == ListenStatus(Some(error), BrowserSpeechOutcome(synth != null, event))
    ensures synth != null ==>
      synth.calls == old(synth.calls)
      + (if FallsBack(Some(error)) then [Cancel, Speak(text, UtteranceLanguage(language), 1.0, 1.0)] else [])
  {
    var message := MessageOf(error);
    if IsServerTtsNotConfigured(message) {
      var fallback := SpeakWithBrowserTts(synth, text, language, event);
      if fallback.Pass? {
        return NarrationStatus(false, BrowserVoiceNotice);
      }
      return NarrationStatus(false, if fallback.error != "" then fallback.error else AudioUnavailable);
    }
    return NarrationStatus(false, message);
  }

  /** The cached URLs in the order of their keys: the order the cleanup revokes them in. */
  function Revocations(keys: seq<string>, cache: map<string, ObjectUrl>): (r: seq<ObjectUrl>)
    requires forall k :: k in keys ==> k in cache
    ensures |r| == |keys|
  {
    if keys == [] then []
    else Revocations(keys[..|keys| - 1], cache) + [cache[keys[|keys| - 1]]]
  }

  lemma {:induction false} RevocationsAt(keys: seq<string>, cache: map<string, ObjectUrl>, i: int)
    requires forall k :: k in keys ==> k in cache
    requires 0 <= i < |keys|
    ensures Revocations(keys, cache)[i] == cache[keys[i]]
  {
    var front := keys[..|keys| - 1];
    if i < |keys| - 1 {
      RevocationsAt(front, cache, i);
    }
  }

  /** Every revoked URL is numbered below `bound` when every cached URL is. */
  lemma RevocationsBelow(keys: seq<string>, cache: map<string, ObjectUrl>, bound: nat)
    requires forall k :: k in keys ==> k in cache && cache[k].id < bound
    ensures forall j :: 0 <= j < |Revocations(keys, cache)| ==> Revocations(keys, cache)[j].id < bound
  {
    var r := Revocations(keys, cache);
    forall j | 0 <= j < |r|
      ensures r[j].id < bound
    {
      RevocationsAt(keys, cache, j);
    }
  }

  /** The revocation loop of the unmount cleanup, over the keys in order. */
  method RevokeAll(keys: seq<string>, cache: map<string, ObjectUrl>) returns (revoked: seq<ObjectUrl>)
    requires forall k :: k in keys ==> k in cache
    ensures revoked == Revocations(keys, cache)
  {
    revoked := [];
    var i := 0;
    while i < |keys|
      invariant 0 <= i <= |keys|
      invariant revoked == Revocations(keys[..i], cache)
    {
      assert keys[..i + 1][..i] == keys[..i];
      revoked := revoked + [cache[keys[i]]];
      i := i + 1;
    }
    assert keys[..i] == keys;
  }

  /**
   * When the keys are the cache's keys, each once, and no URL is cached under
   * two keys, the cleanup revokes every cached URL exactly once and nothing else.
   */
  lemma TeardownRevokesEachUrlOnce(keys: seq<string>, cache: map<string, ObjectUrl>)
    requires forall i, j :: 0 <= i < j < |keys| ==> keys[i] != keys[j]
    requires forall k :: k in cache <==> k in keys
    requires forall k1, k2 :: k1 in cache && k2 in cache && k1 != k2 ==> cache[k1] != cache[k2]
    ensures var r := Revocations(keys, cache);
      && (forall i, j :: 0 <= i < j < |r| ==> r[i] != r[j])
      && (forall u :: u in r <==> u in cache.Values)
  {
    var r := Revocations(keys, cache);
    forall i | 0 <= i < |keys|
      ensures r[i] == cache[keys[i]]
    {
      RevocationsAt(keys, cache, i);
    }
    forall u
      ensures u in r <==> u in cache.Values
    {
      if u in cache.Values {
        var k :| k in cache && cache[k] == u;
        var i :| 0 <= i < |keys| && keys[i] == k;
        assert r[i] == u;
      }
    }
  }

  /**
   * The view's refs, as one value: `audioCacheRef` (its keys in insertion
   * order, the order a `Map` iterates in, and its entries), `audioRef`, how
   * many object URLs and audio elements have been made so far, and the log of
   * requests made of the server and of audio playback.
   */
  datatype Player = Player(
    cacheKeys: seq<string>,
    cache: map<string, ObjectUrl>,
    urlsCreated: nat,
    audio: Option<Audio>,
    audiosCreated: nat,
    effects: seq<Effect>)

  /**
   * The cache holds exactly the listed keys, and the URL cached under the
   * `i`-th key is the `i`-th made since URL number `liveFrom`.
   */
  ghost predicate PlayerValid(p: Player, liveFrom: nat) {
    && p.urlsCreated == liveFrom + |p.cacheKeys|
    && (forall i :: 0 <= i < |p.cacheKeys| ==> p.cacheKeys[i] in p.cache && p.cache[p.cacheKeys[i]] == ObjectUrl(liveFrom + i))
    && (forall k :: k in p.cache ==> k in p.cacheKeys)
  }

  /** In a valid player each key is listed once, and no URL is cached under two keys. */
  lemma CacheIsInjective(p: Player, liveFrom: nat)
    requires PlayerValid(p, liveFrom)
    ensures forall i, j :: 0 <= i < j < |p.cacheKeys| ==> p.cacheKeys[i] != p.cacheKeys[j]
    ensures forall k :: k in p.cache <==> k in p.cacheKeys
    ensures forall k1, k2 :: k1 in p.cache && k2 in p.cache && k1 != k2 ==> p.cache[k1] != p.cache[k2]
  {
    forall k1, k2 | k1 in p.cache && k2 in p.cache && k1 != k2
      ensures p.cache[k1] != p.cache[k2]
    {
      var i :| 0 <= i < |p.cacheKeys| && p.cacheKeys[i] == k1;
      var j :| 0 <= j < |p.cacheKeys| && p.cacheKeys[j] == k2;
    }
  }

  /** Every URL a valid player caches is numbered from `liveFrom` up to the count made. */
  lemma CachedUrlsInRange(p: Player, liveFrom: nat)
    requires PlayerValid(p, liveFrom)
    ensures forall k :: k in p.cache ==> liveFrom <= p.cache[k].id < p.urlsCreated
  {
    forall k | k in p.cache
      ensures liveFrom <= p.cache[k].id < p.urlsCreated
    {
      var i :| 0 <= i < |p.cacheKeys| && p.cacheKeys[i] == k;
    }
  }

  /** Pausing the current audio, if any, and making a new one for `url` current and playing. */
  function Started(p: Player, url: ObjectUrl): (r: Player)
    ensures r.audio == Some(Audio(p.audiosCreated, url)) && r.audiosCreated == p.audiosCreated + 1
    ensures r.effects == p.effects + PlaybackEffects(p.audio, r.audio.value)
    ensures r.cacheKeys == p.cacheKeys && r.cache == p.cache && r.urlsCreated == p.urlsCreated
  {
    var started := Audio(p.audiosCreated, url);
    p.(audio := Some(started), audiosCreated := p.audiosCreated + 1,
       effects := p.effects + PlaybackEffects(p.audio, started))
  }

  /**
   * The refs after a run of `handleListen` for `text` read in `language`,
   * where `synthesis` is how the server request would settle. A cached
   * narration is played again without asking the server; otherwise the
   * server is asked once, and a successful answer is cached under a new URL
   * and played. Nothing already logged is lost.
   */
  function ListenPlayer(p: Player, text: string, language: string, synthesis: SynthesisOutcome): Player {
    var key := CacheKey(language, text);
    if key in p.cache then
      Started(p, p.cache[key])
    else if synthesis.SynthesisFailed? then
      p.(effects := p.effects + [RequestSynthesis(text, language)])
    else
      var made := ObjectUrl(p.urlsCreated);
      Started(p.(cacheKeys := p.cacheKeys + [key], cache := p.cache[key := made], urlsCreated := p.urlsCreated + 1,
                 effects := p.effects + [RequestSynthesis(text, language)] + [CreateObjectUrl(made)]), made)
  }

  /**
   * What a run of `handleListen` does to the refs: a cached narration is
   * played again without asking the server; otherwise the server is asked
   * once, and a successful answer is cached under a new URL and played.
   * Nothing already logged is lost.
   */
  lemma ListenOutcome(p: Player, text: string, language: string, synthesis: SynthesisOutcome)
    ensures var r := ListenPlayer(p, text, language, synthesis);
      var key := CacheKey(language, text);
      && |p.effects| <= |r.effects| && r.effects[..|p.effects|] == p.effects
      && (RequestSynthesis(text, language) in r.effects[|p.effects|..] <==> key !in p.cache)
      && (key in r.cache <==> key in p.cache || synthesis.Synthesized?)
      && (key in p.cache ==> r.cache == p.cache && r.cacheKeys == p.cacheKeys && r.urlsCreated == p.urlsCreated)
      && (key !in p.cache && synthesis.Synthesized? ==>
            && r.cache == p.cache[key := ObjectUrl(p.urlsCreated)]
            && r.cacheKeys == p.cacheKeys + [key]
            && r.urlsCreated == p.urlsCreated + 1)
      && (key !in p.cache && synthesis.SynthesisFailed? ==>
            r == p.(effects := p.effects + [RequestSynthesis(text, language)]))
      && (key in r.cache ==>
            && r.audio == Some(Audio(p.audiosCreated, r.cache[key]))
            && r.audiosCreated == p.audiosCreated + 1
            && r.effects != [] && r.effects[|r.effects| - 1] == PlayAudio(r.audio.value))
  {
    var key := CacheKey(language, text);
    var r := ListenPlayer(p, text, language, synthesis);
    if key in p.cache {
      assert r.effects[|p.effects|..] == PlaybackEffects(p.audio, r.audio.value);
    } else if synthesis.Synthesized? {
      var made := ObjectUrl(p.urlsCreated);
      assert r.effects[|p.effects|..] == [RequestSynthesis(text, language), CreateObjectUrl(made)] + PlaybackEffects(p.audio, r.audio.value);
    } else {
      assert r.effects[|p.effects|..] == [RequestSynthesis(text, language)];
    }
  }

  /**
   * When a run gets to play, the audio that was current is paused right
   * before the new one plays, within what this run added to the log.
   */
  lemma ListenPausesPrevious(p: Player, text: string, language: string, synthesis: SynthesisOutcome)
    requires p.audio.Some?
    requires CacheKey(language, text) in p.cache || synthesis.Synthesized?
    ensures var r := ListenPlayer(p, text, language, synthesis);
      && |p.effects| + 2 <= |r.effects|
      && r.effects[|r.effects| - 2] == PauseAudio(p.audio.value)
      && r.effects[|r.effects| - 1] == PlayAudio(r.audio.value)
  {
    var r := ListenPlayer(p, text, language, synthesis);
    var key := CacheKey(language, text);
    var before := if key in p.cache then p
      else p.(cacheKeys := p.cacheKeys + [key], cache := p.cache[key := ObjectUrl(p.urlsCreated)], urlsCreated := p.urlsCreated + 1,
              effects := p.effects + [RequestSynthesis(text, language)] + [CreateObjectUrl(ObjectUrl(p.urlsCreated))]);
    assert r == Started(before, before.cache[key]);
  }

  /** A run of `handleListen` keeps the cache's numbering intact. */
  lemma ListenKeepsPlayerValid(p: Player, liveFrom: nat, text: string, language: string, synthesis: SynthesisOutcome)
    requires PlayerValid(p, liveFrom)
    ensures PlayerValid(ListenPlayer(p, text, language, synthesis), liveFrom)
  {
    var key := CacheKey(language, text);
    var r := ListenPlayer(p, text, language, synthesis);
    if key !in p.cache && synthesis.Synthesized? {
      forall i | 0 <= i < |r.cacheKeys|
        ensures r.cacheKeys[i] in r.cache && r.cache[r.cacheKeys[i]] == ObjectUrl(liveFrom + i)
      {
        if i < |p.cacheKeys| {
          assert r.cacheKeys[i] == p.cacheKeys[i] != key;
        }
      }
    }
  }

  /**
   * Once a narration has been played, listening to it again in the same
   * language makes no request to the server and plays the same URL again.
   */
  lemma ListenAgainReusesAudio(p: Player, text: string, language: string, first: SynthesisOutcome, second: SynthesisOutcome)
    requires CacheKey(language, text) in p.cache || first.Synthesized?
    ensures var p1 := ListenPlayer(p, text, language, first);
      var p2 := ListenPlayer(p1, text, language, second);
      && p2.cache == p1.cache && p2.cacheKeys == p1.cacheKeys && p2.urlsCreated == p1.urlsCreated
      && p2.effects == p1.effects + PlaybackEffects(p1.audio, p2.audio.value)
      && p1.audio.Some? && p2.audio.Some? && p2.audio.value.src == p1.audio.value.src
      && p2.audio.value != p1.audio.value
  {
  }

  /**
   * The cache separates languages: after listening in one offered language,
   * a narration not yet cached in another still has to be synthesized.
   */
  lemma OtherLanguageStillMisses(p: Player, text: string, language: string, other: string, synthesis: SynthesisOutcome)
    requires language in LanguageCodes && other in LanguageCodes && language != other
    requires CacheKey(other, text) !in p.cache
    ensures CacheKey(other, text) !in ListenPlayer(p, text, language, synthesis).cache
  {
    var r := ListenPlayer(p, text, language, synthesis);
    if CacheKey(other, text) in r.cache {
      assert CacheKey(other, text) == CacheKey(language, text);
      CacheKeyInjective(other, text, language, text);
    }
  }

  /** Revoking the cache in key order covers every URL made since the last cleanup. */
  lemma RevocationsCoverCache(p: Player, liveFrom: nat)
    requires PlayerValid(p, liveFrom)
    ensures forall id: nat :: liveFrom <= id < p.urlsCreated ==> ObjectUrl(id) in Revocations(p.cacheKeys, p.cache)
  {
    var r := Revocations(p.cacheKeys, p.cache);
    forall id: nat | liveFrom <= id < p.urlsCreated
      ensures ObjectUrl(id) in r
    {
      RevocationsAt(p.cacheKeys, p.cache, id - liveFrom);
      assert r[id - liveFrom] == ObjectUrl(id);
    }
  }

  class LandingView {
    /** `landingAudioText`, the text the button reads out. */
    const narration: string
    var menuOpen: bool
    var audioLanguage: string
    var isSpeaking: bool
    var audioError: string
    /** `audioCacheRef` and `audioRef`, with the request log. */
    var player: Player
    /** The URLs passed to `URL.revokeObjectURL`, in order. */
    var revoked: seq<ObjectUrl>
    /** The URLs made from this number on have not been revoked: those made before it have, by a teardown. */
    ghost var liveFrom: nat

    /**
     * The cache is numbered from `liveFrom`; every URL made before that has
     * been revoked, none made since.
     */
    ghost predicate Valid()
      reads this`player, this`liveFrom, this`revoked
    {
      && PlayerValid(player, liveFrom)
      && (forall i :: 0 <= i < |revoked| ==> revoked[i].id < liveFrom)
      && (forall id: nat :: id < liveFrom ==> ObjectUrl(id) in revoked)
    }

    /** No URL the view still holds in its cache has been revoked. */
    lemma CachedUrlsAreLive()
      requires Valid()
      ensures forall i, k :: 0 <= i < |revoked| && k in player.cache ==> revoked[i] != player.cache[k]
    {
      CachedUrlsInRange(player, liveFrom);
    }

    /** The unmount cleanup revokes each URL the cache holds exactly once, and nothing else. */
    lemma TeardownRevokesEachCachedUrlOnce()
      requires Valid()
      ensures forall k :: k in player.cacheKeys ==> k in player.cache
      ensures var r := Revocations(player.cacheKeys, player.cache);
        && (forall i, j :: 0 <= i < j < |r| ==> r[i] != r[j])
        && (forall u :: u in r <==> u in player.cache.Values)
    {
      CacheIsInjective(player, liveFrom);
      TeardownRevokesEachUrlOnce(player.cacheKeys, player.cache);
    }

    constructor ()
      ensures Valid()
      ensures narration == LandingAudioText
      ensures !menuOpen && audioLanguage == "en" && !isSpeaking && audioError == ""
      ensures player == Player([], map[], 0, None, 0, []) && revoked == []
    {
      narration := LandingAudioText;
      menuOpen := false;
      audioLanguage := "en";
      isSpeaking := false;
      audioError := "";
      player := Player([], map[], 0, None, 0, []);
      revoked := [];
      liveFrom := 0;
    }

    /** The language selector: it only offers the codes in `LanguageCodes`. */
    method SelectLanguage(code: string)
      requires code in LanguageCodes
      modifies this`audioLanguage
      ensures audioLanguage == code
    {
      audioLanguage := code;
    }

    /**
     * One run of `handleListen`, each awaited step settling as its input says:
     * `synthesis` for the server request (used on a cache miss only), `play`
     * for `audio.play()` (used when there is audio to play), and `synth` and
     * `event` for the browser voice (used when the server voice is not configured).
     */
    method HandleListen(synthesis: SynthesisOutcome, play: PlayOutcome, synth: SpeechSynthesis?, event: UtteranceEvent)
      requires Valid()
      modifies this`isSpeaking, this`audioError, this`player, synth
      ensures Valid()
      ensures player == ListenPlayer(old(player), narration, audioLanguage, synthesis)
      ensures var failure := ListenFailure(CacheKey(audioLanguage, narration) in old(player).cache, synthesis, play);
        && NarrationStatus(isSpeaking, audioError) == ListenStatus(failure, BrowserSpeechOutcome(synth != null, event))
        && (synth != null ==>
              synth.calls == old(synth.calls)
              + (if FallsBack(failure) then [Cancel, Speak(narration, UtteranceLanguage(audioLanguage), 1.0, 1.0)] else []))
    {
      audioError := "";
      isSpeaking := true;
      var failure := FetchAndPlay(synthesis, play);
      if failure.Some? {
        var status := SettleFailure(failure.value, synth, narration, audioLanguage, event);
        isSpeaking, audioError := status.isSpeaking, status.audioError;
      }
      ListenKeepsPlayerValid(old(player), liveFrom, narration, audioLanguage, synthesis);
    }

    /**
     * The `try` block of `handleListen`: get the audio (from the cache or the
     * server) and start it, returning the error caught if either step fails.
     */
    method FetchAndPlay(synthesis: SynthesisOutcome, play: PlayOutcome) returns (failure: Option<Thrown>)
      modifies this`player
      ensures player == ListenPlayer(old(player), narration, audioLanguage, synthesis)
      ensures failure == ListenFailure(CacheKey(audioLanguage, narration) in old(player).cache, synthesis, play)
    {
      failure := None;
      var key := CacheKey(audioLanguage, narration);
      var url: Option<ObjectUrl> := None;
      if key in player.cache {
        url := Some(player.cache[key]);
      } else {
        player := player.(effects := player.effects + [RequestSynthesis(narration, audioLanguage)]);
        if synthesis.SynthesisFailed? {
          failure := Some(synthesis.error);
        } else {
          var made := ObjectUrl(player.urlsCreated);
          player := player.(cacheKeys := player.cacheKeys + [key], cache := player.cache[key := made],
                            urlsCreated := player.urlsCreated + 1, effects := player.effects + [CreateObjectUrl(made)]);
          url := Some(made);
        }
      }
      if url.Some? {
        ghost var before := player;
        var started := Audio(player.audiosCreated, url.value);
        if player.audio.Some? {
          player := player.(effects := player.effects + [PauseAudio(player.audio.value)]);
        }
        player := player.(audio := Some(started), audiosCreated := player.audiosCreated + 1,
                          effects := player.effects + [PlayAudio(started)]);
        assert player.effects == before.effects + PlaybackEffects(before.audio, started);
        assert player == Started(before, url.value);
        if play.PlayRejected? {
          failure := Some(play.error);
        }
      }
    }

    /** The current audio's `ended` event. */
    method OnAudioEnded()
      modifies this`isSpeaking
      ensures !isSpeaking
    {
      isSpeaking := false;
    }

    /** The current audio's `error` event. */
    method OnAudioError()
      modifies this`isSpeaking, this`audioError
      ensures !isSpeaking && audioError == PlaybackFailed
    {
      isSpeaking := false;
      audioError := PlaybackFailed;
    }

    /**
     * The unmount cleanup: pause and drop the current audio, revoke every
     * cached URL in insertion order, and empty the cache.
     */
    method Teardown()
      requires Valid()
      modifies this`player, this`revoked, this`liveFrom
      ensures Valid()
      ensures player == old(player).(
        cacheKeys := [], cache := map[], audio := None,
        effects := old(player).effects + (if old(player).audio.Some? then [PauseAudio(old(player).audio.value)] else []))
      ensures revoked == old(revoked) + Revocations(old(player).cacheKeys, old(player).cache)
    {
      if player.audio.Some? {
        player := player.(effects := player.effects + [PauseAudio(player.audio.value)], audio := None);
      }
      CachedUrlsInRange(player, liveFrom);
      var urls := RevokeAll(player.cacheKeys, player.cache);
      RevocationsBelow(player.cacheKeys, player.cache, player.urlsCreated);
      RevocationsCoverCache(player, liveFrom);
      revoked := revoked + urls;
      liveFrom := player.urlsCreated;
      player := player.(cache := map[], cacheKeys := []);
    }

    // The navigation menu.

    /** The route changed. */
    method RouteChanged()
      modifies this`menuOpen
      ensures !menuOpen
    {
      menuOpen := false;
    }

    /** A mouse press anywhere in the document; it closes an open menu when outside the navigation. */
    method PointerDown(insideNav: bool)
      modifies this`menuOpen
      ensures menuOpen == (old(menuOpen) && insideNav)
    {
      if !menuOpen {
        return;
      }
      if !insideNav {
        menuOpen := false;
      }
    }

    /** A key press anywhere in the document; Escape closes the menu. */
    method DocumentKeyDown(key: string)
      modifies this`menuOpen
      ensures menuOpen == (old(menuOpen) && key != "Escape")
    {
      if key == "Escape" {
        menuOpen := false;
      }
    }

    /** A click on the menu button. */
    method ToggleClicked()
      modifies this`menuOpen
      ensures menuOpen == !old(menuOpen)
    {
      menuOpen := !menuOpen;
    }

    /** A key press on the focused menu button: Enter and Space toggle. */
    method ToggleKeyDown(key: string)
      modifies this`menuOpen
      ensures menuOpen == if key == "Enter" || key == " " then !old(menuOpen) else old(menuOpen)
    {
      if key == "Enter" || key == " " {
        menuOpen := !menuOpen;
      }
    }

    /** A click on one of the navigation links. */
    method NavLinkClicked()
      modifies this`menuOpen
      ensures !menuOpen
    {
      menuOpen := false;
    }
  }
}

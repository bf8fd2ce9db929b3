/**
 * The HLS video player component (VideoPlayer.jsx): the `<video>` element it
 * drives, its two state records, the engine handle, and one method per
 * handler. Each asynchronous callback is one method call; the outcome of
 * every platform request (`play()`, picture-in-picture, fullscreen) and of
 * every fetch is a parameter. Calls to the platform, to hls.js and to the
 * timer queue are appended to `calls`, in order, instead of being made.
 */
module Player {
  import opened Wrappers
  import opened JsText
  import opened Clock
  import opened Manifest
  import opened Hls

  const AutoplayBlocked := "Click to play (autoplay blocked)"
  const PipUnavailable := "Picture-in-Picture not available"
  const FullscreenUnavailable := "Fullscreen not available"
  const VideoErrorPrefix := "Video error: "
  const HideControlsDelayMs: nat := 3000
  const FlashDelayMs: nat := 1000
  const SkipSeconds: real := 5.0
  /** `attemptPlay` retries while `attempts < 2`, so it calls `play()` at most three times */
  const MaxAutoplayRetries: nat := 2

  /** `playerState` */
  datatype PlayerState = PlayerState(
    isPlaying: bool,
    progress: real,
    duration: Seconds,
    currentTime: real,
    volume: real,
    isMuted: bool,
    playbackRate: real,
    error: Option<string>,
    isFullscreen: bool,
    isPiP: bool,
    currentQuality: string,
    availableQualities: seq<QualityLevel>)

  const InitialPlayerState := PlayerState(false, 0.0, Secs(0.0), 0.0, 1.0, false, 1.0, None,
                                          false, false, "auto", [])

  /** `uiState` */
  datatype UiState = UiState(showControls: bool, showVolume: bool, showSettings: bool, showQuality: bool) {

    predicate MenusExclusive() {
      !(showSettings && showQuality)
    }

    /** The settings button: flips the settings menu and closes the quality menu */
    function ToggleSettings(): (u: UiState)
      ensures u.MenusExclusive() && !u.showQuality
      ensures u.showSettings != showSettings
      ensures u.showControls == showControls && u.showVolume == showVolume
    {
      this.(showSettings := !showSettings, showQuality := false)
    }

    /** The quality button: flips the quality menu and closes the settings menu */
    function ToggleQuality(): (u: UiState)
      ensures u.MenusExclusive() && !u.showSettings
      ensures u.showQuality != showQuality
      ensures u.showControls == showControls && u.showVolume == showVolume
    {
      this.(showQuality := !showQuality, showSettings := false)
    }
  }

  const InitialUi := UiState(true, false, false, false)

  /** A request the component makes of the platform, of hls.js or of the timer queue */
  datatype Call =
    | FetchManifest(url: string)
    | Sleep(ms: nat)
    | Play(muted: bool)                       // `video.play()`, with the element's muted flag at that moment
    | Pause
    | LoadSource(generation: nat, url: string)
    | AttachMedia(generation: nat)
    | DestroyEngine(generation: nat)
    | StartLoadAfter(generation: nat, delayMs: nat)
    | RecoverMediaError(generation: nat)
    | SetCurrentLevel(generation: nat, level: int)
    | CancelHideControls
    | HideControlsAfter(delayMs: nat)
    | HideFlashAfter(delayMs: nat)

  /** How a `play()` promise settles */
  datatype PlayResult = Resolved | Refused(name: string, message: string)

  /** The requests of manifest verification when `attempts` requests are made:
      a fetch per attempt, with the backoff sleep between consecutive ones */
  function VerificationCalls(url: string, attempts: nat): (cs: seq<Call>)
    ensures |cs| == if attempts == 0 then 0 else 2 * attempts - 1
    ensures forall i :: 0 <= i < |cs| ==>
      cs[i] == if i % 2 == 0 then FetchManifest(url) else Sleep(Backoffs(attempts - 1)[i / 2])
  {
    if attempts == 0 then []
    else if attempts == 1 then [FetchManifest(url)]
    else VerificationCalls(url, attempts - 1) + [Sleep(BackoffStepMs * (attempts - 1)), FetchManifest(url)]
  }

  /** The destroy call made on the previous engine, if there is one */
  function DestroyCalls(engine: Option<Engine>): seq<Call> {
    if engine.Some? then [DestroyEngine(engine.value.generation)] else []
  }

  // ------------------------------------------------------------- autoplay policy

  /** Some `play()` call of `attemptPlay(from)` resolves */
  ghost predicate AutoplayStarts(plays: seq<bool>, from: nat)
    requires from <= MaxAutoplayRetries < |plays|
    decreases MaxAutoplayRetries - from
  {
    plays[from] || (from < MaxAutoplayRetries && AutoplayStarts(plays, from + 1))
  }

  /** The `play()` calls `attemptPlay(from)` makes when the element's muted flag is `muted` */
  ghost function AutoplayCalls(muted: bool, plays: seq<bool>, from: nat): seq<Call>
    requires from <= MaxAutoplayRetries < |plays|
    decreases MaxAutoplayRetries - from
  {
    [Play(muted)] + if plays[from] || from == MaxAutoplayRetries then [] else AutoplayCalls(true, plays, from + 1)
  }

  /** `attemptPlay()` makes at most three `play()` calls, every call after the
      first is made muted, and it stops at the first call that resolves */
  lemma {:induction false} AutoplayCallsShape(muted: bool, plays: seq<bool>, from: nat)
    requires from <= MaxAutoplayRetries < |plays|
    decreases MaxAutoplayRetries - from
    ensures var cs := AutoplayCalls(muted, plays, from);
      && 1 <= |cs| <= MaxAutoplayRetries + 1 - from
      && (forall k :: 0 <= k < |cs| ==> cs[k].Play?)
      && cs[0] == Play(muted)
      && (forall k :: 1 <= k < |cs| ==> cs[k] == Play(true))
      && (forall k :: from <= k < from + |cs| - 1 ==> !plays[k])
      && (AutoplayStarts(plays, from) <==> plays[from + |cs| - 1])
  {
    if !(plays[from] || from == MaxAutoplayRetries) {
      AutoplayCallsShape(true, plays, from + 1);
      var rest := AutoplayCalls(true, plays, from + 1);
      assert AutoplayCalls(muted, plays, from) == [Play(muted)] + rest;
    }
  }

  // ------------------------------------------------------------ seek and progress

  /** The media position the seek bar's value (0 to 100) stands for: a
      value on the bar is a position inside the media */
  function SeekTarget(value: real, duration: real): (t: real)
    ensures 0.0 <= value <= 100.0 && 0.0 <= duration ==> 0.0 <= t <= duration
  {
    if 0.0 <= value <= 100.0 then
      Fraction(value, 100.0);
      assert 0.0 <= value / 100.0 <= 1.0;
      ScaleWithin(value / 100.0, duration);
      assert 0.0 <= duration ==> 0.0 <= (value / 100.0) * duration <= duration;
      (value / 100.0) * duration
    else
      (value / 100.0) * duration
  }

  /** The seek bar's value for a position: a position inside the media is a
      value on the bar */
  function ProgressOf(currentTime: real, duration: real): (p: real)
    requires duration != 0.0
    ensures 0.0 <= currentTime <= duration ==> 0.0 <= p <= 100.0
  {
    if 0.0 <= currentTime <= duration then
      Fraction(currentTime, duration);
      assert 0.0 <= currentTime / duration <= 1.0;
      ScaleWithin(currentTime / duration, 100.0);
      assert 0.0 <= (currentTime / duration) * 100.0 <= 100.0;
      (currentTime / duration) * 100.0
    else
      (currentTime / duration) * 100.0
  }

  /** Multiplying by a nonzero amount and dividing by it again gives the number back */
  lemma Cancel(x: real, amount: real)
    requires amount != 0.0
    ensures (x * amount) / amount == x
  {
    assert (x * amount) / amount * amount == x * amount;
  }

  /** A part of a positive whole is a fraction between 0 and 1 of it */
  lemma Fraction(part: real, whole: real)
    requires 0.0 < whole
    ensures 0.0 <= part <= whole ==> 0.0 <= part / whole <= 1.0
  {
    if 0.0 <= part <= whole {
      var f := part / whole;
      assert f * whole == part;
    }
  }

  /** A fraction between 0 and 1 of a non-negative amount lies between 0 and the amount */
  lemma ScaleWithin(f: real, amount: real)
    ensures 0.0 <= f <= 1.0 && 0.0 <= amount ==> 0.0 <= f * amount <= amount
  {
    if 0.0 <= f <= 1.0 && 0.0 <= amount {
      assert f * amount <= 1.0 * amount;
    }
  }

  /** The seek bar and the progress read-out are inverse to each other:
      seeking to a value and reading the progress back gives the value, and
      seeking to the progress of a position returns to that position */
  lemma SeekProgressRoundTrip(value: real, currentTime: real, duration: real)
    requires duration > 0.0
    ensures ProgressOf(SeekTarget(value, duration), duration) == value
    ensures SeekTarget(ProgressOf(currentTime, duration), duration) == currentTime
  {
    var t := SeekTarget(value, duration);
    Cancel(value / 100.0, duration);
    var p := ProgressOf(currentTime, duration);
    assert p / 100.0 == currentTime / duration;
  }

  /** Where the element puts its position when it is assigned `t`: never
      before the start, never past a known end */
  function Clamp(t: real, duration: Seconds): (r: real)
    requires duration.NonNegative()
    ensures 0.0 <= r
    ensures duration.Secs? ==> r <= duration.value
    ensures (0.0 <= t && (duration.Secs? ==> t <= duration.value)) ==> r == t
  {
    if t < 0.0 then 0.0 else if duration.Secs? && t > duration.value then duration.value else t
  }

  /** All the element's properties at one moment */
  datatype ElementState = ElementState(paused: bool, currentTime: real, duration: Seconds,
                                       volume: real, muted: bool, playbackRate: real, src: Option<string>) {

    /** What the platform guarantees of an element: a position inside the
        media and a volume between 0 and 1 */
    predicate WellFormed() {
      && 0.0 <= currentTime
      && duration.NonNegative()
      && (duration.Secs? ==> currentTime <= duration.value)
      && 0.0 <= volume <= 1.0
    }
  }

  /** The `<video>` element */
  class MediaElement {
    var paused: bool
    var currentTime: real
    var duration: Seconds
    var volume: real
    var muted: bool
    var playbackRate: real
    var src: Option<string>

    ghost predicate Valid()
      reads this
    {
      Snapshot().WellFormed()
    }

    function Snapshot(): ElementState
      reads this
    {
      ElementState(paused, currentTime, duration, volume, muted, playbackRate, src)
    }

    /** A paused element at the start of a media of the given duration, full volume, not muted */
    constructor (duration: Seconds)
      requires duration.NonNegative()
      ensures Valid()
      ensures Snapshot() == ElementState(true, 0.0, duration, 1.0, false, 1.0, None)
    {
      paused, currentTime, this.duration := true, 0.0, duration;
      volume, muted, playbackRate, src := 1.0, false, 1.0, None;
    }

    /** Assigning `currentTime`: the element clamps the position into the media */
    method SetCurrentTime(t: real)
      requires Valid()
      modifies this
      ensures Valid()
      ensures Snapshot() == old(Snapshot()).(currentTime := Clamp(t, duration))
    {
      currentTime := Clamp(t, duration);
    }

    /** A `play()` call that resolves: the element is no longer paused */
    method Resume()
      requires Valid()
      modifies this
      ensures Valid()
      ensures Snapshot() == old(Snapshot()).(paused := false)
    {
      paused := false;
    }

    /** `video.muted = true` */
    method Mute()
      requires Valid()
      modifies this
      ensures Valid()
      ensures Snapshot() == old(Snapshot()).(muted := true)
    {
      muted := true;
    }

    /** `video.src = url` */
    method SetSource(url: string)
      requires Valid()
      modifies this
      ensures Valid()
      ensures Snapshot() == old(Snapshot()).(src := Some(url))
    {
      src := Some(url);
    }

    /** A change the platform makes on its own, not through the component:
        metadata arriving after a source is set, playback moving the position,
        the media ending, the native controls changing the volume or the rate.
        The source stays the one the component set. */
    method PlatformChange(next: ElementState)
      requires next.WellFormed()
      modifies this
      ensures Valid()
      ensures Snapshot() == next.(src := old(src))
    {
      paused, currentTime, duration := next.paused, next.currentTime, next.duration;
      volume, muted, playbackRate := next.volume, next.muted, next.playbackRate;
    }
  }

  /** The mounted component */
  class VideoPlayer {
    const video: MediaElement
    var state: PlayerState
    var ui: UiState
    /** `showPlayPause`, the centre icon flashed on a click */
    var showPlayPause: bool
    /** `hlsRef.current` */
    var engine: Option<Engine>
    /** Engines created so far; the next engine's generation */
    var engines: nat
    var calls: seq<Call>

    ghost predicate Valid()
      reads this, video
    {
      && video.Valid()
      && ui.MenusExclusive()
      && state.duration.NonNegative()
      && 0.0 <= state.currentTime
      && 0.0 <= state.volume <= 1.0
      && (engine.Some? ==> engine.value.generation < engines)
    }

    constructor (video: MediaElement)
      requires video.Valid()
      ensures Valid() && this.video == video
      ensures state == InitialPlayerState && ui == InitialUi && !showPlayPause
      ensures engine == None && engines == 0 && calls == []
    {
      this.video := video;
      state, ui, showPlayPause := InitialPlayerState, InitialUi, false;
      engine, engines, calls := None, 0, [];
    }

    // ---------------------------------------------------------- initialisation

    /** `initPlayer`: verify the playlist, then attach a fresh hls.js engine,
        or let the element play the playlist natively, or fail */
    method InitPlayer(videoId: Option<string>, apiBase: Option<string>, fetches: seq<FetchOutcome>,
                      hlsSupported: bool, nativeSupported: bool)
      requires Valid() && Retries <= |fetches|
      modifies this, video
      ensures Valid()
      ensures ui == old(ui) && showPlayPause == old(showPlayPause)
      ensures videoId.None? || videoId.value == "" ==>
        state == old(state) && engine == old(engine) && engines == old(engines)
        && calls == old(calls) && video.Snapshot() == old(video.Snapshot())
      ensures videoId.Some? && videoId.value != "" ==>
        var url := ManifestUrl(apiBase, videoId.value);
        var verdict := VerdictFrom(fetches, 0);
        var checked := old(calls) + VerificationCalls(url, AttemptsFrom(fetches, 0));
        && (verdict.Failed? ==>
              && state == old(state).(error := Some(InitErrorMessage(verdict.message)), isPlaying := false)
              && engine == old(engine) && engines == old(engines) && calls == checked
              && video.Snapshot() == old(video.Snapshot()))
        && (verdict.Verified? && hlsSupported ==>
              && state == old(state)
              && engine == Some(Engine(old(engines), [], -1, false)) && engines == old(engines) + 1
              && calls == checked + DestroyCalls(old(engine)) + [LoadSource(old(engines), url), AttachMedia(old(engines))]
              && video.Snapshot() == old(video.Snapshot()))
        && (verdict.Verified? && !hlsSupported && nativeSupported ==>
              && state == old(state) && engine == old(engine) && engines == old(engines) && calls == checked
              && video.Snapshot() == old(video.Snapshot()).(src := Some(url)))
        && (verdict.Verified? && !hlsSupported && !nativeSupported ==>
              && state == old(state).(error := Some(UnsupportedMessage), isPlaying := false)
              && engine == old(engine) && engines == old(engines) && calls == checked
              && video.Snapshot() == old(video.Snapshot()))
    {
      if videoId.None? || videoId.value == "" {
        return;
      }
      var url := ManifestUrl(apiBase, videoId.value);
      var verdict, attempts, waits := VerifyManifest(fetches);
      calls := calls + VerificationCalls(url, attempts);
      if verdict.Failed? {
        ShowInitError(verdict.message);
      } else if hlsSupported {
        AttachEngine(url);
      } else if nativeSupported {
        video.SetSource(url);
      } else {
        UnsupportedShownVerbatim();
        ShowInitError(UnsupportedMessage);
      }
    }

    /** The hls.js branch of `initPlayer`: destroy the previous engine, create
        a new one, load the playlist and attach the element */
    method AttachEngine(url: string)
      requires Valid()
      modifies this
      ensures Valid()
      ensures state == old(state) && ui == old(ui) && showPlayPause == old(showPlayPause)
      ensures engine == Some(Engine(old(engines), [], -1, false)) && engines == old(engines) + 1
      ensures calls == old(calls) + DestroyCalls(old(engine)) + [LoadSource(old(engines), url), AttachMedia(old(engines))]
    {
      calls := calls + DestroyCalls(engine);
      var created := Engine(engines, [], -1, false);
      engines := engines + 1;
      calls := calls + [LoadSource(created.generation, url), AttachMedia(created.generation)];
      engine := Some(created);
    }

    /** The catch block of `initPlayer`: show the mapped message and stop playing */
    method ShowInitError(message: string)
      requires Valid()
      modifies this
      ensures Valid()
      ensures state == old(state).(error := Some(InitErrorMessage(message)), isPlaying := false)
      ensures ui == old(ui) && showPlayPause == old(showPlayPause)
      ensures engine == old(engine) && engines == old(engines) && calls == old(calls)
    {
      state := state.(error := Some(InitErrorMessage(message)), isPlaying := false);
    }

    /** The engine's ERROR event */
    method OnHlsError(e: HlsError)
      requires Valid() && engine.Some? && !engine.value.destroyed
      modifies this
      ensures Valid()
      ensures ui == old(ui) && showPlayPause == old(showPlayPause) && engines == old(engines)
      ensures var g := old(engine).value.generation;
        match Classify(e)
        case Ignore =>
          state == old(state) && engine == old(engine) && calls == old(calls)
        case Reconnect(message, delay) =>
          state == old(state).(error := Some(message)) && engine == old(engine)
          && calls == old(calls) + [StartLoadAfter(g, delay)]
        case RecoverMedia =>
          state == old(state) && engine == old(engine) && calls == old(calls) + [RecoverMediaError(g)]
        case Teardown(message) =>
          // the handle is destroyed but `hlsRef` still points at it
          state == old(state).(error := Some(message))
          && engine == Some(old(engine).value.(destroyed := true))
          && calls == old(calls) + [DestroyEngine(g)]
    {
      var g := engine.value.generation;
      match Classify(e)
      case Ignore =>
      case Reconnect(message, delay) =>
        state := state.(error := Some(message));
        calls := calls + [StartLoadAfter(g, delay)];
      case RecoverMedia =>
        calls := calls + [RecoverMediaError(g)];
      case Teardown(message) =>
        state := state.(error := Some(message));
        calls := calls + [DestroyEngine(g)];
        engine := Some(engine.value.(destroyed := true));
    }

    /** The engine's MANIFEST_PARSED event: publish the quality list, then
        try to start playback */
    method OnManifestParsed(levels: seq<Level>, plays: seq<bool>)
      requires Valid() && engine.Some? && !engine.value.destroyed
      requires |levels| > 0 && levels[0].duration.NonNegative()
      requires MaxAutoplayRetries < |plays|
      modifies this, video
      ensures Valid()
      ensures ui == old(ui) && showPlayPause == old(showPlayPause) && engines == old(engines)
      ensures engine == Some(old(engine).value.(levels := levels))
      ensures var parsed := old(state).(availableQualities := Qualities(levels), currentQuality := "auto",
                                        error := None, duration := levels[0].duration);
        state == if AutoplayStarts(plays, 0) then parsed.(isPlaying := true)
                 else parsed.(error := Some(AutoplayBlocked))
      ensures calls == old(calls) + AutoplayCalls(old(video.muted), plays, 0)
      ensures video.Snapshot() == old(video.Snapshot()).(
        paused := old(video.paused) && !AutoplayStarts(plays, 0),
        muted := old(video.muted) || !plays[0])
    {
      engine := Some(engine.value.(levels := levels));
      state := state.(availableQualities := Qualities(levels), currentQuality := "auto",
                      error := None, duration := levels[0].duration);
      AttemptPlay(0, plays);
    }

    /** `attemptPlay(attempts)`: `play()`; on rejection mute and retry while
        `attempts < 2`, otherwise ask for a click. `plays[k]` is whether the
        k-th `play()` call resolves. */
    method AttemptPlay(attempts: nat, plays: seq<bool>)
      requires Valid() && attempts <= MaxAutoplayRetries < |plays|
      modifies this, video
      decreases MaxAutoplayRetries - attempts
      ensures Valid()
      ensures ui == old(ui) && showPlayPause == old(showPlayPause)
      ensures engine == old(engine) && engines == old(engines)
      ensures state == if AutoplayStarts(plays, attempts) then old(state).(isPlaying := true)
                       else old(state).(error := Some(AutoplayBlocked))
      ensures calls == old(calls) + AutoplayCalls(old(video.muted), plays, attempts)
      ensures video.Snapshot() == old(video.Snapshot()).(
        paused := old(video.paused) && !AutoplayStarts(plays, attempts),
        muted := old(video.muted) || (attempts < MaxAutoplayRetries && !plays[attempts]))
    {
      calls := calls + [Play(video.muted)];
      if plays[attempts] {
        video.Resume();
        state := state.(isPlaying := true);
      } else if attempts < MaxAutoplayRetries {
        video.Mute();
        AttemptPlay(attempts + 1, plays);
      } else {
        state := state.(error := Some(AutoplayBlocked));
      }
    }

    /** The engine's LEVEL_SWITCHED event */
    method OnLevelSwitched(level: int)
      requires Valid() && engine.Some? && !engine.value.destroyed
      modifies this
      ensures Valid()
      ensures engine == old(engine) && engines == old(engines) && calls == old(calls)
      ensures state == old(state).(currentQuality := LevelSwitchLabel(old(engine).value.levels, level))
      ensures ui == old(ui) && showPlayPause == old(showPlayPause)
    {
      state := state.(currentQuality := LevelSwitchLabel(engine.value.levels, level));
    }

    /** `loadedmetadata` on the native path: publish the duration, then `play()`,
        and once more muted if that is rejected */
    method OnNativeLoadedMetadata(first: bool, second: bool)
      requires Valid()
      modifies this, video
      ensures Valid()
      ensures ui == old(ui) && showPlayPause == old(showPlayPause)
      ensures engine == old(engine) && engines == old(engines)
      ensures first ==>
        && state == old(state).(duration := old(video.duration), error := None)
        && calls == old(calls) + [Play(old(video.muted))]
        && video.Snapshot() == old(video.Snapshot()).(paused := false)
      ensures !first ==>
        && state == old(state).(duration := old(video.duration),
                                error := if second then None else Some(AutoplayBlocked))
        && calls == old(calls) + [Play(old(video.muted)), Play(true)]
        && video.Snapshot() == old(video.Snapshot()).(paused := old(video.paused) && !second, muted := true)
    {
      var error: Option<string> := None;
      if first {
        calls := calls + [Play(video.muted)];
        video.paused := false;
      } else {
        calls := calls + [Play(video.muted), Play(true)];
        video.muted := true;
        if second {
          video.paused := false;
        } else {
          error := Some(AutoplayBlocked);
        }
      }
      state := state.(duration := video.duration, error := error);
    }

    // ------------------------------------------------------------- transport

    /** `togglePlayPause`: play a paused element (clearing the error), pause a
        playing one. `isPlaying` is left to the element's own events. */
    method TogglePlayPause(first: PlayResult, second: bool)
      requires Valid()
      modifies this, video
      ensures Valid()
      ensures ui == old(ui) && showPlayPause == old(showPlayPause)
      ensures engine == old(engine) && engines == old(engines)
      ensures !old(video.paused) ==>
        state == old(state) && calls == old(calls) + [Pause]
        && video.Snapshot() == old(video.Snapshot()).(paused := true)
      ensures old(video.paused) && first.Resolved? ==>
        state == old(state).(error := None) && calls == old(calls) + [Play(old(video.muted))]
        && video.Snapshot() == old(video.Snapshot()).(paused := false)
      ensures old(video.paused) && first.Refused? && first.name == "NotAllowedError" ==>
        state == (if second then old(state) else old(state).(error := Some(AutoplayBlocked)))
        && calls == old(calls) + [Play(old(video.muted)), Play(true)]
        && video.Snapshot() == old(video.Snapshot()).(paused := !second, muted := true)
      ensures old(video.paused) && first.Refused? && first.name != "NotAllowedError" ==>
        state == old(state).(error := Some(first.message)) && calls == old(calls) + [Play(old(video.muted))]
        && video.Snapshot() == old(video.Snapshot())
    {
      if video.paused {
        calls := calls + [Play(video.muted)];
        match first
        case Resolved =>
          video.paused := false;
          state := state.(error := None);
        case Refused(name, message) =>
          if name == "NotAllowedError" {
            video.muted := true;
            calls := calls + [Play(true)];
            if second {
              video.paused := false;
            } else {
              state := state.(error := Some(AutoplayBlocked));
            }
          } else {
            state := state.(error := Some(message));
          }
      } else {
        video.paused := true;
        calls := calls + [Pause];
      }
    }

    /** `changeQuality`: force a level (or -1 for automatic) on the engine, show
        its label and close the quality menu; nothing without an engine */
    method ChangeQuality(levelIndex: int)
      requires Valid()
      modifies this
      ensures Valid()
      ensures showPlayPause == old(showPlayPause) && engines == old(engines)
      ensures old(engine).None? ==>
        state == old(state) && ui == old(ui) && engine == old(engine) && calls == old(calls)
      ensures old(engine).Some? ==>
        && engine == Some(old(engine).value.(currentLevel := levelIndex))
        && calls == old(calls) + [SetCurrentLevel(old(engine).value.generation, levelIndex)]
        && state == old(state).(currentQuality := ChosenQuality(old(state).availableQualities, levelIndex))
        && ui == old(ui).(showQuality := false)
    {
      if engine.Some? {
        engine := Some(engine.value.(currentLevel := levelIndex));
        calls := calls + [SetCurrentLevel(engine.value.generation, levelIndex)];
        state := state.(currentQuality := ChosenQuality(state.availableQualities, levelIndex));
        ui := ui.(showQuality := false);
      }
    }

    /** `handleSeek`: move to `value` percent of the element's duration, or do
        nothing while the duration is 0, NaN or unset */
    method Seek(value: real)
      requires Valid()
      modifies video
      ensures Valid()
      ensures !old(video.duration).Truthy() ==> video.Snapshot() == old(video.Snapshot())
      ensures old(video.duration).Truthy() ==>
        video.Snapshot() == old(video.Snapshot()).(currentTime :=
          Clamp(SeekTarget(value, old(video.duration).value), old(video.duration)))
      ensures old(video.duration).Truthy() && 0.0 <= value <= 100.0 ==>
        video.currentTime == SeekTarget(value, old(video.duration).value)
    {
      if video.duration.Truthy() {
        video.SetCurrentTime(SeekTarget(value, video.duration.value));
      }
    }

    /** The backward and forward buttons: move the element's position five
        seconds back or ahead, as far as the element allows */
    method Skip(forward: bool)
      requires Valid()
      modifies video
      ensures Valid()
      ensures var delta := if forward then SkipSeconds else -SkipSeconds;
        video.Snapshot() == old(video.Snapshot()).(currentTime := Clamp(old(video.currentTime) + delta, video.duration))
    {
      var delta := if forward then SkipSeconds else -SkipSeconds;
      video.SetCurrentTime(video.currentTime + delta);
    }

    /** `handleVolumeChange`: set the volume; the element is muted exactly when
        the new volume is 0, so a nonzero volume un-mutes it */
    method ChangeVolume(v: real)
      requires Valid() && 0.0 <= v <= 1.0
      modifies this, video
      ensures Valid()
      ensures state == old(state).(volume := v, isMuted := v == 0.0)
      ensures video.Snapshot() == old(video.Snapshot()).(volume := v, muted := v == 0.0)
      ensures ui == old(ui) && showPlayPause == old(showPlayPause)
      ensures engine == old(engine) && engines == old(engines) && calls == old(calls)
    {
      video.volume := v;
      video.muted := v == 0.0;
      state := state.(volume := v, isMuted := v == 0.0);
    }

    /** `toggleMute`: flips the element's muted flag only; the state follows on `volumechange` */
    method ToggleMute()
      requires Valid()
      modifies video
      ensures Valid()
      ensures video.Snapshot() == old(video.Snapshot()).(muted := !old(video.muted))
    {
      video.muted := !video.muted;
    }

    /** `changePlaybackSpeed` */
    method ChangePlaybackSpeed(rate: real)
      requires Valid()
      modifies this, video
      ensures Valid()
      ensures state == old(state).(playbackRate := rate)
      ensures video.Snapshot() == old(video.Snapshot()).(playbackRate := rate)
      ensures ui == old(ui) && showPlayPause == old(showPlayPause)
      ensures engine == old(engine) && engines == old(engines) && calls == old(calls)
    {
      video.playbackRate := rate;
      state := state.(playbackRate := rate);
    }

    /** `togglePictureInPicture`: leave picture-in-picture when a picture-in-picture
        element exists, enter it otherwise; a refused request only sets the error */
    method TogglePictureInPicture(pipActive: bool, accepted: bool)
      requires Valid()
      modifies this
      ensures Valid()
      ensures state == if !accepted then old(state).(error := Some(PipUnavailable))
                       else old(state).(isPiP := !pipActive)
      ensures ui == old(ui) && showPlayPause == old(showPlayPause)
      ensures engine == old(engine) && engines == old(engines) && calls == old(calls)
    {
      if accepted {
        state := state.(isPiP := !pipActive);
      } else {
        state := state.(error := Some(PipUnavailable));
      }
    }

    /** `handleFullscreen`: enter fullscreen when no element is fullscreen, leave
        it otherwise; a refused request only sets the error */
    method ToggleFullscreen(fullscreenActive: bool, accepted: bool)
      requires Valid()
      modifies this
      ensures Valid()
      ensures state == if !accepted then old(state).(error := Some(FullscreenUnavailable))
                       else old(state).(isFullscreen := !fullscreenActive)
      ensures ui == old(ui) && showPlayPause == old(showPlayPause)
      ensures engine == old(engine) && engines == old(engines) && calls == old(calls)
    {
      if accepted {
        state := state.(isFullscreen := !fullscreenActive);
      } else {
        state := state.(error := Some(FullscreenUnavailable));
      }
    }

    // ------------------------------------------------------------- control surface

    /** `handleMouseMove`: show the controls and restart the 3-second hide timer */
    method MouseMove()
      requires Valid()
      modifies this
      ensures Valid()
      ensures ui == old(ui).(showControls := true)
      ensures calls == old(calls) + [CancelHideControls, HideControlsAfter(HideControlsDelayMs)]
      ensures state == old(state) && showPlayPause == old(showPlayPause)
      ensures engine == old(engine) && engines == old(engines)
    {
      ui := ui.(showControls := true);
      calls := calls + [CancelHideControls, HideControlsAfter(HideControlsDelayMs)];
    }

    /** The hide timer fires: the controls hide even when a menu is open */
    method HideControlsTimerFired()
      requires Valid()
      modifies this
      ensures Valid()
      ensures ui == old(ui).(showControls := false)
      ensures state == old(state) && showPlayPause == old(showPlayPause)
      ensures engine == old(engine) && engines == old(engines) && calls == old(calls)
    {
      ui := ui.(showControls := false);
    }

    /** The pointer leaves the player */
    method MouseLeave()
      requires Valid()
      modifies this
      ensures Valid()
      ensures ui == old(ui).(showControls := false)
      ensures state == old(state) && showPlayPause == old(showPlayPause)
      ensures engine == old(engine) && engines == old(engines) && calls == old(calls)
    {
      ui := ui.(showControls := false);
    }

    /** The pointer enters (`true`) or leaves (`false`) the volume button */
    method HoverVolume(inside: bool)
      requires Valid()
      modifies this
      ensures Valid()
      ensures ui == old(ui).(showVolume := inside)
      ensures state == old(state) && showPlayPause == old(showPlayPause)
      ensures engine == old(engine) && engines == old(engines) && calls == old(calls)
    {
      ui := ui.(showVolume := inside);
    }

    /** The settings button */
    method ToggleSettingsMenu()
      requires Valid()
      modifies this
      ensures Valid()
      ensures ui == old(ui).ToggleSettings()
      ensures state == old(state) && showPlayPause == old(showPlayPause)
      ensures engine == old(engine) && engines == old(engines) && calls == old(calls)
    {
      ui := ui.ToggleSettings();
    }

    /** The quality button */
    method ToggleQualityMenu()
      requires Valid()
      modifies this
      ensures Valid()
      ensures ui == old(ui).ToggleQuality()
      ensures state == old(state) && showPlayPause == old(showPlayPause)
      ensures engine == old(engine) && engines == old(engines) && calls == old(calls)
    {
      ui := ui.ToggleQuality();
    }

    /** A click on the video flashes the play/pause icon for a second */
    method FlashPlayPause()
      requires Valid()
      modifies this
      ensures Valid()
      ensures showPlayPause && calls == old(calls) + [HideFlashAfter(FlashDelayMs)]
      ensures state == old(state) && ui == old(ui) && engine == old(engine) && engines == old(engines)
    {
      showPlayPause := true;
      calls := calls + [HideFlashAfter(FlashDelayMs)];
    }

    method FlashTimerFired()
      requires Valid()
      modifies this
      ensures Valid()
      ensures !showPlayPause
      ensures state == old(state) && ui == old(ui) && engine == old(engine)
      ensures engines == old(engines) && calls == old(calls)
    {
      showPlayPause := false;
    }

    // ------------------------------------------------------------- element events

    /** `timeupdate`: copy the position and duration and recompute the progress,
        only while the element's duration is truthy */
    method OnTimeUpdate()
      requires Valid()
      modifies this
      ensures Valid()
      ensures !video.duration.Truthy() ==> state == old(state)
      ensures video.duration.Truthy() ==>
        state == old(state).(currentTime := video.currentTime,
                             progress := ProgressOf(video.currentTime, video.duration.value),
                             duration := video.duration)
      ensures video.duration.Truthy() ==> 0.0 <= state.progress <= 100.0
      ensures ui == old(ui) && showPlayPause == old(showPlayPause)
      ensures engine == old(engine) && engines == old(engines) && calls == old(calls)
    {
      if video.duration.Truthy() {
        state := state.(currentTime := video.currentTime,
                        progress := ProgressOf(video.currentTime, video.duration.value),
                        duration := video.duration);
      }
    }

    /** The element's `play` event */
    method OnPlayEvent()
      requires Valid()
      modifies this
      ensures Valid()
      ensures state == old(state).(isPlaying := true)
      ensures ui == old(ui) && showPlayPause == old(showPlayPause)
      ensures engine == old(engine) && engines == old(engines) && calls == old(calls)
    {
      state := state.(isPlaying := true);
    }

    /** The element's `pause` event */
    method OnPauseEvent()
      requires Valid()
      modifies this
      ensures Valid()
      ensures state == old(state).(isPlaying := false)
      ensures ui == old(ui) && showPlayPause == old(showPlayPause)
      ensures engine == old(engine) && engines == old(engines) && calls == old(calls)
    {
      state := state.(isPlaying := false);
    }

    /** `volumechange`: the only place the state's volume and muted flag follow the element */
    method OnVolumeChange()
      requires Valid()
      modifies this
      ensures Valid()
      ensures state == old(state).(volume := video.volume, isMuted := video.muted)
      ensures ui == old(ui) && showPlayPause == old(showPlayPause)
      ensures engine == old(engine) && engines == old(engines) && calls == old(calls)
    {
      state := state.(volume := video.volume, isMuted := video.muted);
    }

    /** The element's `error` event; `message` is `video.error?.message` */
    method OnMediaError(message: Option<string>)
      requires Valid()
      modifies this
      ensures Valid()
      ensures state == old(state).(error := Some(VideoErrorPrefix +
                (if message.Some? && message.value != "" then message.value else "Unknown error")))
      ensures ui == old(ui) && showPlayPause == old(showPlayPause)
      ensures engine == old(engine) && engines == old(engines) && calls == old(calls)
    {
      var detail := if message.Some? && message.value != "" then message.value else "Unknown error";
      state := state.(error := Some(VideoErrorPrefix + detail));
    }

    /** The effect's cleanup: destroy the engine and clear the handle */
    method Unmount()
      requires Valid()
      modifies this
      ensures Valid()
      ensures engine == None && calls == old(calls) + DestroyCalls(old(engine))
      ensures state == old(state) && ui == old(ui) && showPlayPause == old(showPlayPause)
      ensures engines == old(engines)
    {
      calls := calls + DestroyCalls(engine);
      engine := None;
    }
  }

  /** An example, not a model of any one handler: a walk through the
      component in which three renditions are parsed, autoplay is refused
      twice and then allowed muted, the 720p entry is picked, the engine later
      switches to 1080p on its own */
  method ThreeRenditionsScenario()
  {
    var video := new MediaElement(Unknown);
    var player := new VideoPlayer(video);
    var fetches := [Response(200, "#EXTM3U\n#EXT-X-STREAM-INF"), Rejected("unused")];
    assert Accepted(fetches[0]) by { ContainsWitness(fetches[0].body, Signature, 0); }
    player.InitPlayer(Some("abc"), None, fetches, true, false);
    assert player.engine == Some(Engine(0, [], -1, false));
    var levels := [Level(360, 640, 800000, Unknown), Level(720, 1280, 2800000, Unknown),
                   Level(1080, 1920, 5000000, Unknown)];
    player.OnManifestParsed(levels, [false, false, true]);
    assert player.state.isPlaying && player.state.currentQuality == "auto";
    assert player.video.muted;
    player.ChangeQuality(1);
    assert player.state.currentQuality == QualityName(720);
    player.OnLevelSwitched(2);
    assert player.state.currentQuality == QualityName(1080);
    assert !player.ui.showQuality;
  }

  /** An example, not a model of any one handler: seeking does nothing until
      the platform reports the media's duration; then a seek to the middle
      shows up as 50% progress at the next `timeupdate` */
  method SeekAfterMetadataScenario()
  {
    var video := new MediaElement(Unknown);
    var player := new VideoPlayer(video);
    player.Seek(50.0);
    assert video.currentTime == 0.0;
    video.PlatformChange(video.Snapshot().(paused := false, duration := Secs(600.0)));
    player.Seek(50.0);
    assert video.currentTime == 300.0;
    player.OnTimeUpdate();
    assert player.state.progress == 50.0;
  }
}

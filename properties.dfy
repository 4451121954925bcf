/** What the player's handlers promise, proved about the state machine in `Playback`. */
module Properties {
  import opened Wrappers
  import Keys
  import Timeline
  import opened Playback
  import opened Events

  // ------------------------------------------------------------ the invariant

  /** Every handler keeps the invariant. */
  lemma StepKeepsValid(s: State, e: Event)
    requires Valid(s) && Allowed(s, e)
    ensures Valid(Step(s, e)) && Step(s, e).options == s.options
  {
    match e
    case VolumeInput(v) => VolumeChangeKeepsValid(s, v);
    case TimelinePress(x, left, width, buttons) => ScrubbingKeepsValid(s, x, left, width, buttons);
    case TimelineHover(x, left, width) => TimelineUpdateKeepsValid(s, x, left, width);
    case DocumentMouseUp(x, left, width, buttons) => ScrubbingKeepsValid(s, x, left, width, buttons);
    case DocumentMouseMove(x, left, width) => TimelineUpdateKeepsValid(s, x, left, width);
    case DocumentKeyDown(key, focused) => KeyDownKeepsValid(s, key, focused);
    case _ =>
  }

  lemma VolumeChangeKeepsValid(s: State, v: real)
    requires Valid(s) && 0.0 <= v <= 1.0
    ensures Valid(VolumeChange(s, v)) && VolumeChange(s, v).options == s.options
  {
    if v != 0.0 {
      var u := if s.video.muted then ToggleMute(s) else s;
      assert Valid(u);
      var t := u.(volume := v,
         volumeLevel := if v >= 0.5 then High else Low,
         video := u.video.(volume := v));
      assert t == VolumeChange(s, v);
      assert t.volumeLevel == LevelFor(t.video.muted, t.volume);
    }
  }

  lemma TimelineUpdateKeepsValid(s: State, x: real, left: real, width: real)
    requires Valid(s) && width > 0.0
    ensures var t := TimelineUpdate(s, x, left, width);
      Valid(t) && t.options == s.options && t.scrubbing == s.scrubbing
  {
  }

  lemma ScrubbingKeepsValid(s: State, x: real, left: real, width: real, buttons: nat)
    requires Valid(s) && width > 0.0
    ensures Valid(ToggleScrubbing(s, x, left, width, buttons))
    ensures ToggleScrubbing(s, x, left, width, buttons).options == s.options
  {
    var p := Timeline.Fraction(x, left, width);
    ScrubButtonKeepsValid(s, p, buttons);
    TimelineUpdateKeepsValid(ScrubButton(s, p, buttons), x, left, width);
  }

  lemma ScrubButtonKeepsValid(s: State, p: real, buttons: nat)
    requires Valid(s)
    ensures Valid(ScrubButton(s, p, buttons)) && ScrubButton(s, p, buttons).options == s.options
  {
    assert Valid(s.(scrubbing := buttons % 2 == 1));
  }

  lemma KeyDownKeepsValid(s: State, key: string, focused: Option<string>)
    requires Valid(s)
    ensures Valid(KeyDown(s, key, focused)) && KeyDown(s, key, focused).options == s.options
  {
    match Keys.Dispatch(key, focused)
    case None =>
    case Some(c) => RunCommandKeepsValid(s, c);
  }

  /** The keydown listener's effect and request, command by command. */
  lemma KeyDownByCommand(s: State, key: string, focused: Option<string>, h: Host)
    ensures Keys.Dispatch(key, focused).None? ==>
      KeyDown(s, key, focused) == s && KeyDownRequest(s.options, key, focused, h) == NoRequest
    ensures Keys.Dispatch(key, focused).Some? ==>
      var c := Keys.Dispatch(key, focused).value;
      KeyDown(s, key, focused) == RunCommand(s, c)
      && KeyDownRequest(s.options, key, focused, h) == CommandRequest(s.options, c, h)
  {
  }

  lemma RunCommandKeepsValid(s: State, c: Keys.Command)
    requires Valid(s)
    ensures Valid(RunCommand(s, c)) && RunCommand(s, c).options == s.options
  {
    match c
    case TogglePlay =>
    case ToggleCaption =>
    case ToggleFullScreen =>
    case ToggleTheater =>
    case ToggleMiniPlayer =>
    case ToggleMute =>
    case Skip(d) =>
  }

  /** Hence every run from a fresh player keeps it, whatever the events. */
  lemma {:induction false} RunKeepsValid(s: State, es: seq<Event>)
    requires Valid(s) && Accepts(s, es)
    ensures Valid(Run(s, es)) && Run(s, es).options == s.options
    decreases |es|
  {
    if es != [] {
      StepKeepsValid(s, es[0]);
      RunKeepsValid(Step(s, es[0]), es[1..]);
    }
  }

  /** In every reachable state theater and full screen are not both on, and the tier is right. */
  lemma ReachableStates(o: Options, duration: real, es: seq<Event>)
    requires duration >= 0.0 && Accepts(Init(o, duration), es)
    ensures var t := Run(Init(o, duration), es);
      && !(t.theater && t.fullScreen)
      && t.volumeLevel == LevelFor(t.video.muted, t.volume)
      && 1 <= t.playbackRate <= 8
      && (!o.captions ==> !t.caption && !t.video.captionsShowing)
      && (!o.theaterMode ==> !t.theater)
  {
    InitValid(o, duration);
    RunKeepsValid(Init(o, duration), es);
  }

  /**
   * With `defaultOptions` (captions and speed off; mini player, theater and full
   * screen on), captions never show, whatever happens.
   */
  lemma DefaultOptionsNoCaptions(duration: real, es: seq<Event>)
    requires duration >= 0.0 && Accepts(Init(DefaultOptions, duration), es)
    ensures var t := Run(Init(DefaultOptions, duration), es);
      !t.caption && !t.video.captionsShowing
  {
    ReachableStates(DefaultOptions, duration, es);
  }

  // ------------------------------------------------------------ mute and volume

  /**
   * The volume signal (and so the slider) starts at 0.5 while a fresh element plays
   * at full volume: until the slider moves, the shown and the heard volume differ.
   */
  lemma InitialVolumeMismatch(o: Options, duration: real)
    ensures Init(o, duration).volume == 0.5 && Init(o, duration).video.volume == 1.0
    ensures Init(o, duration).volumeLevel == High
  {
  }

  /** Muting twice restores the original mute flag and tier. */
  lemma ToggleMuteTwice(s: State)
    requires Valid(s)
    ensures ToggleMute(ToggleMute(s)) == s
  {
  }

  /** After a mute toggle the flag is flipped and the tier is MUTED iff muted, else follows the volume. */
  lemma ToggleMuteTier(s: State)
    ensures var t := ToggleMute(s);
      && t.video.muted == !s.video.muted
      && (t.volumeLevel == Muted <==> t.video.muted)
      && (t.volumeLevel == High <==> !t.video.muted && s.volume >= 0.5)
      && t.volume == s.volume && t.video.volume == s.video.volume
  {
  }

  /** A non-zero slider value unmutes and becomes both the stored and the element's volume. */
  lemma VolumeChangeNonZero(s: State, v: real)
    requires 0.0 < v <= 1.0
    ensures var t := VolumeChange(s, v);
      && !t.video.muted && t.volume == v && t.video.volume == v
      && (t.volumeLevel == High <==> v >= 0.5)
      && (t.volumeLevel == Low <==> v < 0.5)
  {
  }

  /** A zero slider value does exactly what the mute button does; the stored volume and the element's volume stay. */
  lemma VolumeChangeZero(s: State)
    ensures VolumeChange(s, 0.0) == ToggleMute(s)
    ensures var t := VolumeChange(s, 0.0);
      && t.video.muted == !s.video.muted
      && t.volume == s.volume && t.video.volume == s.video.volume
  {
  }

  /** Dragging the slider to 0 on a muted player unmutes it at its old volume. */
  lemma VolumeZeroUnmutes(s: State)
    requires Valid(s) && s.video.muted
    ensures var t := VolumeChange(s, 0.0);
      !t.video.muted && t.volumeLevel != Muted && t.volume == s.volume
  {
  }

  /** Setting the same non-zero volume again changes nothing. */
  lemma VolumeChangeIdempotent(s: State, v: real)
    requires 0.0 < v <= 1.0
    ensures VolumeChange(VolumeChange(s, v), v) == VolumeChange(s, v)
  {
  }

  // ------------------------------------------------------------ playback rate

  /** From any rate of at least 0 the next rate lies between 0.25x and 2.0x. */
  lemma NextRateInRange(q: int)
    requires q >= 0
    ensures 1 <= NextRate(q) <= 8
  {
  }

  /** `n` speed clicks from rate `q`. */
  function RateAfter(q: int, n: nat): int
    decreases n
  {
    if n == 0 then q else RateAfter(NextRate(q), n - 1)
  }

  /** On the cycle, `n` clicks advance the rate by `n` quarter steps modulo eight. */
  lemma {:induction false} RateAfterCycle(q: int, n: nat)
    requires 1 <= q <= 8
    ensures RateAfter(q, n) == (q - 1 + n) % 8 + 1
    decreases n
  {
    if n > 0 {
      assert NextRate(q) == q % 8 + 1;
      RateAfterCycle(NextRate(q), n - 1);
    }
  }

  /** The cycle has period exactly eight: 0.25, 0.5, ..., 2.0 and back to 0.25. */
  lemma RatePeriod(q: int, n: nat)
    requires 1 <= q <= 8
    ensures RateAfter(q, 8) == q
    ensures 0 < n < 8 ==> RateAfter(q, n) != q
    ensures RateAfter(1, 8) == 1
  {
    RateAfterCycle(q, 8);
    RateAfterCycle(q, n);
    RateAfterCycle(1, 8);
  }

  /** With the speed button hidden, no event changes the rate. */
  lemma StepKeepsRate(s: State, e: Event)
    requires Allowed(s, e) && !s.options.playSpeed
    ensures Step(s, e).playbackRate == s.playbackRate
  {
    match e {
      case TimelinePress(x, left, width, buttons) => ScrubbingKeepsRate(s, x, left, width, buttons);
      case DocumentMouseUp(x, left, width, buttons) => ScrubbingKeepsRate(s, x, left, width, buttons);
      case DocumentKeyDown(key, focused) => KeyDownKeepsRate(s, key, focused);
      case _ =>
    }
  }

  lemma ScrubbingKeepsRate(s: State, x: real, left: real, width: real, buttons: nat)
    requires width > 0.0
    ensures ToggleScrubbing(s, x, left, width, buttons).playbackRate == s.playbackRate
  {
  }

  lemma KeyDownKeepsRate(s: State, key: string, focused: Option<string>)
    ensures KeyDown(s, key, focused).playbackRate == s.playbackRate
  {
    match Keys.Dispatch(key, focused) {
      case None =>
      case Some(c) => CommandKeepsRate(s, c);
    }
  }

  lemma CommandKeepsRate(s: State, c: Keys.Command)
    ensures RunCommand(s, c).playbackRate == s.playbackRate
  {
    match c {
      case TogglePlay =>
      case ToggleCaption =>
      case ToggleFullScreen =>
      case ToggleTheater =>
      case ToggleMiniPlayer =>
      case ToggleMute =>
      case Skip(d) =>
    }
  }

  lemma {:induction false} RunKeepsRate(s: State, es: seq<Event>)
    requires Valid(s) && Accepts(s, es) && !s.options.playSpeed
    ensures Run(s, es).playbackRate == s.playbackRate
    decreases |es|
  {
    if es != [] {
      StepKeepsRate(s, es[0]);
      StepKeepsValid(s, es[0]);
      RunKeepsRate(Step(s, es[0]), es[1..]);
    }
  }

  /** With `playSpeed` off the player plays at 1.0x on every run. */
  lemma NoSpeedButtonNormalRate(o: Options, duration: real, es: seq<Event>)
    requires duration >= 0.0 && !o.playSpeed && Accepts(Init(o, duration), es)
    ensures var t := Run(Init(o, duration), es);
      t.playbackRate == 4 && t.video.playbackRate == 4
  {
    InitValid(o, duration);
    RunKeepsValid(Init(o, duration), es);
    RunKeepsRate(Init(o, duration), es);
  }

  /** After a speed click the element plays at the stored rate, on the cycle. */
  lemma ChangePlaybackSpeedSyncs(s: State)
    requires s.playbackRate >= 0
    ensures var t := ChangePlaybackSpeed(s);
      t.video.playbackRate == t.playbackRate && 1 <= t.playbackRate <= 8
  {
  }

  // ------------------------------------------------------------ display modes

  /** Theater toggling does nothing when the option is off. */
  lemma TheaterDisabledNoOp(s: State)
    requires !s.options.theaterMode
    ensures ToggleTheaterMode(s) == s
  {
  }

  /** With the option on it leaves full screen and flips theater; from full screen exactly theater is on. */
  lemma TheaterEnabled(s: State)
    requires Valid(s) && s.options.theaterMode
    ensures var t := ToggleTheaterMode(s);
      && !t.fullScreen && t.theater == !s.theater
      && (s.fullScreen ==> t.theater)
      && t.miniPlayer == s.miniPlayer
  {
  }

  /** After a full-screen change, theater and the mini player are off and full screen follows the document. */
  lemma FullScreenChangeWins(s: State, active: bool)
    ensures var t := FullScreenChange(s, active);
      !t.theater && !t.miniPlayer && t.fullScreen == active
  {
  }

  /** The `f` key asks for full screen whatever the `fullScreenMode` option says. */
  lemma FullScreenKeyIgnoresOption(o: Options, h: Host)
    ensures KeyDownRequest(o, "f", None, h) == (if h.fullscreenActive then ExitFullscreen else RequestFullscreen)
  {
    assert Keys.Lower("f") == "f";
  }

  /** The `i` key asks for picture-in-picture only when the option is on and the document allows it. */
  lemma MiniPlayerKey(o: Options, h: Host)
    ensures KeyDownRequest(o, "i", None, h) != NoRequest <==>
      o.miniPlayerMode && (h.pictureInPictureActive || h.pictureInPictureEnabled)
  {
    assert Keys.Lower("i") == "i";
  }

  // ------------------------------------------------------------ captions

  /** With captions disabled the caption toggle does nothing, so neither does the `c` key. */
  lemma CaptionDisabledNoOp(s: State, focused: Option<string>)
    requires !s.options.captions
    ensures ToggleCaption(s) == s
    ensures KeyDown(s, "c", focused) == s
  {
    assert Keys.Lower("c") == "c";
  }

  /** With captions enabled the toggle flips the track and the flag says whether it now shows. */
  lemma CaptionEnabled(s: State)
    requires s.options.captions
    ensures var t := ToggleCaption(s);
      t.video.captionsShowing == !s.video.captionsShowing && t.caption == t.video.captionsShowing
  {
  }

  lemma ToggleCaptionTwice(s: State)
    requires Valid(s)
    ensures ToggleCaption(ToggleCaption(s)) == s
  {
  }

  // ------------------------------------------------------------ skipping

  /** Skipping forward and back by the same amount returns to the same position. */
  lemma SkipBackAndForth(s: State, seconds: real)
    ensures Skip(Skip(s, seconds), -seconds) == s
  {
  }

  /** `j` and the left arrow go back five seconds, `l` and the right arrow forward. */
  lemma SkipKeys(s: State)
    ensures KeyDown(s, "j", None) == Skip(s, -5.0) && KeyDown(s, "ArrowLeft", None) == Skip(s, -5.0)
    ensures KeyDown(s, "l", None) == Skip(s, 5.0) && KeyDown(s, "ArrowRight", None) == Skip(s, 5.0)
  {
    Keys.LowerOfArrows();
    assert Keys.Lower("j") == "j" && Keys.Lower("l") == "l";
  }

  // ------------------------------------------------------------ scrubbing

  /** Pressing the primary button starts a scrub: it pauses, remembers, and does not seek. */
  lemma PressStartsScrub(s: State, x: real, left: real, width: real, buttons: nat)
    requires width > 0.0 && buttons % 2 == 1
    ensures var t := ToggleScrubbing(s, x, left, width, buttons);
      var p := Timeline.Fraction(x, left, width);
      && t.scrubbing && t.wasPaused == s.video.paused && t.video.paused
      && t.video.currentTime == s.video.currentTime
      && t.marks.progressPosition == p && t.marks.previewPosition == p
      && t.marks.thumbnailImage == t.marks.previewImage
      == Some(Timeline.PreviewIndex(p, s.video.duration))
  {
  }

  /**
   * A press or release without the primary button ends the scrub: it seeks to the
   * pointer and plays only if the player was not paused when the scrub began.
   */
  lemma ReleaseSeeks(s: State, x: real, left: real, width: real, buttons: nat)
    requires width > 0.0 && buttons % 2 == 0
    ensures var t := ToggleScrubbing(s, x, left, width, buttons);
      && !t.scrubbing && t.wasPaused == s.wasPaused
      && t.video.currentTime == Timeline.Fraction(x, left, width) * s.video.duration
      && t.video.paused == (s.wasPaused && s.video.paused)
      && t.marks.progressPosition == s.marks.progressPosition
      && t.marks.thumbnailImage == s.marks.thumbnailImage
  {
  }

  /** Hovering without a scrub moves only the hover preview. */
  lemma HoverMovesOnlyPreview(s: State, x: real, left: real, width: real)
    requires width > 0.0 && !s.scrubbing
    ensures var p := Timeline.Fraction(x, left, width);
      TimelineUpdate(s, x, left, width)
      == s.(marks := s.marks.(previewPosition := p,
                              previewImage := Some(Timeline.PreviewIndex(p, s.video.duration))))
  {
  }

  /** The document's mouse listeners ignore everything outside a scrub. */
  lemma IdleDocumentMouseIgnored(s: State, x: real, left: real, width: real, buttons: nat)
    requires width > 0.0 && !s.scrubbing
    ensures MouseUp(s, x, left, width, buttons) == s
    ensures MouseMove(s, x, left, width) == s
  {
  }

  /** The state after the document sees the pointer move through `xs` during a scrub. */
  function Drag(s: State, xs: seq<real>, left: real, width: real): State
    requires width > 0.0
    decreases |xs|
  {
    if xs == [] then s else Drag(MouseMove(s, xs[0], left, width), xs[1..], left, width)
  }

  /** Dragging keeps the scrub and leaves everything but the timeline marks alone. */
  lemma {:induction false} DragChangesOnlyMarks(s: State, xs: seq<real>, left: real, width: real)
    requires width > 0.0 && s.scrubbing
    ensures Drag(s, xs, left, width).(marks := s.marks) == s
    decreases |xs|
  {
    if xs != [] {
      DragChangesOnlyMarks(MouseMove(s, xs[0], left, width), xs[1..], left, width);
    }
  }

  /**
   * A whole scrub gesture: press with the primary button at `x0`, drag through `xs`,
   * release at `x1`. The element ends up at the release point, and it plays after
   * the gesture exactly when it played before it.
   */
  lemma ScrubGesture(s: State, x0: real, xs: seq<real>, x1: real, left: real, width: real)
    requires width > 0.0
    ensures var pressed := ToggleScrubbing(s, x0, left, width, 1);
      var t := MouseUp(Drag(pressed, xs, left, width), x1, left, width, 0);
      && !t.scrubbing
      && t.video.paused == s.video.paused
      && t.video.currentTime == Timeline.Fraction(x1, left, width) * s.video.duration
      && t.video.duration == s.video.duration
  {
    var pressed := ToggleScrubbing(s, x0, left, width, 1);
    DragChangesOnlyMarks(pressed, xs, left, width);
  }

  /** Re-deriving the progress from the position a release seeked to gives back the release fraction. */
  lemma ReleaseThenTimeUpdate(s: State, x: real, left: real, width: real)
    requires width > 0.0 && s.video.duration > 0.0
    ensures var t := ToggleScrubbing(s, x, left, width, 0);
      TimeUpdate(t).marks.progressPosition == Timeline.Fraction(x, left, width)
  {
    var p := Timeline.Fraction(x, left, width);
    var d := s.video.duration;
    assert p * d / d == p;
  }

  /**
   * A fresh player is paused, yet a press on the timeline with another button takes
   * the release path and starts playback, because the remembered pause flag starts
   * out false.
   */
  lemma FreshSecondaryPressPlays(o: Options, duration: real, x: real, left: real, width: real)
    requires width > 0.0
    ensures Init(o, duration).video.paused
    ensures !ToggleScrubbing(Init(o, duration), x, left, width, 2).video.paused
  {
  }

  /**
   * A second button released during a scrub still reports the primary button held,
   * so the document's `mouseup` re-enters the press branch and remembers the element
   * as paused (it was paused by the press). The final release then leaves a player
   * that was playing before the gesture paused.
   */
  lemma SecondaryButtonDuringScrub(s: State, x: real, left: real, width: real, buttons: nat)
    requires width > 0.0 && !s.video.paused && buttons % 2 == 1
    ensures var pressed := ToggleScrubbing(s, x, left, width, 1);
      var again := MouseUp(pressed, x, left, width, buttons);
      && again.scrubbing && again.wasPaused
      && MouseUp(again, x, left, width, 0).video.paused
  {
  }

  /**
   * A two-minute video, playing; the timeline is 100 wide at 0. Press at 50: the
   * element pauses without seeking and preview 6 is shown. Release at 75: the element
   * seeks to 90 seconds and plays again.
   */
  lemma ScrubScenario(s: State)
    requires s.video.duration == 120.0 && !s.video.paused
    ensures var pressed := ToggleScrubbing(s, 50.0, 0.0, 100.0, 1);
      && pressed.video.paused && pressed.video.currentTime == s.video.currentTime
      && pressed.marks.previewImage == pressed.marks.thumbnailImage == Some(6)
      && Timeline.PreviewSource(6) == "src/assets/previewImgs/preview6.jpg"
    ensures var released := MouseUp(ToggleScrubbing(s, 50.0, 0.0, 100.0, 1), 75.0, 0.0, 100.0, 0);
      && released.video.currentTime == 90.0 && !released.video.paused
  {
    assert Timeline.Fraction(50.0, 0.0, 100.0) == 0.5;
    assert Timeline.PreviewIndex(0.5, 120.0) == 6;
    assert Timeline.Fraction(75.0, 0.0, 100.0) == 0.75;
  }
}

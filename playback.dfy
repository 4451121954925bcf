/**
 * The playback-control state machine of the video player, as values.
 *
 * `State` holds every signal of the component (paused, wasPaused, caption,
 * playbackRate, miniPlayer, theater, fullScreen, volume, volumeLevel, currentTime,
 * totalTime, scrubbing), the feature options it was created with, the handful of
 * fields of the video element that the handlers read and write (`Media`), and what
 * the handlers write into the page for the timeline: the two CSS custom properties
 * `--preview-position` and `--progress-position` and the sources of the preview and
 * thumbnail images (`TimelineMarks`).
 *
 * Each handler of the component is one function from the state before to the state
 * after; the class `Player.VideoPlayer` performs the same updates in place and is
 * specified by these functions. `Valid` is the invariant every handler keeps.
 *
 * Volume, times and fractions are `real` (exact, not IEEE floating point). Playback
 * rates are counted in quarter steps: 4 stands for 1.0x, 1 for 0.25x, 8 for 2.0x.
 */
module Playback {
  import opened Wrappers
  import Keys
  import Timeline

  datatype VolumeLevel = Low | High | Muted

  /** The component's props; `src` is not part of this model. */
  datatype Options = Options(
    captions: bool,
    playSpeed: bool,
    miniPlayerMode: bool,
    theaterMode: bool,
    fullScreenMode: bool)

  /** `defaultOptions`: full-screen, mini-player and theater on; captions and speed off. */
  const DefaultOptions := Options(false, false, true, true, true)

  /** The video element's fields that the player reads or writes. */
  datatype Media = Media(
    muted: bool,
    volume: real,
    playbackRate: int,       // quarter steps
    currentTime: real,
    duration: real,
    paused: bool,
    captionsShowing: bool)   // first text track's mode: `showing` (true) or `hidden`

  /**
   * What the handlers write into the page for the timeline. An image source is
   * recorded by its thumbnail number; `Timeline.PreviewSource` gives the path, and
   * `Timeline.PreviewSourceInjective` shows that the number and the path determine
   * each other. `None` until a source has been set.
   */
  datatype TimelineMarks = TimelineMarks(
    previewPosition: real,   // --preview-position
    progressPosition: real,  // --progress-position
    previewImage: Option<nat>,   // number n of the hover preview's source `preview{n}.jpg`
    thumbnailImage: Option<nat>) // the same for the large thumbnail shown while scrubbing

  datatype State = State(
    options: Options,
    paused: bool,
    wasPaused: bool,
    caption: bool,
    playbackRate: int,       // quarter steps
    miniPlayer: bool,
    theater: bool,
    fullScreen: bool,
    volume: real,
    volumeLevel: VolumeLevel,
    currentTime: real,
    totalTime: real,
    scrubbing: bool,
    video: Media,
    marks: TimelineMarks)

  /** A freshly created video element whose media lasts `duration` seconds, track set hidden. */
  function FreshMedia(duration: real): Media {
    Media(false, 1.0, 4, 0.0, duration, true, false)
  }

  /** The signals' initial values, after the mount step has hidden the track and read the rate. */
  function Init(options: Options, duration: real): State {
    var video := FreshMedia(duration);
    State(options, true, false, false, video.playbackRate, false, false, false, 0.5, High,
          0.0, 0.0, false, video, TimelineMarks(0.0, 0.0, None, None))
  }

  /** The volume tier shown for a mute flag and a volume. */
  function LevelFor(muted: bool, volume: real): VolumeLevel {
    if muted then Muted else if volume >= 0.5 then High else Low
  }

  /** The tier always agrees with the element's mute flag and the stored volume. */
  predicate VolumeOk(s: State) {
    && 0.0 < s.volume <= 1.0 && 0.0 <= s.video.volume <= 1.0
    && s.volumeLevel == LevelFor(s.video.muted, s.volume)
  }

  /** The rate stays on the eight-step cycle and the element plays at the stored rate. */
  predicate RateOk(s: State) {
    1 <= s.playbackRate <= 8 && s.video.playbackRate == s.playbackRate
  }

  /** The caption flag mirrors the track and is only ever on when captions are enabled. */
  predicate CaptionOk(s: State) {
    s.caption == s.video.captionsShowing && (s.caption ==> s.options.captions)
  }

  /** Theater and full screen exclude each other; theater needs its option. */
  predicate ModesOk(s: State) {
    !(s.theater && s.fullScreen) && (s.theater ==> s.options.theaterMode)
  }

  /** The hover preview stays on the timeline; the duration is never negative. */
  predicate MarksOk(s: State) {
    0.0 <= s.marks.previewPosition <= 1.0 && s.video.duration >= 0.0
  }

  /** The invariant every handler keeps. */
  predicate Valid(s: State) {
    VolumeOk(s) && RateOk(s) && CaptionOk(s) && ModesOk(s) && MarksOk(s)
  }

  lemma InitValid(options: Options, duration: real)
    requires duration >= 0.0
    ensures Valid(Init(options, duration))
    ensures !Init(options, duration).wasPaused && Init(options, duration).video.paused
  {
  }

  /** The spelled-out meaning of the tier under the invariant. */
  lemma TierMeaning(s: State)
    requires Valid(s)
    ensures s.volumeLevel == Muted <==> s.video.muted || s.volume == 0.0
    ensures s.volumeLevel == High <==> !s.video.muted && s.volume >= 0.5
    ensures s.volumeLevel == Low <==> !s.video.muted && s.volume < 0.5
  {
  }

  // ---------------------------------------------------------------- handlers

  /** `togglePlay`: ask the element to play when paused, to pause otherwise. */
  function TogglePlay(s: State): State {
    s.(video := s.video.(paused := !s.video.paused))
  }

  /** `toggleMute`: flip the element's mute flag and recompute the tier from it. */
  function ToggleMute(s: State): State {
    var muted := !s.video.muted;
    s.(video := s.video.(muted := muted),
       volumeLevel := if muted then Muted else if s.volume >= 0.5 then High else Low)
  }

  /**
   * `volumeChange` with the slider's value `v`: 0 toggles mute (and so unmutes a
   * muted player); any other value unmutes, stores `v` and gives it to the element.
   */
  function VolumeChange(s: State, v: real): State
    requires 0.0 <= v <= 1.0
  {
    if v == 0.0 then ToggleMute(s)
    else
      var u := if s.video.muted then ToggleMute(s) else s;
      u.(volume := v,
         volumeLevel := if v >= 0.5 then High else Low,
         video := u.video.(volume := v))
  }

  /** `toggleCaption`: when captions are enabled, flip the track and mirror it in the flag. */
  function ToggleCaption(s: State): State {
    if s.options.captions then
      var isHidden := !s.video.captionsShowing;
      s.(video := s.video.(captionsShowing := isHidden), caption := isHidden)
    else s
  }

  /** One step of `changePlaybackSpeed` on a rate in quarter steps: +0.25, past 2.0 back to 0.25. */
  function NextRate(q: int): int {
    if q + 1 > 8 then 1 else q + 1
  }

  /** `changePlaybackSpeed`: the next rate, stored and given to the element. */
  function ChangePlaybackSpeed(s: State): State {
    var q := NextRate(s.playbackRate);
    s.(playbackRate := q, video := s.video.(playbackRate := q))
  }

  /** `toggleTheaterMode`: when enabled, leave full screen and flip theater. */
  function ToggleTheaterMode(s: State): State {
    if s.options.theaterMode then s.(fullScreen := false, theater := !s.theater) else s
  }

  /** The `fullscreenchange` listener; `active` is whether the document now has a full-screen element. */
  function FullScreenChange(s: State, active: bool): State {
    s.(miniPlayer := false, theater := false, fullScreen := active)
  }

  /** `skip`: move the element's position by `seconds` (the element's own clamping is not modelled). */
  function Skip(s: State, seconds: real): State {
    s.(video := s.video.(currentTime := s.video.currentTime + seconds))
  }

  /**
   * `handleTimelineUpdate` for a pointer at `x` over a timeline starting at `left`,
   * `width` wide: the hover preview always follows; the thumbnail and the progress
   * bar follow only while scrubbing.
   */
  function TimelineUpdate(s: State, x: real, left: real, width: real): State
    requires width > 0.0
  {
    var p := Timeline.Fraction(x, left, width);
    var image := Some(Timeline.PreviewIndex(p, s.video.duration));
    var marks := s.marks.(previewImage := image, previewPosition := p);
    s.(marks := if s.scrubbing then marks.(thumbnailImage := image, progressPosition := p) else marks)
  }

  /**
   * The first half of `toggleScrubbing`, for a pointer at fraction `p` with button
   * mask `buttons`: with the primary button held it starts a scrub (remember whether
   * the element was paused, then pause it); otherwise it ends one (seek to the
   * pointer, play again unless paused before).
   */
  function ScrubButton(s: State, p: real, buttons: nat): State {
    var u := s.(scrubbing := buttons % 2 == 1);
    if u.scrubbing then
      u.(wasPaused := u.video.paused, video := u.video.(paused := true))
    else
      var seeked := u.video.(currentTime := p * u.video.duration);
      u.(video := if !u.wasPaused then seeked.(paused := false) else seeked)
  }

  /** `toggleScrubbing`: the button half, then the timeline marks follow the pointer. */
  function ToggleScrubbing(s: State, x: real, left: real, width: real, buttons: nat): State
    requires width > 0.0
  {
    TimelineUpdate(ScrubButton(s, Timeline.Fraction(x, left, width), buttons), x, left, width)
  }

  /** The document's `mouseup` listener: ends a scrub in progress, ignored otherwise. */
  function MouseUp(s: State, x: real, left: real, width: real, buttons: nat): State
    requires width > 0.0
  {
    if s.scrubbing then ToggleScrubbing(s, x, left, width, buttons) else s
  }

  /** The document's `mousemove` listener: follows the pointer during a scrub, ignored otherwise. */
  function MouseMove(s: State, x: real, left: real, width: real): State
    requires width > 0.0
  {
    if s.scrubbing then TimelineUpdate(s, x, left, width) else s
  }

  /** The `loadeddata` listener: the total time becomes the element's duration. */
  function LoadedData(s: State): State {
    s.(totalTime := s.video.duration)
  }

  /**
   * The `timeupdate` listener: copy the element's position and set the progress bar
   * to position / duration. The source divides without a guard; here the duration
   * must be known and positive.
   */
  function TimeUpdate(s: State): State
    requires s.video.duration > 0.0
  {
    s.(currentTime := s.video.currentTime,
       marks := s.marks.(progressPosition := s.video.currentTime / s.video.duration))
  }

  /** The element's `play` and `pause` listeners. */
  function PlayEvent(s: State): State { s.(paused := false) }
  function PauseEvent(s: State): State { s.(paused := true) }

  /** The element's `enterpictureinpicture` and `leavepictureinpicture` listeners. */
  function EnterPictureInPicture(s: State): State { s.(miniPlayer := true) }
  function LeavePictureInPicture(s: State): State { s.(miniPlayer := false) }

  // ------------------------------------------------- requests to the host document

  /** The document state the full-screen and picture-in-picture toggles consult. */
  datatype Host = Host(
    fullscreenActive: bool,
    pictureInPictureActive: bool,
    pictureInPictureEnabled: bool)

  /**
   * What a toggle asks of the document. The answer arrives later, if at all, through
   * the `fullscreenchange` and picture-in-picture listeners.
   */
  datatype HostRequest =
    | NoRequest
    | RequestFullscreen
    | ExitFullscreen
    | RequestPictureInPicture
    | ExitPictureInPicture

  /** `toggleFullScreenMode`: it does not consult the `fullScreenMode` option. */
  function FullScreenRequest(h: Host): HostRequest {
    if h.fullscreenActive then ExitFullscreen else RequestFullscreen
  }

  /** `toggleMiniPlayerMode`. */
  function MiniPlayerRequest(o: Options, h: Host): HostRequest {
    if !o.miniPlayerMode then NoRequest
    else if h.pictureInPictureActive then ExitPictureInPicture
    else if h.pictureInPictureEnabled then RequestPictureInPicture
    else NoRequest
  }

  // ------------------------------------------------------------ keyboard

  /** The effect of a keyboard command on the state. */
  function RunCommand(s: State, c: Keys.Command): State {
    match c
    case TogglePlay => TogglePlay(s)
    case ToggleCaption => ToggleCaption(s)
    case ToggleFullScreen => s
    case ToggleTheater => ToggleTheaterMode(s)
    case ToggleMiniPlayer => s
    case ToggleMute => ToggleMute(s)
    case Skip(d) => Skip(s, d as real)
  }

  /** The request to the document a keyboard command makes. */
  function CommandRequest(o: Options, c: Keys.Command, h: Host): HostRequest {
    match c
    case ToggleFullScreen => FullScreenRequest(h)
    case ToggleMiniPlayer => MiniPlayerRequest(o, h)
    case _ => NoRequest
  }

  /** The document's `keydown` listener: its effect on the state. */
  function KeyDown(s: State, key: string, focused: Option<string>): State {
    match Keys.Dispatch(key, focused)
    case None => s
    case Some(c) => RunCommand(s, c)
  }

  /** The document's `keydown` listener: its request to the document. */
  function KeyDownRequest(o: Options, key: string, focused: Option<string>, h: Host): HostRequest {
    match Keys.Dispatch(key, focused)
    case None => NoRequest
    case Some(c) => CommandRequest(o, c, h)
  }
}

/**
 * Everything that can happen to the player, as one alphabet of events, and the
 * player's runs over sequences of them.
 */
module Events {
  import opened Wrappers
  import opened Playback

  datatype Event =
    // the player's own controls (`PlayClick`: the play button, or a click on the video)
    | PlayClick
    | MuteClick
    | VolumeInput(v: real)
    | CaptionClick
    | SpeedClick
    | TheaterClick
    | MiniPlayerClick   // asks the document only; see `Player.VideoPlayer.ToggleMiniPlayerMode`
    | FullScreenClick   // asks the document only; see `Player.VideoPlayer.ToggleFullScreenMode`
    // the timeline's own mousedown and mousemove listeners
    | TimelinePress(x: real, left: real, width: real, buttons: nat)
    | TimelineHover(x: real, left: real, width: real)
    // document listeners
    | DocumentKeyDown(key: string, focused: Option<string>)
    | DocumentMouseUp(x: real, left: real, width: real, buttons: nat)
    | DocumentMouseMove(x: real, left: real, width: real)
    | DocumentFullScreenChange(active: bool)
    // element listeners
    | ElementLoadedData
    | ElementTimeUpdate
    | ElementPlay
    | ElementPause
    | ElementEnterPictureInPicture
    | ElementLeavePictureInPicture
    // the element moving on its own: playback advancing, reaching the end, controls
    // of the picture-in-picture window
    | ElementChanged(currentTime: real, paused: bool)

  /**
   * What the source relies on for an event: a slider value in range, a visible
   * timeline, a known duration, and a button that is rendered at all (the caption,
   * speed, mini-player, theater and full-screen buttons only exist when their option
   * is on; the mini-player button also needs the document to allow picture-in-picture,
   * which is not part of the state).
   */
  predicate Allowed(s: State, e: Event) {
    match e
    case VolumeInput(v) => 0.0 <= v <= 1.0
    case CaptionClick => s.options.captions
    case SpeedClick => s.options.playSpeed
    case TheaterClick => s.options.theaterMode
    case MiniPlayerClick => s.options.miniPlayerMode
    case FullScreenClick => s.options.fullScreenMode
    case TimelinePress(_, _, width, _) => width > 0.0
    case TimelineHover(_, _, width) => width > 0.0
    case DocumentMouseUp(_, _, width, _) => width > 0.0
    case DocumentMouseMove(_, _, width) => width > 0.0
    case ElementTimeUpdate => s.video.duration > 0.0
    case _ => true
  }

  function Step(s: State, e: Event): State
    requires Allowed(s, e)
  {
    match e
    case PlayClick => TogglePlay(s)
    case MuteClick => ToggleMute(s)
    case VolumeInput(v) => VolumeChange(s, v)
    case CaptionClick => ToggleCaption(s)
    case SpeedClick => ChangePlaybackSpeed(s)
    case TheaterClick => ToggleTheaterMode(s)
    case MiniPlayerClick => s
    case FullScreenClick => s
    case TimelinePress(x, left, width, buttons) => ToggleScrubbing(s, x, left, width, buttons)
    case TimelineHover(x, left, width) => TimelineUpdate(s, x, left, width)
    case DocumentKeyDown(key, focused) => KeyDown(s, key, focused)
    case DocumentMouseUp(x, left, width, buttons) => MouseUp(s, x, left, width, buttons)
    case DocumentMouseMove(x, left, width) => MouseMove(s, x, left, width)
    case DocumentFullScreenChange(active) => FullScreenChange(s, active)
    case ElementLoadedData => LoadedData(s)
    case ElementTimeUpdate => TimeUpdate(s)
    case ElementPlay => PlayEvent(s)
    case ElementPause => PauseEvent(s)
    case ElementEnterPictureInPicture => EnterPictureInPicture(s)
    case ElementLeavePictureInPicture => LeavePictureInPicture(s)
    case ElementChanged(t, p) => s.(video := s.video.(currentTime := t, paused := p))
  }

  /** Every event of `es` is allowed in the state it arrives in. */
  predicate Accepts(s: State, es: seq<Event>)
    decreases |es|
  {
    es == [] || (Allowed(s, es[0]) && Accepts(Step(s, es[0]), es[1..]))
  }

  function Run(s: State, es: seq<Event>): State
    requires Accepts(s, es)
    decreases |es|
  {
    if es == [] then s else Run(Step(s, es[0]), es[1..])
  }
}

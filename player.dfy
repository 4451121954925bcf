/**
 * The video player component as the object it is: its signals are fields that the
 * handlers update in place, and the video element is a second object whose fields
 * the handlers write. Every handler is specified by the matching transition of
 * `Playback` (`Snapshot() == F(old(Snapshot()))`) and keeps `Valid()`.
 */
module Player {
  import opened Wrappers
  import Keys
  import Timeline
  import opened Playback
  import Properties

  /** The fields of the video element that the player reads and writes. */
  class MediaElement {
    var muted: bool
    var volume: real
    var playbackRate: int      // quarter steps
    var currentTime: real
    var duration: real
    var paused: bool
    var captionsShowing: bool  // first text track's mode is `showing`

    function View(): Media
      reads this
    {
      Media(muted, volume, playbackRate, currentTime, duration, paused, captionsShowing)
    }

    /** An element created for media lasting `duration` seconds. */
    constructor (duration: real)
      ensures View() == FreshMedia(duration).(captionsShowing := View().captionsShowing)
    {
      muted, volume, playbackRate := false, 1.0, 4;
      currentTime, this.duration, paused := 0.0, duration, true;
    }

    /** `play()`; decoding and the `play` event that follows are the element's business. */
    method Play()
      modifies this
      ensures View() == old(View()).(paused := false)
    {
      paused := false;
    }

    /** `pause()`. */
    method Pause()
      modifies this
      ensures View() == old(View()).(paused := true)
    {
      paused := true;
    }
  }

  class VideoPlayer {
    const options: Options
    const video: MediaElement

    var paused: bool
    var wasPaused: bool
    var caption: bool
    var playbackRate: int      // quarter steps
    var miniPlayer: bool
    var theater: bool
    var fullScreen: bool
    var volume: real
    var volumeLevel: VolumeLevel
    var currentTime: real
    var totalTime: real
    var scrubbing: bool

    // what the handlers write into the page for the timeline
    var previewPosition: real  // --preview-position
    var progressPosition: real // --progress-position
    var previewImage: Option<nat>    // the preview image's source, by thumbnail number
    var thumbnailImage: Option<nat>  // the thumbnail image's source, by thumbnail number

    function Snapshot(): State
      reads this, video
    {
      State(options, paused, wasPaused, caption, playbackRate, miniPlayer, theater, fullScreen,
            volume, volumeLevel, currentTime, totalTime, scrubbing, video.View(),
            TimelineMarks(previewPosition, progressPosition, previewImage, thumbnailImage))
    }

    predicate Valid()
      reads this, video
    {
      Playback.Valid(Snapshot())
    }

    /** Creating the component and mounting it: the track is hidden and the rate read from the element. */
    constructor (options: Options, duration: real)
      requires duration >= 0.0
      ensures fresh(video)
      ensures Valid() && Snapshot() == Init(options, duration)
    {
      this.options := options;
      video := new MediaElement(duration);
      paused, wasPaused, caption, playbackRate := true, false, false, 4;
      miniPlayer, theater, fullScreen := false, false, false;
      volume, volumeLevel := 0.5, High;
      currentTime, totalTime, scrubbing := 0.0, 0.0, false;
      previewPosition, progressPosition, previewImage, thumbnailImage := 0.0, 0.0, None, None;
      new;
      video.captionsShowing := false;
      playbackRate := video.playbackRate;
      InitValid(options, duration);
    }

    method TogglePlay()
      requires Valid()
      modifies this, video
      ensures Valid() && Snapshot() == Playback.TogglePlay(old(Snapshot()))
    {
      if video.paused {
        video.Play();
      } else {
        video.Pause();
      }
    }

    method ToggleMute()
      requires Valid()
      modifies this, video
      ensures Valid() && Snapshot() == Playback.ToggleMute(old(Snapshot()))
    {
      video.muted := !video.muted;
      if video.muted {
        volumeLevel := Muted;
      } else if volume >= 0.5 {
        volumeLevel := High;
      } else {
        volumeLevel := Low;
      }
    }

    /** `volumeChange` with the slider's value, which the slider keeps between 0 and 1. */
    method VolumeChange(v: real)
      requires Valid() && 0.0 <= v <= 1.0
      modifies this, video
      ensures Valid() && Snapshot() == Playback.VolumeChange(old(Snapshot()), v)
    {
      if v == 0.0 {
        ToggleMute();
      } else {
        if video.muted {
          ToggleMute();
        }
        volume := v;
        volumeLevel := if v >= 0.5 then High else Low;
        video.volume := v;
        Properties.VolumeChangeKeepsValid(old(Snapshot()), v);
      }
    }

    method ToggleCaption()
      requires Valid()
      modifies this, video
      ensures Valid() && Snapshot() == Playback.ToggleCaption(old(Snapshot()))
    {
      if options.captions {
        var isHidden := !video.captionsShowing;
        video.captionsShowing := isHidden;
        caption := isHidden;
      }
    }

    /** `changePlaybackSpeed`: it reads back the rate it has just stored. */
    method ChangePlaybackSpeed()
      requires Valid()
      modifies this, video
      ensures Valid() && Snapshot() == Playback.ChangePlaybackSpeed(old(Snapshot()))
    {
      playbackRate := playbackRate + 1;
      if playbackRate > 8 {
        playbackRate := 1;
      }
      video.playbackRate := playbackRate;
    }

    method ToggleTheaterMode()
      requires Valid()
      modifies this, video
      ensures Valid() && Snapshot() == Playback.ToggleTheaterMode(old(Snapshot()))
    {
      if options.theaterMode {
        fullScreen := false;
        theater := !theater;
      }
    }

    /** `toggleFullScreenMode`: changes nothing here, only asks the document. */
    method ToggleFullScreenMode(h: Host) returns (request: HostRequest)
      ensures request == FullScreenRequest(h)
      ensures request == ExitFullscreen <==> h.fullscreenActive
      ensures request != NoRequest
    {
      if h.fullscreenActive {
        request := ExitFullscreen;
      } else {
        request := RequestFullscreen;
      }
    }

    /** `toggleMiniPlayerMode`: changes nothing here, only asks the document. */
    method ToggleMiniPlayerMode(h: Host) returns (request: HostRequest)
      ensures request == MiniPlayerRequest(options, h)
      ensures request != NoRequest ==> options.miniPlayerMode
      ensures request == RequestPictureInPicture ==> h.pictureInPictureEnabled && !h.pictureInPictureActive
    {
      request := NoRequest;
      if options.miniPlayerMode {
        if h.pictureInPictureActive {
          request := ExitPictureInPicture;
        } else if h.pictureInPictureEnabled {
          request := RequestPictureInPicture;
        }
      }
    }

    method Skip(seconds: real)
      requires Valid()
      modifies this, video
      ensures Valid() && Snapshot() == Playback.Skip(old(Snapshot()), seconds)
    {
      video.currentTime := video.currentTime + seconds;
    }

    /** `handleTimelineUpdate` for a pointer at `x` over a timeline at `left`, `width` wide. */
    method HandleTimelineUpdate(x: real, left: real, width: real)
      requires Valid() && width > 0.0
      modifies this
      ensures Valid() && Snapshot() == TimelineUpdate(old(Snapshot()), x, left, width)
    {
      var p := Timeline.Fraction(x, left, width);
      var image := Some(Timeline.PreviewIndex(p, video.duration));
      previewImage := image;
      previewPosition := p;
      if scrubbing {
        thumbnailImage := image;
        progressPosition := p;
      }
      Properties.TimelineUpdateKeepsValid(old(Snapshot()), x, left, width);
    }

    /** `toggleScrubbing`: the button half, then the timeline follows the pointer. */
    method ToggleScrubbing(x: real, left: real, width: real, buttons: nat)
      requires Valid() && width > 0.0
      modifies this, video
      ensures Valid() && Snapshot() == Playback.ToggleScrubbing(old(Snapshot()), x, left, width, buttons)
    {
      var p := Timeline.Fraction(x, left, width);
      ScrubButton(p, buttons);
      HandleTimelineUpdate(x, left, width);
    }

    /**
     * The button half of `toggleScrubbing` for a pointer at fraction `p`: it branches
     * on the scrubbing flag it has just written.
     */
    method ScrubButton(p: real, buttons: nat)
      requires Valid()
      modifies this, video
      ensures Valid() && Snapshot() == Playback.ScrubButton(old(Snapshot()), p, buttons)
    {
      scrubbing := buttons % 2 == 1;
      if scrubbing {
        wasPaused := video.paused;
        video.Pause();
      } else {
        video.currentTime := p * video.duration;
        if !wasPaused {
          video.Play();
        }
      }
    }

    /** The document's `keydown` listener; returns what it asks of the document. */
    method OnKeyDown(key: string, focused: Option<string>, h: Host) returns (request: HostRequest)
      requires Valid()
      modifies this, video
      ensures Valid() && Snapshot() == KeyDown(old(Snapshot()), key, focused)
      ensures request == KeyDownRequest(options, key, focused, h)
    {
      request := NoRequest;
      var command := Keys.Dispatch(key, focused);
      Properties.KeyDownByCommand(old(Snapshot()), key, focused, h);
      match command
      case None =>
      case Some(c) =>
        match c
        case TogglePlay => TogglePlay();
        case ToggleCaption => ToggleCaption();
        case ToggleFullScreen => request := ToggleFullScreenMode(h);
        case ToggleTheater => ToggleTheaterMode();
        case ToggleMiniPlayer => request := ToggleMiniPlayerMode(h);
        case ToggleMute => ToggleMute();
        case Skip(d) => Skip(d as real);
    }

    /** The document's `fullscreenchange` listener; `active` is whether it now has a full-screen element. */
    method OnFullScreenChange(active: bool)
      requires Valid()
      modifies this
      ensures Valid() && Snapshot() == FullScreenChange(old(Snapshot()), active)
    {
      miniPlayer := false;
      theater := false;
      fullScreen := active;
    }

    /** The document's `mouseup` listener. */
    method OnMouseUp(x: real, left: real, width: real, buttons: nat)
      requires Valid() && width > 0.0
      modifies this, video
      ensures Valid() && Snapshot() == MouseUp(old(Snapshot()), x, left, width, buttons)
    {
      if scrubbing {
        ToggleScrubbing(x, left, width, buttons);
      }
    }

    /** The document's `mousemove` listener. */
    method OnMouseMove(x: real, left: real, width: real)
      requires Valid() && width > 0.0
      modifies this
      ensures Valid() && Snapshot() == MouseMove(old(Snapshot()), x, left, width)
    {
      if scrubbing {
        HandleTimelineUpdate(x, left, width);
      }
    }

    method OnLoadedData()
      requires Valid()
      modifies this
      ensures Valid() && Snapshot() == LoadedData(old(Snapshot()))
    {
      totalTime := video.duration;
    }

    /** The element's `timeupdate` listener, for media whose duration is known. */
    method OnTimeUpdate()
      requires Valid() && video.duration > 0.0
      modifies this
      ensures Valid() && Snapshot() == TimeUpdate(old(Snapshot()))
    {
      currentTime := video.currentTime;
      progressPosition := video.currentTime / video.duration;
    }

    method OnPlay()
      requires Valid()
      modifies this
      ensures Valid() && Snapshot() == PlayEvent(old(Snapshot()))
    {
      paused := false;
    }

    method OnPause()
      requires Valid()
      modifies this
      ensures Valid() && Snapshot() == PauseEvent(old(Snapshot()))
    {
      paused := true;
    }

    method OnEnterPictureInPicture()
      requires Valid()
      modifies this
      ensures Valid() && Snapshot() == EnterPictureInPicture(old(Snapshot()))
    {
      miniPlayer := true;
    }

    method OnLeavePictureInPicture()
      requires Valid()
      modifies this
      ensures Valid() && Snapshot() == LeavePictureInPicture(old(Snapshot()))
    {
      miniPlayer := false;
    }
  }
}

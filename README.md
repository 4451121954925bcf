# SolidJS video player, modelled in Dafny

This project models the `VideoPlayer` component of the SolidJS video player
(`src/components/VideoPlayer/VideoPlayer.tsx`): its signals, its handlers, the
document and element listeners it registers on mount, the elapsed-time formatter and
the timeline arithmetic for scrubbing.

The files are:

- `wrappers.dfy`: `Option`.
- `format.dfy` (module `Format`): `formatDuration` (`M:SS` below one hour, `H:MM:SS`
  from one hour on), built from the `Math.floor`/`%` components and a two-digit
  padding formatter. Its partner is a parser, `ParseDuration`, and the round trip
  `ParseFormatted` shows that the formatter keeps the whole number of seconds.
- `timeline.dfy` (module `Timeline`): the pointer fraction
  `min(max(0, x - left), width) / width`, the preview thumbnail number
  `max(1, floor(fraction * duration / 10))` and the preview image path.
- `keys.dfy` (module `Keys`): the document `keydown` switch. A key, plus the tag of
  the focused element, selects at most one `Command`.
- `playback.dfy`:
  - module `Playback`: the component's state as one value, `State`. It holds every
    signal, the options, the fields of the video element the handlers use, and what
    the handlers write into the timeline. Each handler is one transition function, and
    `Valid` is the invariant all of them keep.
  - module `Events`: the whole alphabet of events and the runs over sequences of them.
- `properties.dfy` (module `Properties`): the handlers' promises proved about the
  transition functions. These include invariant preservation along every run, the
  mute and caption toggles being involutions, the 8-step playback-rate cycle, the
  scrub gesture, the theater/full-screen exclusion and the keyboard bindings.
- `player.dfy` (module `Player`): the component as it runs.
  - Class `VideoPlayer` has one field per signal, and its methods update the fields in
    place and write the fields of a separate `MediaElement` object, as the handlers do.
  - Every method keeps `Valid()`.
  - Every method ensures `Snapshot() == F(old(Snapshot()))` for its transition function
    `F` in `Playback`. This ties the in-place code to the value-level properties.

Representation choices:

- Times, volumes and fractions are `real`, i.e. exact arithmetic, not IEEE doubles.
- Playback rates are counted in quarter steps: 4 is 1.0x, 1 is 0.25x and 8 is 2.0x. Every
  rate the source can produce from the element's initial 1.0x is a multiple of 0.25, so
  this representation is exact.
- JavaScript's `%` is only applied to non-negative times. For those it coincides with
  flooring, which is `Format.Rem`.

Facts about the code that the model states outright:

- The speed button cycles through 8 rates, 0.25x to 2.0x and back to 0.25x
  (`Properties.RatePeriod`).
- `toggleFullScreenMode` ignores `fullScreenMode`, so the `f` key works with the
  option off; only the button is hidden (`Properties.FullScreenKeyIgnoresOption`).
- `defaultOptions` only applies when no props object is passed, so the model takes
  the options as a parameter (`Playback.DefaultOptions` holds the defaults,
  `Properties.DefaultOptionsNoCaptions` uses them).

The model keeps the following behaviours of the code, each with a lemma:

- Moving the volume slider to 0 toggles mute, so on a muted player it unmutes
  (`Properties.VolumeZeroUnmutes`).
- Pressing on the timeline pauses the element and does not seek. Only the release
  seeks (`Properties.PressStartsScrub`, `Properties.ReleaseSeeks`).
- A press without the primary button takes the release branch. The remembered pause
  flag starts out false, so such a press on a fresh, paused player starts playback
  (`Properties.FreshSecondaryPressPlays`).
- A second button released during a scrub still reports the primary button, so the
  document's `mouseup` re-enters the press branch and remembers the element as paused;
  the final release then does not resume a player that was playing
  (`Properties.SecondaryButtonDuringScrub`).
- With the volume slider focused, for example after it was dragged, no keyboard
  shortcut works until focus moves elsewhere (`Keys.InputFocusSilences`).
- The volume signal and the slider start at 0.5 while the element starts at its own
  default of 1.0, so until the slider is first moved the player sounds at full volume
  while showing half (`Properties.InitialVolumeMismatch`).
- The speed, caption, theater, mini-player and full-screen buttons are only rendered
  when their option is on. With `playSpeed` off nothing else changes the rate, so the
  player plays at 1.0x on every run (`Properties.NoSpeedButtonNormalRate`).

## Model

Each `Player.VideoPlayer.*` row stands for the `Playback` transition function of the
same handler as well: the method's contract is `Snapshot() == F(old(Snapshot()))` for
that function, and the `Properties` rows state what the function does.

| member | source | states |
|---|---|---|
| Format.NatToString | src/components/VideoPlayer/VideoPlayer.tsx:132-134 | the decimal text of a number: at least one digit, starts with `0` only for 0, one digit exactly below 10 |
| Format.DigitsValueOfNatToString | src/components/VideoPlayer/VideoPlayer.tsx:132-134 | reading the printed digits back gives the number |
| Format.NatToStringInjective | src/components/VideoPlayer/VideoPlayer.tsx:132-134 | different numbers print differently |
| Format.Pad2 | src/components/VideoPlayer/VideoPlayer.tsx:123-125 | the two-digit formatter on a component below 60: exactly two digits whose value is the component |
| Format.Seconds | src/components/VideoPlayer/VideoPlayer.tsx:128 | `floor(time % 60)` is below 60 and equals the whole seconds modulo 60 |
| Format.Minutes | src/components/VideoPlayer/VideoPlayer.tsx:129 | `floor(time / 60) % 60` is below 60 and equals the whole minutes modulo 60 |
| Format.Hours | src/components/VideoPlayer/VideoPlayer.tsx:130 | `floor(time / 3600)` equals the whole seconds divided by 3600 |
| Format.ClockComponents | src/components/VideoPlayer/VideoPlayer.tsx:128-130 | hours, minutes and seconds recompose to the whole number of seconds |
| Format.ParseShort | src/components/VideoPlayer/VideoPlayer.tsx:132 | the short form `M:SS` parses back to `M*60+SS` |
| Format.ParseLong | src/components/VideoPlayer/VideoPlayer.tsx:134 | the long form `H:MM:SS` parses back to `H*3600+MM*60+SS` |
| Format.ParseFormatted | src/components/VideoPlayer/VideoPlayer.tsx:127-136 | round trip: parsing `formatDuration(time)` gives the whole number of seconds of `time` |
| Format.FormatDurationEqual | src/components/VideoPlayer/VideoPlayer.tsx:127-136 | two times display alike if and only if they have the same whole number of seconds |
| Format.FormatDurationShape | src/components/VideoPlayer/VideoPlayer.tsx:131-135 | two fields exactly below one hour, three from one hour on; the lower fields are two digits below 60; the leading field has no leading zero unless it is 0 |
| Format.FormatDurationExamples | src/components/VideoPlayer/VideoPlayer.tsx:127-136 | 65 s displays as `1:05`, 3605 s as `1:00:05`, 0 s as `0:00` |
| Format.FormatDuration | src/components/VideoPlayer/VideoPlayer.tsx:127-136 | `formatDuration`; its meaning is carried by `Format.ParseFormatted` (round trip), `Format.FormatDurationEqual` and `Format.FormatDurationShape` |
| Format.ParseDuration | src/components/VideoPlayer/VideoPlayer.tsx:127-136 | the formatter's partner, reading `M:SS` and `H:MM:SS` back; `Format.ParseShort`, `Format.ParseLong` and `Format.ParseFormatted` state what it recovers |
| Timeline.Fraction | src/components/VideoPlayer/VideoPlayer.tsx:160 | the clamped pointer fraction always lies in [0, 1] |
| Timeline.FractionPiecewise | src/components/VideoPlayer/VideoPlayer.tsx:160 | the fraction is 0 left of the timeline, 1 right of it, and linear in between |
| Timeline.FractionMonotone | src/components/VideoPlayer/VideoPlayer.tsx:160 | moving the pointer right never decreases the fraction |
| Timeline.PreviewIndex | src/components/VideoPlayer/VideoPlayer.tsx:161 | the thumbnail number is at least 1 |
| Timeline.PreviewIndexBucket | src/components/VideoPlayer/VideoPlayer.tsx:161 | the number is n exactly when the time lies in n's 10-second bucket (thumbnail 1 covers the first 20 s) |
| Timeline.PreviewIndexBounded | src/components/VideoPlayer/VideoPlayer.tsx:161 | the number never exceeds max(1, duration/10) |
| Timeline.PreviewSource | src/components/VideoPlayer/VideoPlayer.tsx:162 | the preview image path for a thumbnail number; `Timeline.PreviewSourceInjective` shows the number determines it and is determined by it |
| Timeline.PreviewSourceInjective | src/components/VideoPlayer/VideoPlayer.tsx:162 | different thumbnail numbers give different image paths |
| Keys.Lower | src/components/VideoPlayer/VideoPlayer.tsx:178-182 | lower-casing keeps the length and maps each character; what it is for is stated by `Keys.LowerIdempotent` and `Keys.DispatchIgnoresCase` (a key and its lower-cased form select the same command) |
| Keys.LowerIdempotent | src/components/VideoPlayer/VideoPlayer.tsx:182 | lower-casing twice is lower-casing once |
| Keys.LowerOfArrows | src/components/VideoPlayer/VideoPlayer.tsx:203-208 | `ArrowLeft`/`ArrowRight` lower-case to the switch labels |
| Keys.Dispatch | src/components/VideoPlayer/VideoPlayer.tsx:177-211 | the keydown `switch`; `Keys.DispatchMatchesBindings` characterises it in both directions, with `Keys.InputFocusSilences` and `Keys.DispatchIgnoresCase` |
| Keys.DispatchMatchesBindings | src/components/VideoPlayer/VideoPlayer.tsx:177-212 | a key selects a command if and only if no `input` element (in this player, the volume slider) has focus, the key is bound to that command, and it is not space on a focused button |
| Keys.BindingsDisjoint | src/components/VideoPlayer/VideoPlayer.tsx:182-211 | no key is bound to two commands |
| Keys.DispatchIgnoresCase | src/components/VideoPlayer/VideoPlayer.tsx:182 | a key and its lower-case form do the same |
| Keys.InputFocusSilences | src/components/VideoPlayer/VideoPlayer.tsx:178-180 | with an `input` element (in this player, the volume slider) focused, no key does anything |
| Playback.InitValid | src/components/VideoPlayer/VideoPlayer.tsx:37-48 | the initial signals satisfy the invariant; the element starts paused and `wasPaused` false |
| Playback.TierMeaning | src/components/VideoPlayer/VideoPlayer.tsx:54-82 | under the invariant the tier is MUTED, HIGH or LOW exactly as the mute flag and the volume say |
| Player.MediaElement.constructor | src/components/VideoPlayer/VideoPlayer.tsx:312-314 | a fresh element: unmuted, full volume, 1.0x, at 0, paused |
| Player.MediaElement.Play | src/components/VideoPlayer/VideoPlayer.tsx:51 | `play()` clears the paused flag and nothing else |
| Player.MediaElement.Pause | src/components/VideoPlayer/VideoPlayer.tsx:51 | `pause()` sets the paused flag and nothing else |
| Player.VideoPlayer.constructor | src/components/VideoPlayer/VideoPlayer.tsx:173-175 | after creation and the mount step: the initial state, track hidden, rate read from the element, invariant holds |
| Player.VideoPlayer.TogglePlay | src/components/VideoPlayer/VideoPlayer.tsx:50-52 | the element plays if it was paused and pauses otherwise; the invariant is kept |
| Player.VideoPlayer.ToggleMute | src/components/VideoPlayer/VideoPlayer.tsx:54-63 | flips the element's mute flag and recomputes the tier from it; the invariant is kept |
| Player.VideoPlayer.VolumeChange | src/components/VideoPlayer/VideoPlayer.tsx:65-82 | 0 toggles mute; any other value unmutes, stores the value, sets the tier and gives the value to the element; the invariant is kept |
| Player.VideoPlayer.ToggleCaption | src/components/VideoPlayer/VideoPlayer.tsx:84-90 | with captions enabled, flips the track and mirrors it in the flag; otherwise nothing changes |
| Player.VideoPlayer.ChangePlaybackSpeed | src/components/VideoPlayer/VideoPlayer.tsx:92-96 | the next rate on the 0.25x to 2.0x cycle, stored and given to the element |
| Player.VideoPlayer.ToggleTheaterMode | src/components/VideoPlayer/VideoPlayer.tsx:98-103 | with the option on, leaves full screen and flips theater; otherwise nothing changes |
| Player.VideoPlayer.ToggleFullScreenMode | src/components/VideoPlayer/VideoPlayer.tsx:105-111 | returns `FullScreenRequest`: asks to exit full screen iff the document is in full screen, to enter it otherwise, and always asks something |
| Player.VideoPlayer.ToggleMiniPlayerMode | src/components/VideoPlayer/VideoPlayer.tsx:113-121 | with the option on: exit picture-in-picture if active, else request it if the document allows it; no request ever with the option off |
| Player.VideoPlayer.Skip | src/components/VideoPlayer/VideoPlayer.tsx:138-140 | moves the element's position by the given seconds |
| Player.VideoPlayer.HandleTimelineUpdate | src/components/VideoPlayer/VideoPlayer.tsx:158-171 | the hover preview follows the pointer; the thumbnail and the progress bar follow only while scrubbing |
| Player.VideoPlayer.ScrubButton | src/components/VideoPlayer/VideoPlayer.tsx:144-153 | with the primary button, starts a scrub (remember paused, pause); otherwise seeks to the pointer and plays unless paused before |
| Player.VideoPlayer.ToggleScrubbing | src/components/VideoPlayer/VideoPlayer.tsx:142-156 | the button half, then the timeline update, for the same pointer |
| Player.VideoPlayer.OnKeyDown | src/components/VideoPlayer/VideoPlayer.tsx:177-212 | runs the command the key selects, and returns the request to the document that command makes |
| Player.VideoPlayer.OnFullScreenChange | src/components/VideoPlayer/VideoPlayer.tsx:213-217 | mini player and theater off; full screen follows the document |
| Player.VideoPlayer.OnMouseUp | src/components/VideoPlayer/VideoPlayer.tsx:218-220 | ends a scrub in progress; ignored otherwise |
| Player.VideoPlayer.OnMouseMove | src/components/VideoPlayer/VideoPlayer.tsx:221-223 | follows the pointer during a scrub; ignored otherwise |
| Player.VideoPlayer.OnLoadedData | src/components/VideoPlayer/VideoPlayer.tsx:225-227 | the total time becomes the element's duration |
| Player.VideoPlayer.OnTimeUpdate | src/components/VideoPlayer/VideoPlayer.tsx:228-232 | copies the element's position and sets the progress to position / duration |
| Player.VideoPlayer.OnPlay | src/components/VideoPlayer/VideoPlayer.tsx:234 | the paused signal becomes false |
| Player.VideoPlayer.OnPause | src/components/VideoPlayer/VideoPlayer.tsx:235 | the paused signal becomes true |
| Player.VideoPlayer.OnEnterPictureInPicture | src/components/VideoPlayer/VideoPlayer.tsx:236 | the mini-player signal becomes true |
| Player.VideoPlayer.OnLeavePictureInPicture | src/components/VideoPlayer/VideoPlayer.tsx:237 | the mini-player signal becomes false |
| Events.Step | src/components/VideoPlayer/VideoPlayer.tsx:173-310 | which handler each registered listener and each rendered control runs; the mini-player and full-screen buttons only ask the document and leave the state as it is; `Events.Allowed` admits a click on an option button only when its option is on; `Properties.StepKeepsValid` and `Properties.RunKeepsValid` state that every step and every run keeps the invariant |
| Properties.StepKeepsValid | src/components/VideoPlayer/VideoPlayer.tsx:50-237 | every handler and listener keeps the invariant and leaves the options alone |
| Properties.VolumeChangeKeepsValid | src/components/VideoPlayer/VideoPlayer.tsx:65-82 | a volume change keeps the invariant |
| Properties.TimelineUpdateKeepsValid | src/components/VideoPlayer/VideoPlayer.tsx:158-171 | a timeline update keeps the invariant and does not change whether a scrub is in progress |
| Properties.ScrubButtonKeepsValid | src/components/VideoPlayer/VideoPlayer.tsx:144-153 | the button half of a scrub keeps the invariant |
| Properties.ScrubbingKeepsValid | src/components/VideoPlayer/VideoPlayer.tsx:142-156 | a scrub toggle keeps the invariant |
| Properties.KeyDownKeepsValid | src/components/VideoPlayer/VideoPlayer.tsx:177-212 | a key press keeps the invariant |
| Properties.KeyDownByCommand | src/components/VideoPlayer/VideoPlayer.tsx:177-212 | a key press does what the selected command does (nothing when none is selected), in state and in request |
| Properties.RunCommandKeepsValid | src/components/VideoPlayer/VideoPlayer.tsx:185-210 | every keyboard command keeps the invariant |
| Properties.RunKeepsValid | src/components/VideoPlayer/VideoPlayer.tsx:50-237 | any sequence of events keeps the invariant |
| Properties.ReachableStates | src/components/VideoPlayer/VideoPlayer.tsx:37-237 | in every reachable state, theater and full screen are not both on; the tier matches mute and volume; the rate is between 0.25x and 2.0x; captions and theater stay off when their options are off |
| Properties.StepKeepsRate | src/components/VideoPlayer/VideoPlayer.tsx:173-310 | with the speed button hidden, no allowed event changes the stored rate |
| Properties.ScrubbingKeepsRate | src/components/VideoPlayer/VideoPlayer.tsx:142-156 | pressing or releasing on the timeline leaves the rate alone |
| Properties.KeyDownKeepsRate | src/components/VideoPlayer/VideoPlayer.tsx:177-212 | no key changes the rate |
| Properties.CommandKeepsRate | src/components/VideoPlayer/VideoPlayer.tsx:185-210 | no keyboard command changes the rate |
| Properties.RunKeepsRate | src/components/VideoPlayer/VideoPlayer.tsx:173-310 | with the speed button hidden, every run keeps the rate |
| Properties.NoSpeedButtonNormalRate | src/components/VideoPlayer/VideoPlayer.tsx:291-295 | with `playSpeed` off, the player and the element play at 1.0x after any run |
| Properties.InitialVolumeMismatch | src/components/VideoPlayer/VideoPlayer.tsx:44-45 | at start the volume signal (and slider) is 0.5 and the tier HIGH while the element's volume is 1.0 |
| Properties.DefaultOptionsNoCaptions | src/components/VideoPlayer/VideoPlayer.tsx:24-28 | with the default options, captions never show |
| Properties.ToggleMuteTwice | src/components/VideoPlayer/VideoPlayer.tsx:54-63 | muting twice restores the state |
| Properties.ToggleMuteTier | src/components/VideoPlayer/VideoPlayer.tsx:54-63 | after a toggle the flag is flipped, the tier is MUTED iff muted and HIGH iff unmuted at volume >= 0.5; the volumes stay |
| Properties.VolumeChangeNonZero | src/components/VideoPlayer/VideoPlayer.tsx:69-80 | a non-zero value unmutes and becomes both volumes; the tier is HIGH iff >= 0.5, LOW iff < 0.5 |
| Properties.VolumeChangeZero | src/components/VideoPlayer/VideoPlayer.tsx:68-69 | value 0 does exactly what the mute button does (`VolumeChange(s, 0) == ToggleMute(s)`); the volumes stay |
| Properties.VolumeZeroUnmutes | src/components/VideoPlayer/VideoPlayer.tsx:68-69 | value 0 on a muted player unmutes it at its old volume |
| Properties.VolumeChangeIdempotent | src/components/VideoPlayer/VideoPlayer.tsx:69-80 | setting the same non-zero volume twice is setting it once |
| Properties.NextRateInRange | src/components/VideoPlayer/VideoPlayer.tsx:92-96 | the next rate lies between 0.25x and 2.0x |
| Properties.RateAfterCycle | src/components/VideoPlayer/VideoPlayer.tsx:92-96 | n speed clicks advance the rate by n quarter steps modulo 8 |
| Properties.RatePeriod | src/components/VideoPlayer/VideoPlayer.tsx:92-96 | the speed cycle has period exactly 8 |
| Properties.ChangePlaybackSpeedSyncs | src/components/VideoPlayer/VideoPlayer.tsx:92-96 | after a click the element plays at the stored rate, which is on the cycle |
| Properties.TheaterDisabledNoOp | src/components/VideoPlayer/VideoPlayer.tsx:98-103 | with the option off, the theater toggle changes nothing |
| Properties.TheaterEnabled | src/components/VideoPlayer/VideoPlayer.tsx:98-103 | with the option on: full screen off, theater flipped, theater on when coming from full screen, mini player unchanged |
| Properties.FullScreenChangeWins | src/components/VideoPlayer/VideoPlayer.tsx:213-217 | after a full-screen change, theater and mini player are off and full screen follows the document |
| Properties.FullScreenKeyIgnoresOption | src/components/VideoPlayer/VideoPlayer.tsx:191-193 | the `f` key requests full screen (or its exit) whatever `fullScreenMode` says |
| Properties.MiniPlayerKey | src/components/VideoPlayer/VideoPlayer.tsx:197-199 | the `i` key makes a request if and only if the option is on and picture-in-picture is active or allowed |
| Properties.CaptionDisabledNoOp | src/components/VideoPlayer/VideoPlayer.tsx:84-90 | with captions off, the toggle and the `c` key change nothing |
| Properties.CaptionEnabled | src/components/VideoPlayer/VideoPlayer.tsx:84-90 | with captions on, the track flips and the flag says whether it now shows |
| Properties.ToggleCaptionTwice | src/components/VideoPlayer/VideoPlayer.tsx:84-90 | toggling captions twice restores the state |
| Properties.SkipBackAndForth | src/components/VideoPlayer/VideoPlayer.tsx:138-140 | skipping forward then back by the same amount restores the state |
| Properties.SkipKeys | src/components/VideoPlayer/VideoPlayer.tsx:203-210 | `j` and the left arrow skip back 5 s; `l` and the right arrow skip forward 5 s |
| Properties.PressStartsScrub | src/components/VideoPlayer/VideoPlayer.tsx:142-171 | a primary press starts a scrub: remembers the paused flag, pauses, does not seek, and moves both marks and both images to the pointer |
| Properties.ReleaseSeeks | src/components/VideoPlayer/VideoPlayer.tsx:142-171 | a release seeks to the pointer, plays unless paused before, and leaves the progress and thumbnail alone |
| Properties.HoverMovesOnlyPreview | src/components/VideoPlayer/VideoPlayer.tsx:158-171 | hovering without a scrub moves only the hover preview |
| Properties.IdleDocumentMouseIgnored | src/components/VideoPlayer/VideoPlayer.tsx:218-223 | the document mouse listeners change nothing outside a scrub |
| Properties.DragChangesOnlyMarks | src/components/VideoPlayer/VideoPlayer.tsx:221-223 | dragging during a scrub changes only the timeline marks |
| Properties.ScrubGesture | src/components/VideoPlayer/VideoPlayer.tsx:142-223 | a press, a drag and a release end at the release point, playing exactly when the player played before |
| Properties.ReleaseThenTimeUpdate | src/components/VideoPlayer/VideoPlayer.tsx:228-232 | after a release, the next time update shows the release fraction as the progress |
| Properties.FreshSecondaryPressPlays | src/components/VideoPlayer/VideoPlayer.tsx:142-156 | a fresh player is paused, yet a non-primary press on the timeline starts playback |
| Properties.SecondaryButtonDuringScrub | src/components/VideoPlayer/VideoPlayer.tsx:145-153 | a second button released during a scrub re-enters the press branch and remembers paused, so the final release leaves a formerly playing player paused |
| Properties.ScrubScenario | src/components/VideoPlayer/VideoPlayer.tsx:142-171 | on a 120 s video, a press at the middle shows preview 6 without seeking; a release at three quarters seeks to 90 s and plays |

## Left out

- Rendering is not modelled: the JSX markup, `classList`, `data-volume-level`, `Show`, the icons and the `App` wrapper. The model keeps only the state they display.
- The document's full-screen and picture-in-picture machinery is not modelled. A toggle returns a `HostRequest`, and the document's answer arrives as the `fullscreenchange` and picture-in-picture events.
- The element's own behaviour is not modelled: decoding, `play()` being asynchronous or rejected, and clamping `currentTime` to the media. It moves on its own only through the `ElementChanged` event.
- Playback.Skip: the element would clamp the new position to [0, duration]; the model records the unclamped sum.
- Floating point (rounding, `NaN`, infinities) is not modelled; numbers are exact reals.
- Timeline.Fraction: requires a positive width. With a zero width the source divides by zero and gets `NaN`.
- Playback.TimeUpdate: requires a positive duration. The source divides without a guard and gets `NaN` or an infinity while the duration is unknown or zero.
- The duration is fixed when the element is created; metadata loading it later, with `NaN` before that, is not modelled.
- Format.Pad2: only components below 60 are padded, which are the only values the formatter receives. Locale-specific digits of `Intl.NumberFormat` are not modelled; ASCII digits are assumed.
- Keys.Lower: lower-cases the ASCII letters only, not full Unicode case mapping.
- `e.preventDefault()` during a scrub, the listener registration itself, and `getBoundingClientRect` are not modelled. The rectangle's left edge and width are passed in as parameters.
- The video element is a separate object that nothing else aliases, and the track list is reduced to the first track's `showing`/`hidden` mode.
- Image sources are recorded by thumbnail number; `Timeline.PreviewSource` gives the path, and `Timeline.PreviewSourceInjective` shows that nothing is lost.
- The `src` option is not modelled.
- The mini-player button is also hidden when the document does not allow picture-in-picture; `Events.Allowed` checks only the option, and `Player.VideoPlayer.ToggleMiniPlayerMode` returns no request in that case.

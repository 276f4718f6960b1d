# Tick scheduler and source-row decisions of a media slideshow player

This project models two small pieces of decision logic from the renderer of a
desktop media slideshow application, both inside React components.

**The audio control (`AudioControl`).** The first part is the audio "tick".
A per-track timer fires repeatedly and flips a parity bit that the sound
player watches. Each delay comes from the track's tick mode:
- random: `floor(r * (max - min + 1)) + min`
- sine: `floor(|sin(now / rate)| * (max - min + 1)) + min`, where `rate = (|sinRate - 100| + 2) * 1000`
- constant: the track's delay
- BPM: `60000 / (bpm * multiplier)`, where a signed multiplier `m <= 0` means `1 / (2 - m)`, with a 1000 ms fallback
- scene: no timer at all.

The component stores one timeout and a snapshot of the track. It restarts the
loop on mount and on some updates, and flips the parity when the scene's paths
change in scene mode. Two of its handlers edit the scene's shared track list in place:
- three mutually exclusive end-of-track switches (`tick`, `stopAtEnd`, `nextSceneAtEnd`)
- deleting a track by id.

The seek buttons change only the component's own playback position: ten
seconds back or forward, clamped to the track. The player's position reports
and the position slider set that position too.

**The library row (`SourceListItem`).** The modelled decisions are:
- the short tag label, which drops lower-case ASCII letters and white space
- what a click on the source icon does under each Shift/Ctrl combination
- the cache path and the platform-dependent path passed to the shell
- the count chip, the clip chip and the clean-cache button
- the switch between the URL editor and the normal row.

Modules:
- `Js` (js.dfy): Option, JavaScript numbers (finite, NaN, infinite), falsiness, and integer-to-string.
- `AudioTiming` (audio_timing.dfy): the track record, the delay formulas, the timer choice of one loop step, and the multiplier labels.
- `AudioControl` (audio_control.dfy): the lifecycle rules, the list edits, the seek clamps, and the class `Control` with the component's mutable state.
- `SourceListItem` (source_list_item.dfy): the row's pure decisions, and the class `Row` holding the URL field's text.

External inputs become parameters:
- `Math.random()` becomes a draw in `[0, 1)`.
- `Math.sin` becomes a function bounded by `[-1, 1]`.
- `Date.now()` becomes a real number.
- The `data/utils` helpers (`getSourceType`, `getCachePath`, `getFileName`, `urlToPath`) become the function fields of a `Utils` record, so nothing is assumed about them.
- `process.platform` becomes a string.
- Whether `onPlay` throws becomes a boolean.

Behaviour of the code that the model states as it is:
- The sine delay reaches `max + 1` when `|sin|` is exactly 1 (AudioControl.tsx:581). `SinDelay` states the exact range `[min, max + 1]`.
- A zero BPM yields Infinity, which `!timeout` (AudioControl.tsx:590) does not replace. Only a non-numeric or missing BPM, which gives NaN, gets 1000 ms. `BpmDelay` returns `Infinity(true)` for a zero BPM.
- A restart does not clear the stored timeout before it arms the next one (AudioControl.tsx:481-486), so the model claims no "at most one pending timer" invariant.
- `tickLoop(true)` skips only the parity flip and then arms the next timeout as usual (AudioControl.tsx:569-601); nothing fires at once. In scene mode no timeout is armed and no error is raised.

## Model

| member | source | states |
|---|---|---|
| `AudioTiming.RandomDelay` | src/renderer/components/player/AudioControl.tsx:576-578 | with `min <= max` every draw in [0,1) gives a delay in `[min, max]`; with crossed bounds the delay lies in `[max+1, min]` |
| `AudioTiming.SinRate` | src/renderer/components/player/AudioControl.tsx:580 | the sine divisor is at least 2000 for every integer rate, and equals `(102 - rate) * 1000` up to 100 and `(rate - 98) * 1000` above |
| `AudioTiming.SinLevel` | src/renderer/components/player/AudioControl.tsx:581 | `|sin(now / rate)|` lies in [0, 1] |
| `AudioTiming.SinDelay` | src/renderer/components/player/AudioControl.tsx:579-582 | with `min <= max` the delay lies in `[min, max+1]`; it is at most `max` when the level is below 1, and exactly `max+1` at level 1 |
| `AudioTiming.BpmMultiplier` | src/renderer/components/player/AudioControl.tsx:587 | the effective multiplier is positive; it is `m` for `m > 0`, and for `m <= 0` it is at most 1/2 with `k * (2 - m) == 1` |
| `AudioTiming.BpmQuotient` | src/renderer/components/player/AudioControl.tsx:588 | a non-numeric BPM gives NaN; a zero BPM gives +Infinity; any other BPM gives a finite `q` with `q * bpm * multiplier == 60000` |
| `AudioTiming.BpmDelay` | src/renderer/components/player/AudioControl.tsx:586-593 | the result is never NaN or 0; a non-numeric BPM gives exactly 1000; a zero BPM stays +Infinity; a non-zero BPM keeps the quotient; a positive BPM gives a positive delay |
| `AudioTiming.BpmExamples` | src/renderer/components/player/AudioControl.tsx:586-592 | at 120 BPM, multipliers 1, 0 and -1 give 500, 1000 and 1500 ms |
| `AudioTiming.NextTimer` | src/renderer/components/player/AudioControl.tsx:573-594 | a timeout is chosen iff tick is on and the mode is not scene; constant mode gives exactly `tickDelay`; random mode gives `RandomDelay` of the draw and sine mode gives `SinDelay` of the sine level, so both stay in their bounds; BPM mode gives the BPM delay |
| `AudioTiming.MultiplierCaption` | src/renderer/components/player/AudioControl.tsx:388-391 | the caption ends in `x`; it is `m` for `m > 0` and otherwise `1 / (2-m)`, and its second character is a space exactly in that case; the number shown is the timer's multiplier, or its reciprocal |
| `AudioTiming.MultiplierSliderLabel` | src/renderer/components/player/AudioControl.tsx:399 | the slider label shows the same multiplier as `v` followed by `x`, or `1/(2-v)` followed by `x` |
| `AudioControl.RestartsOnUpdate` | src/renderer/components/player/AudioControl.tsx:481-486 | a restart needs `startPlaying` and tick on, and a change of tick or mode; tick turning on while playing always restarts |
| `AudioControl.SceneFlips` | src/renderer/components/player/AudioControl.tsx:487-489 | a scene-path flip happens only in scene mode with tick on |
| `AudioControl.RestartArmsUnlessScene` | src/renderer/components/player/AudioControl.tsx:481-486 | a restart arms a timer iff the new mode is not scene; leaving scene mode with tick on always arms one |
| `AudioControl.IndexOfId` | src/renderer/components/player/AudioControl.tsx:614 | the result is the first index with the id, or -1 exactly when no track has it |
| `AudioControl.ApplySwitch` | src/renderer/components/player/AudioControl.tsx:661-676 | the key takes the checkbox value; checking it turns the other two off; unchecking changes only the key; other fields stay; "at most one switch on" is preserved, and holds after any check |
| `AudioControl.SetSwitch` | src/renderer/components/player/AudioControl.tsx:662-676 | only the first track with the id changes; an unknown id leaves the list as it was; "at most one switch on" for every track is preserved |
| `AudioControl.SpliceOne` | src/renderer/components/player/AudioControl.tsx:614 | `splice(start, 1)` removes the element at `start` when `0 <= start < length`; a negative start counts from the end, and below `-length` it removes the first element; a start past the end removes nothing |
| `AudioControl.DeleteById` | src/renderer/components/player/AudioControl.tsx:612-615 | a non-empty list loses exactly one track: the first with the id, in order; with no such id it loses the last track |
| `AudioControl.RemoveAtKeepsOthers` | src/renderer/components/player/AudioControl.tsx:614 | removing the element at one index keeps exactly the elements at the other indices |
| `AudioControl.DeleteRemovesExactlyThatTrack` | src/renderer/components/player/AudioControl.tsx:612-615 | with distinct ids and a present id, a track survives deletion iff it was there and has another id |
| `AudioControl.SeekBack` | src/renderer/components/player/AudioControl.tsx:724-730 | going back gives `max(0, pos - 10000)` |
| `AudioControl.SeekForward` | src/renderer/components/player/AudioControl.tsx:732-738 | going forward gives `min(duration, pos + 10000)` |
| `AudioControl.SeekStaysInTrack` | src/renderer/components/player/AudioControl.tsx:724-738 | from `0 <= pos <= duration` both buttons stay in `[0, duration]`, back never later and forward never earlier than `pos` |
| `AudioControl.Control.constructor` | src/renderer/components/player/AudioControl.tsx:93-104 | a new component has parity false, no stored timeout, no snapshot, and position and duration 0 |
| `AudioControl.Control.TickLoop` | src/renderer/components/player/AudioControl.tsx:569-601 | starting keeps the parity and any other call flips it once; the stored timeout becomes `NextTimer` of the track, or none |
| `AudioControl.Control.Fire` | src/renderer/components/player/AudioControl.tsx:596 | the stored timeout firing runs a non-starting step: one parity flip and the next timeout |
| `AudioControl.Control.DidMount` | src/renderer/components/player/AudioControl.tsx:472-477 | mount keeps the snapshot and starts the loop iff `startPlaying`, never flipping the parity |
| `AudioControl.Control.DidUpdate` | src/renderer/components/player/AudioControl.tsx:479-491 | the timeout is re-chosen iff `RestartsOnUpdate`, and otherwise kept; the parity flips iff `SceneFlips`, and such a flip arms no timer; the snapshot becomes the new track |
| `AudioControl.Control.WillUnmount` | src/renderer/components/player/AudioControl.tsx:493-497 | after unmount no timer is pending |
| `AudioControl.Control.OnAudioBoolInput` | src/renderer/components/player/AudioControl.tsx:661-677 | the list becomes `SetSwitch` of the old list; `found` tells whether a track had the id |
| `AudioControl.Control.OnDeleteAudioTrack` | src/renderer/components/player/AudioControl.tsx:612-616 | the list becomes `DeleteById` of the old list |
| `AudioControl.Control.OnChangePosition` | src/renderer/components/player/AudioControl.tsx:618-620 | the slider's value becomes the position |
| `AudioControl.Control.OnPlaying` | src/renderer/components/player/AudioControl.tsx:700-710 | a reported non-zero position or duration replaces the old one; a missing or zero one keeps it |
| `AudioControl.Control.OnBack` | src/renderer/components/player/AudioControl.tsx:724-730 | the position becomes `SeekBack` of the old one |
| `AudioControl.Control.OnForward` | src/renderer/components/player/AudioControl.tsx:732-738 | the position becomes `SeekForward` of the old one and the duration |
| `Js.Falsy` | src/renderer/components/player/AudioControl.tsx:590 | `!timeout` holds for NaN, never for an infinity, and for a finite number exactly when it is 0 |
| `Js.Decimal` | src/renderer/components/library/SourceListItem.tsx:215 | a number prints as a non-empty string of digits that starts with `0` only for zero, and whose digits denote exactly that number |
| `SourceListItem.Filter` | src/renderer/components/library/SourceListItem.tsx:302 | a global replace by the empty string keeps exactly the characters that pass, and none is added |
| `SourceListItem.FilterTwice` | src/renderer/components/library/SourceListItem.tsx:302 | two replaces in a row equal one replace by both tests |
| `SourceListItem.IsJsSpace` | src/renderer/components/library/SourceListItem.tsx:302 | `\s` matches space, tab, line feed and carriage return, and never a lower-case ASCII letter |
| `SourceListItem.GetSimpleTag` | src/renderer/components/library/SourceListItem.tsx:301-304 | the short tag is the tag's characters that are neither `a`-`z` nor white space, in their order; it is never longer than the tag |
| `SourceListItem.SimpleTagIdempotent` | src/renderer/components/library/SourceListItem.tsx:301-304 | the short tag of a short tag is itself |
| `SourceListItem.SimpleTagOfConcat` | src/renderer/components/library/SourceListItem.tsx:302 | the short tag of `a + b` is the short tag of `a` followed by that of `b`, so every kept character keeps its order |
| `SourceListItem.CachePath` | src/renderer/components/library/SourceListItem.tsx:311-317 | the path is the cache directory, followed by the file name for videos and playlists and by nothing otherwise |
| `SourceListItem.OpenDirectory` | src/renderer/components/library/SourceListItem.tsx:347-353 | on `win32` the path is opened unchanged; elsewhere its `urlToPath` form is opened |
| `SourceListItem.OnSourceIconClick` | src/renderer/components/library/SourceListItem.tsx:306-327 | exactly one modifier gives exactly one external open: the URL for Shift, the cache directory for Ctrl; no modifier saves the position, then plays, and then reports "isn't in your Library" as a third and last effect iff play throws, with nothing after the play otherwise; both modifiers do nothing |
| `SourceListItem.NotInLibraryMessage` | src/renderer/components/library/SourceListItem.tsx:324 | the message is `The source `, the URL, then ` isn't in your Library`, so the URL can be read back from it |
| `SourceListItem.CountChip` | src/renderer/components/library/SourceListItem.tsx:212-218 | shown iff the count is positive and the source is not a video; the label is the count, ending in `+` iff counting is incomplete |
| `SourceListItem.EnabledClips` | src/renderer/components/library/SourceListItem.tsx:222 | every clip whose id is not disabled is kept as often as it occurs and every disabled clip is dropped; all clips are kept when nothing is disabled; never more than the total |
| `SourceListItem.EnabledClipsConcat` | src/renderer/components/library/SourceListItem.tsx:222 | the enabled clips of `a + b` are those of `a` followed by those of `b`, so the kept clips stay in order |
| `SourceListItem.ClipChip` | src/renderer/components/library/SourceListItem.tsx:219-233 | shown iff a video has clips; in the library it reads the total; elsewhere it reads the number of clips that are not disabled, a slash, and the total, which is `total/total` when nothing is disabled |
| `SourceListItem.MatchesHttpScheme` | src/renderer/components/library/SourceListItem.tsx:270 | `/^https?:\/\//` matches only a URL of at least seven characters that starts with `http` |
| `SourceListItem.HttpSchemeIsPrefix` | src/renderer/components/library/SourceListItem.tsx:270 | the scheme test matches iff the URL starts with `http://` or `https://` |
| `SourceListItem.ShowsCleanCache` | src/renderer/components/library/SourceListItem.tsx:268-270 | never shown without caching or for local sources; always shown for other web sources; for videos and playlists shown iff caching is on and the URL is HTTP(S) |
| `SourceListItem.Layout` | src/renderer/components/library/SourceListItem.tsx:170-210 | the edit field shows iff `isEditing` is the source's id; the title and the secondary actions show exactly otherwise |
| `SourceListItem.Row.constructor` | src/renderer/components/library/SourceListItem.tsx:125-127 | the URL field starts as the source's URL |
| `SourceListItem.Row.OnStartEdit` | src/renderer/components/library/SourceListItem.tsx:334-336 | starting an edit reports the source's id |
| `SourceListItem.Row.OnEditSource` | src/renderer/components/library/SourceListItem.tsx:338-341 | typing replaces the field's text |
| `SourceListItem.Row.OnEndEdit` | src/renderer/components/library/SourceListItem.tsx:343-345 | ending the edit reports the field's current text |

## Left out

- Rendering: JSX, styles, Material-UI widgets, row colours and `Collapse` visibility are presentation only.
- Playback: `react-sound`, `SoundTick`, `onError`, `onPlay` and `onPause` drive or follow the player and hold no tick logic.
- `onFinishedPlaying` (AudioControl.tsx:687-698): this is where `stopAtEnd` (go back) and `nextSceneAtEnd` (play the next scene) take effect, and where the position, and with the next scene also the duration, is reset to 0. The navigation calls belong to the parent player, so the model has no end-of-track event, and its `position` never returns to 0 when a track ends.
- `OnPlaying`: the player reports only numbers, so its falsy test is modelled for 0 and a missing field; NaN reports are not modelled.
- Timers: a real timer facility is not modelled. The stored timeout is one optional delay. A second chain is not represented: tick toggled off and on before the old timeout fires starts a new chain while the old callback is still scheduled. The host's coercion of an infinite or negative delay is not modelled either.
- React batching: `setState` is modelled as an immediate update. `componentDidUpdate` is assumed to run only after mount, which React guarantees (`DidUpdate` requires a snapshot).
- The JSON snapshot `_audio` is taken as a lossless copy of the track fields the rules read.
- Scene paths: the `!==` identity test between the old and the new path arrays is the boolean `replaced`.
- BPM detection and tag reading (`onDetectBPM`, `onReadBPMTag`), including their promise callbacks and three-second status flashes: external audio-analysis and metadata libraries with asynchronous I/O.
- `onOpenFile` and `openExternalURL`: the operating system's file dialog and shell.
- `blurAudioIntKey` and `onAudioIntInput`: they depend on the input element's `min`/`max` attribute strings and on JavaScript's `Number()` coercion of form input, written through a generic string key.
- `onAudioSliderChange`: a plain write of the slider's numeric value through a generic string key, with no decision logic.
- `onAudioInput`: a plain write of the raw `input.value` string through a generic string key, with no decision logic.
- `changeKey` and `update` hand the edited list to the parent. The model's `audios` field is the list they hand over.
- `onClip` (save the position, then call `onClip`) has no decision logic.
- Integer settings: the fields `tickMinDelay`, `tickMaxDelay`, `tickDelay` and `tickSinRate` are taken as integers. In the source they are JavaScript numbers: `Number(input.value)` can store a fraction in them, and a cleared field stores `''` (AudioControl.tsx:649). The formulas at AudioControl.tsx:577-584 coerce `''` to 0 in subtraction. A cleared `tickMinDelay` added last turns the delay into a numeric string, and `setTimeout` coerces that string back to the same number. So an integer models a cleared field faithfully; only fractions fall outside the model.
- RandomDelay: its bounds are stated only for integer settings. With a fractional maximum the floor formula can exceed it: min 0, max 0.5 and a draw of 0.9 give `floor(0.9 * 1.5) + 0 = 1`.
- SinDelay: its bounds are stated only for integer settings, for the same reason as `RandomDelay`.
- NextTimer: its random and sine bounds hold only for integer settings.
- Floating point: positions, durations and BPM are reals, and delays are reals built from integer settings. IEEE rounding, negative zero and overflow are not modelled. Counts, clip totals and multipliers are integers, so number-to-string is modelled only for non-negative integers.
- Source types: `ST` values other than local, video and playlist are merged into one `Other` type, because the row treats them all the same.
- `SimpleSliderInput` and the static string table `en.ts` pass values through and hold no logic.

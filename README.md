# Audio player transport, modelled in Dafny

The page script `script.js` of this audio effects player keeps its playback state in one
object, `audioApp`: whether an audio context exists, whether a buffer and a source node
exist, the flags `isPlaying`, `isLooping` and `isSeeking`, and two clock figures,
`startTime` and `elapsedTime`. Its handlers (initialise, play, pause, stop, the source's
end-of-buffer callback, the per-frame position update and the play and loop buttons)
change those fields in place and append lines to a global log. This project models that
state machine, the log and the `formatTime` helper, and proves what they guarantee.

- `Transport.dfy` (module `Transport`): the fields as a `State` value and each handler as a
  function to a `Step` (next state and logged messages). The audio clock reading
  `context.currentTime` is a parameter `now`; time is an exact `real`. The position the
  clock implies is `Position(s, now) = now - startTime`.
- `Player.dfy` (module `Player`): class `AudioApp` with the same fields plus `logs`, whose
  methods update the fields step by step as the script does, and are proved to end in the
  state and the log the `Transport` functions describe.
- `Sessions.dfy` (module `Sessions`): arbitrary runs of clicks, frames, end-of-buffer events
  and page writes of `buffer` and `isSeeking` under a clock that never runs backwards; the
  stored position stays non-negative and never ahead of the clock.
- `TimeFormat.dfy` (module `TimeFormat`): `formatTime` with JavaScript's `Math.floor`, its
  truncating `%` and its integer-to-text conversion written out, and a parser that reads
  the `m:ss` text back.
- `Optional.dfy`: the `Option` type used for the nullable context.

Behaviour of the code as written that the proofs bring out:

- Play sets `startTime = now - elapsedTime`, so the position at that instant is the stored
  one; pause stores `now - startTime`. Play then pause then play, with nothing in between,
  resumes exactly where the pause left off (`ResumeAfterPause`). In the page, though, the
  pause's `source.stop()` schedules the `ended` event, which with looping off pauses again
  and stores the position at the event's clock reading; a play after that resumes from
  there (`EndedAfterPause`).
- `pauseAudio` has no `isPlaying` check and the source is never reset to `null`, so a pause
  while already paused recomputes the position from the old `startTime`.
- Stop does not read the clock: it keeps the last stored position (from the last pause or
  frame update). `source.stop()` schedules the source's `ended` event and the callback is
  never removed; after a stop that event pauses and recomputes the position
  (`EndedAfterStop`); after a pause from the play button with looping on it restarts
  playback from 0 (`PauseWhileLoopingRestarts`).
- For a negative input `formatTime` gives text such as `-1:0-30`; `Sessions` shows the
  stored position is never negative, so the displayed time always has the `m:ss` shape.

## Model

| member | source | states |
|---|---|---|
| `TimeFormat.Digits` | script.js:84 | the decimal text of a number is non-empty, all digits, one character exactly below 10, without a leading zero |
| `TimeFormat.ValueOfDigits` | script.js:84 | reading the decimal text of `n` back gives `n` |
| `TimeFormat.FormatTimeShape` | script.js:81-85 | for seconds >= 0 the text is `floor(s/60)` in decimal, a colon, and `floor(s) - 60*minutes` (in 0..59) in exactly two digits |
| `TimeFormat.FormatTimeRoundTrip` | script.js:81-85 | for seconds >= 0, parsing `m:ss` back gives `floor(seconds)`: only the fraction of a second is lost |
| `TimeFormat.FormatTimeShortExample` | script.js:84 | 5 seconds render as `0:05` (leading zero below 10) |
| `TimeFormat.FormatTimeMinuteExample` | script.js:82-83 | 75.5 seconds render as `1:15` |
| `TimeFormat.FormatTimeNegativeExample` | script.js:82-84 | -30 seconds render as `-1:0-30` (floored minutes, truncated remainder) |
| `Transport.Initialize` | script.js:32-50 | afterwards a context exists and no other field differs; with no context it makes one with gain 0.5 and a 5 s delay line at 0.5 s; with one it changes nothing; one log message either way |
| `Transport.InitializeIdempotent` | script.js:32-49 | a second initialisation changes no field and only logs "Audio context already initialized." |
| `Transport.Tick` | script.js:70-77 | when playing and not seeking the stored position becomes the clock-derived one and nothing else changes; otherwise nothing changes and nothing is logged |
| `Transport.Play` | script.js:88-113 | needs a context, and a buffer unless seeking; a source exists and audio plays; the stored position is unchanged and the clock-derived position at that instant equals it; looping, context, buffer and seeking are kept |
| `Transport.Pause` | script.js:116-126 | with a source, playing stops and the stored position becomes the clock-derived one, start time kept; without a source nothing changes and nothing is logged |
| `Transport.Stop` | script.js:128-141 | with a source, playing and looping become false and nothing else changes (the position freezes); without one the state is unchanged and "No audio is currently playing to stop." is logged |
| `Transport.Ended` | script.js:101-110 | looping: exactly the state of playing from position 0 (start time `now`, playing, looping kept); otherwise exactly the pause's state and messages, then "Audio playback ended." |
| `Transport.ClickPlay` | script.js:145-159 | without buffer and context the state is unchanged and one refusal is logged; otherwise play when not playing, pause when playing |
| `Transport.ClickLoop` | script.js:161-169 | without buffer and context the state is unchanged and one refusal is logged; otherwise only `isLooping` changes, to its negation, and the new value is logged |
| `Transport.PauseAfterPlay` | script.js:88-120 | play at t0 then pause at t1 stores the old position plus t1 - t0 and stops playing |
| `Transport.ResumeAfterPause` | script.js:88-120 | play, pause, play: the resumed clock-derived position equals the position at the pause |
| `Transport.PlayAfterStop` | script.js:97-132 | stop clears looping and a later play resumes from the stored position, not from 0 |
| `Transport.ClickLoopTwice` | script.js:161-169 | two loop clicks restore the state, each logging one line |
| `Transport.PauseWhileLoopingRestarts` | script.js:101-118 | with looping on, a pause from the play button followed by the source's `ended` event restarts playback at position 0 |
| `Transport.LoopingEndWhileSeeking` | script.js:101-113 | a looping end-of-buffer event while seeking with no buffer completes: playing from position 0, logging only "Audio started from position: 0" and "Looping audio." |
| `Transport.EndedAfterPause` | script.js:101-120 | with looping off, the `ended` event after a pause from the play button stores the position at the event's clock reading, and a later play resumes from that position |
| `Transport.EndedAfterStop` | script.js:101-132 | the `ended` event after a stop pauses, leaves looping off and sets the position from the start time at the event's clock reading |
| `Transport.SessionExample` | script.js:88-141 | play 3 s, pause (3), play 1 s, stop (still 3), ended event (4), play again resumes at 4 |
| `Player.Stamped` | script.js:64-65 | every message of a handler becomes one log entry with that handler's timestamp, in order |
| `Player.AudioApp.constructor` | script.js:19-30 | the object starts with no context, buffer or source, not playing, looping or seeking, times 0, empty log |
| `Player.AudioApp.Log` | script.js:64-67 | appends exactly one entry and changes nothing else |
| `Player.AudioApp.InitializeAudioContext` | script.js:32-50 | fields end as `Initialize` says; its messages are appended to the log |
| `Player.AudioApp.UpdateSeekBar` | script.js:70-78 | fields end as `Tick` says; its messages are appended |
| `Player.AudioApp.PlayAudio` | script.js:88-114 | fields end as `Play` says, including the nested frame update; its messages are appended |
| `Player.AudioApp.PauseAudio` | script.js:116-126 | fields end as `Pause` says; its messages are appended |
| `Player.AudioApp.StopAudio` | script.js:128-141 | fields end as `Stop` says; its message is appended |
| `Player.AudioApp.OnEnded` | script.js:101-110 | fields end as `Ended` says; its messages are appended |
| `Player.AudioApp.PlayClicked` | script.js:145-159 | fields end as `ClickPlay` says; its messages are appended |
| `Player.AudioApp.StopClicked` | script.js:160 | fields end as `Stop` says; its message is appended |
| `Player.AudioApp.LoopClicked` | script.js:161-169 | fields end as `ClickLoop` says; its message is appended |
| `Player.RefusedClicks` | script.js:145-169 | without buffer or context, a play click and a loop click change no transport field and each adds one entry after the untouched earlier log |
| `Sessions.StepSound` | script.js:88-141 | any handled event at a clock reading no earlier than the last keeps the state consistent, the position non-negative and not ahead of the clock |
| `Sessions.RunSound` | script.js:19-169 | every run of events under a clock that never runs backwards keeps that invariant |
| `Sessions.SeekingEventsHandled` | script.js:70-113 | while seeking, the end-of-buffer event and a frame update are handled in every sound state with a source, with or without a buffer |
| `Sessions.InitialSound` | script.js:19-30 | the object as declared satisfies the invariant |
| `Sessions.ReachedTimeDisplays` | script.js:70-85 | in every reachable state the stored position is non-negative and its `m:ss` text reads back as its whole seconds |

## Left out

- Web Audio node creation and wiring (`createGain`, `createDelay`, `createConvolver`, the `connect` chain, `source.start` and `source.stop`, `source.loop`): calls into the browser's audio engine. The source node is a flag `hasSource`; the context is kept with the constants it is set up with.
- `loadReverbImpulse`: a network fetch and asynchronous decoding; its two possible log lines are not modelled.
- Page effects: button borders, `seekBar.value`, the time display text and `console.log`.
- The rescheduling of `updateSeekBar` on the next animation frame: each frame update is one `Tick` the caller runs.
- The log export button (JSON text, a blob, a download link): browser APIs only.
- Timestamps (`new Date().toISOString()`): one opaque string per handler, shared by all the entries that handler writes.
- The text JavaScript makes of a number in a log message: a `Reading` keeps the number itself; the page value appended by the second pause message (`PageValue`) is not modelled.
- `TimeFormat.IntText`: numbers of 10^21 or more, which JavaScript writes with an exponent, are written out in full.
- Floating point: times are exact reals, so the frame update nested in play returns exactly the stored position.
- Calls that would throw in the script are preconditions: play without a context, and play, a frame update or a looping end-of-buffer event without a buffer while not seeking (the nested frame update reads `buffer.duration`); in `Sessions` a run meeting one has no outcome.
- `buffer` and `isSeeking` have no writer in the script: they are plain fields that a caller may set (events `BufferSet` and `SeekingSet` in `Sessions`). Loading, seeking, dry/wet routing and effect parameter setters have no code in the script and are not modelled.
- Removing the pending end-of-buffer callback on pause or stop: the code never does it (pause acts whenever a source exists, stop does not read the clock), so the model does not either.

/**
 * The transport state machine of the `audioApp` object as pure step functions.
 * Each handler of the page script maps the current `State` and the audio clock
 * reading `now` (the context's `currentTime`) to a `Step`: the next state and the
 * messages the handler writes to the log, in order. The class in module Player
 * runs the same handlers in place and is proved against these functions.
 */
module Transport {
  import opened Optional

  /** The audio stages made with the context: master gain, delay line (capacity, delay time). */
  datatype Graph = Graph(gain: real, maxDelay: real, delayTime: real)

  /** Volume 0.5, a delay line of 5 seconds capacity set to 500 ms. */
  const InitialGraph := Graph(0.5, 5.0, 0.5)

  /**
   * The fields of `audioApp`. `hasSource` stands for the buffer source node;
   * `hasBuffer` and `isSeeking` are never written by the handlers.
   */
  datatype State = State(
    context: Option<Graph>,
    hasBuffer: bool,
    hasSource: bool,
    isPlaying: bool,
    startTime: real,
    elapsedTime: real,
    isSeeking: bool,
    isLooping: bool)

  /** The object as the script declares it: no context, nothing playing, times zero. */
  const Initial := State(None, false, false, false, 0.0, 0.0, false, false)

  /**
   * A log message. `Reading` is a text followed by a number rendered by JavaScript;
   * `PageValue` is a text followed by a value read back from the page.
   */
  datatype Message =
    | Text(text: string)
    | Reading(text: string, value: real)
    | PageValue(text: string)

  /** The state after a handler and the messages it logged. */
  datatype Step = Step(next: State, notes: seq<Message>)

  /** The playback position the clock implies: time since position 0 would have started. */
  function Position(s: State, now: real): real {
    now - s.startTime
  }

  /** Both a buffer and a context exist: what the play and loop buttons check first. */
  predicate Ready(s: State) {
    s.hasBuffer && s.context.Some?
  }

  /** What holds between handlers: a playing source exists, and a source needs a context. */
  predicate Consistent(s: State) {
    (s.isPlaying ==> s.hasSource) && (s.hasSource ==> s.context.Some?)
  }

  /** The fields that only `Initialize` (the context) or the page (buffer, seeking) change. */
  predicate SameSetup(a: State, b: State) {
    a.context == b.context && a.hasBuffer == b.hasBuffer && a.isSeeking == b.isSeeking
  }

  /** `initializeAudioContext`: makes the context and its stages only when none exists. */
  function Initialize(s: State): (r: Step)
    ensures r.next.context.Some? && r.next.(context := s.context) == s
    ensures s.context.None? ==>
              r.next.context == Some(InitialGraph) &&
              r.notes == [Text("Audio context initialized with delay and reverb.")]
    ensures s.context.Some? ==> r.next == s && r.notes == [Text("Audio context already initialized.")]
  {
    if s.context.None? then
      Step(s.(context := Some(InitialGraph)), [Text("Audio context initialized with delay and reverb.")])
    else
      Step(s, [Text("Audio context already initialized.")])
  }

  /** The position update of `updateSeekBar`, for one animation frame. */
  function Tick(s: State, now: real): (r: Step)
    requires s.isPlaying && !s.isSeeking ==> Ready(s)
    ensures s.isPlaying && !s.isSeeking ==>
              r.next.elapsedTime == Position(s, now) &&
              r.next == s.(elapsedTime := r.next.elapsedTime) &&
              r.notes == [Reading("Seek bar updated: ", Position(s, now))]
    ensures !(s.isPlaying && !s.isSeeking) ==> r.next == s && r.notes == []
  {
    if s.isPlaying && !s.isSeeking then
      var e := now - s.startTime;
      Step(s.(elapsedTime := e), [Reading("Seek bar updated: ", e)])
    else
      Step(s, [])
  }

  /**
   * `playAudio`: a new source starts at the stored position, the start time is set so
   * that the clock-derived position is that position, and the nested frame update runs.
   */
  function Play(s: State, now: real): (r: Step)
    requires s.context.Some? && (!s.isSeeking ==> s.hasBuffer)
    ensures r.next.hasSource && r.next.isPlaying
    ensures r.next.elapsedTime == s.elapsedTime
    ensures Position(r.next, now) == s.elapsedTime
    ensures SameSetup(s, r.next) && r.next.isLooping == s.isLooping
    ensures r.notes == (if s.isSeeking then [] else [Reading("Seek bar updated: ", s.elapsedTime)])
                       + [Reading("Audio started from position: ", s.elapsedTime)]
  {
    var started := s.(hasSource := true, startTime := now - s.elapsedTime, isPlaying := true);
    var t := Tick(started, now);
    Step(t.next, t.notes + [Reading("Audio started from position: ", t.next.elapsedTime)])
  }

  /**
   * `pauseAudio`: with a source, playback stops and the clock-derived position is saved.
   * There is no check that audio is playing; without a source nothing happens.
   */
  function Pause(s: State, now: real): (r: Step)
    ensures s.hasSource ==>
              !r.next.isPlaying && r.next.elapsedTime == Position(s, now) &&
              r.next.startTime == s.startTime && r.next.hasSource &&
              SameSetup(s, r.next) && r.next.isLooping == s.isLooping &&
              r.notes == [Reading("Audio paused at position: ", Position(s, now)),
                          PageValue("Seek bar position on pause: ")]
    ensures !s.hasSource ==> r == Step(s, [])
  {
    if s.hasSource then
      var e := now - s.startTime;
      Step(s.(isPlaying := false, elapsedTime := e),
           [Reading("Audio paused at position: ", e), PageValue("Seek bar position on pause: ")])
    else
      Step(s, [])
  }

  /** `stopAudio`: with a source, playback and looping stop and the position is kept as it is. */
  function Stop(s: State): (r: Step)
    ensures s.hasSource ==>
              !r.next.isPlaying && !r.next.isLooping &&
              r.next.(isPlaying := s.isPlaying, isLooping := s.isLooping) == s &&
              r.notes == [Reading("Audio stopped at position: ", s.elapsedTime)]
    ensures !s.hasSource ==> r == Step(s, [Text("No audio is currently playing to stop.")])
  {
    if s.hasSource then
      Step(s.(isPlaying := false, isLooping := false),
           [Reading("Audio stopped at position: ", s.elapsedTime)])
    else
      Step(s, [Text("No audio is currently playing to stop.")])
  }

  /**
   * The source's `onended` callback: when looping, the position goes back to zero and
   * playback restarts; otherwise it acts as `pauseAudio`.
   */
  function Ended(s: State, now: real): (r: Step)
    requires s.hasSource && s.context.Some? && (s.isLooping && !s.isSeeking ==> s.hasBuffer)
    ensures s.isLooping ==>
              r.next == Play(s.(elapsedTime := 0.0), now).next &&
              r.next.isPlaying && r.next.elapsedTime == 0.0 && r.next.startTime == now &&
              r.next.isLooping && SameSetup(s, r.next) &&
              r.notes == Play(s.(elapsedTime := 0.0), now).notes + [Text("Looping audio.")]
    ensures !s.isLooping ==>
              r.next == Pause(s, now).next &&
              r.notes == Pause(s, now).notes + [Text("Audio playback ended.")]
  {
    if s.isLooping then
      var p := Play(s.(elapsedTime := 0.0), now);
      Step(p.next, p.notes + [Text("Looping audio.")])
    else
      var p := Pause(s, now);
      Step(p.next, p.notes + [Text("Audio playback ended.")])
  }

  /** The play button: refused without buffer and context, otherwise play or pause. */
  function ClickPlay(s: State, now: real): (r: Step)
    ensures !Ready(s) ==> r == Step(s, [Text("No audio buffer or audio context available.")])
    ensures Ready(s) && !s.isPlaying ==>
              r.next == Play(s, now).next &&
              r.notes == Play(s, now).notes + [Text("Playing audio.")]
    ensures Ready(s) && s.isPlaying ==>
              r.next == Pause(s, now).next &&
              r.notes == Pause(s, now).notes + [Text("Pausing audio.")]
  {
    if Ready(s) then
      if !s.isPlaying then
        var p := Play(s, now);
        Step(p.next, p.notes + [Text("Playing audio.")])
      else
        var p := Pause(s, now);
        Step(p.next, p.notes + [Text("Pausing audio.")])
    else
      Step(s, [Text("No audio buffer or audio context available.")])
  }

  /** JavaScript's rendering of a boolean. */
  function BoolText(b: bool): string {
    if b then "true" else "false"
  }

  /** The loop button: refused without buffer and context, otherwise looping flips. */
  function ClickLoop(s: State): (r: Step)
    ensures !Ready(s) ==> r == Step(s, [Text("No audio buffer or context to loop.")])
    ensures Ready(s) ==>
              r.next.isLooping != s.isLooping && r.next.(isLooping := s.isLooping) == s &&
              r.notes == [Text("Looping set to: " + BoolText(r.next.isLooping))]
  {
    if Ready(s) then
      var flipped := s.(isLooping := !s.isLooping);
      Step(flipped, [Text("Looping set to: " + BoolText(flipped.isLooping))])
    else
      Step(s, [Text("No audio buffer or context to loop.")])
  }

  // ---------------------------------------------------------------------
  // Properties that relate several handlers
  // ---------------------------------------------------------------------

  /** A second initialisation changes nothing and only logs the notice. */
  lemma InitializeIdempotent(s: State)
    ensures Initialize(Initialize(s).next).next == Initialize(s).next
    ensures Initialize(Initialize(s).next).notes == [Text("Audio context already initialized.")]
  {
  }

  /** Play at `t0` then pause at `t1`: the saved position grew by exactly the time played. */
  lemma PauseAfterPlay(s: State, t0: real, t1: real)
    requires Ready(s)
    ensures var p := Pause(Play(s, t0).next, t1).next;
            !p.isPlaying && p.elapsedTime == s.elapsedTime + (t1 - t0)
  {
  }

  /** Play, pause and play again: the resumed position is the position the pause saved. */
  lemma ResumeAfterPause(s: State, t0: real, t1: real, t2: real)
    requires Ready(s)
    ensures var paused := Pause(Play(s, t0).next, t1).next;
            var resumed := Play(paused, t2).next;
            Position(resumed, t2) == Position(Play(s, t0).next, t1) == s.elapsedTime + (t1 - t0)
  {
  }

  /** Stop freezes rather than rewinds: playing after a stop resumes at the stored position. */
  lemma PlayAfterStop(s: State, now: real)
    requires Ready(s) && s.hasSource
    ensures var stopped := Stop(s).next;
            !stopped.isLooping && Position(Play(stopped, now).next, now) == s.elapsedTime
  {
  }

  /** The loop button pressed twice restores the state; the log gets two lines. */
  lemma ClickLoopTwice(s: State)
    ensures ClickLoop(ClickLoop(s).next).next == s
    ensures |ClickLoop(s).notes| == 1 && |ClickLoop(ClickLoop(s).next).notes| == 1
  {
  }

  /**
   * `source.stop()` in `pauseAudio` schedules the `ended` event and the callback is never
   * removed: with looping on, a pause from the play button is followed by a restart at 0.
   */
  lemma PauseWhileLoopingRestarts(s: State, t1: real, t2: real)
    requires Ready(s) && s.hasSource && s.isPlaying && s.isLooping
    ensures var paused := ClickPlay(s, t1).next;
            !paused.isPlaying &&
            var after := Ended(paused, t2).next;
            after.isPlaying && after.elapsedTime == 0.0 && Position(after, t2) == 0.0
  {
  }

  /**
   * While the page is seeking, the frame update nested in play is skipped, so a looping
   * `ended` event needs no buffer: it restarts at position 0 and logs two lines.
   */
  lemma LoopingEndWhileSeeking(s: State, now: real)
    requires s.hasSource && s.context.Some? && s.isLooping && s.isSeeking && !s.hasBuffer
    ensures var r := Ended(s, now);
            r.next.isPlaying && r.next.isLooping && !r.next.hasBuffer &&
            r.next.elapsedTime == 0.0 && Position(r.next, now) == 0.0 &&
            r.notes == [Reading("Audio started from position: ", 0.0), Text("Looping audio.")]
  {
  }

  /**
   * With looping off, the `ended` event that a pause from the play button schedules runs
   * `pauseAudio` again: the stored position becomes the one at the event's clock reading,
   * and a later play resumes from there rather than from the position at the click.
   */
  lemma EndedAfterPause(s: State, t1: real, t2: real, t3: real)
    requires Ready(s) && s.hasSource && s.isPlaying && !s.isLooping
    ensures var paused := ClickPlay(s, t1).next;
            paused.elapsedTime == Position(s, t1) &&
            var after := Ended(paused, t2).next;
            !after.isPlaying && after.elapsedTime == Position(s, t2) &&
            Position(Play(after, t3).next, t3) == Position(s, t2)
  {
  }

  /**
   * Stop clears looping before the `ended` event that `source.stop()` schedules, so that event
   * pauses: the position is then recomputed from the start time, at the event's clock reading.
   */
  lemma EndedAfterStop(s: State, t1: real, t2: real)
    requires s.hasSource && s.context.Some?
    ensures var stopped := Stop(s).next;
            var after := Ended(stopped, t2).next;
            !after.isPlaying && !after.isLooping && after.elapsedTime == Position(s, t2)
  {
  }

  /**
   * A ten-second session: play at 0 for 3 s and pause; play at 10, stop at 11 with no frame
   * update in between; the `ended` event at 11 gives position 4; playing again resumes at 4.
   */
  lemma SessionExample(s: State)
    requires Ready(s) && !s.hasSource && !s.isPlaying && s.elapsedTime == 0.0 && !s.isLooping && !s.isSeeking
    ensures var a := ClickPlay(s, 0.0).next;
            var b := ClickPlay(a, 3.0).next;
            b.elapsedTime == 3.0 &&
            var c := ClickPlay(b, 10.0).next;
            var d := Stop(c).next;
            d.elapsedTime == 3.0 &&
            var e := Ended(d, 11.0).next;
            e.elapsedTime == 4.0 &&
            Position(ClickPlay(e, 20.0).next, 20.0) == 4.0
  {
    var a := ClickPlay(s, 0.0).next;
    assert a == Play(s, 0.0).next;
    assert a.isPlaying && a.startTime == 0.0 && Ready(a);
    var b := ClickPlay(a, 3.0).next;
    assert b == Pause(a, 3.0).next;
    assert !b.isPlaying && b.elapsedTime == 3.0 && b.startTime == 0.0 && Ready(b);
    var c := ClickPlay(b, 10.0).next;
    assert c.isPlaying && c.startTime == 7.0 && c.elapsedTime == 3.0;
    var d := Stop(c).next;
    assert d.startTime == 7.0 && !d.isLooping && d.hasSource;
    var e := Ended(d, 11.0).next;
    assert e.elapsedTime == 4.0 && Ready(e) && !e.isPlaying;
  }
}

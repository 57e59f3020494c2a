/**
 * Whole sessions: any order of button clicks, frame updates, end-of-buffer events
 * and page-side assignments of `buffer` and `isSeeking`, each at a reading of the
 * audio clock. The audio clock never runs backwards; under that assumption the
 * stored position never goes negative and never runs ahead of the clock.
 */
module Sessions {
  import opened Optional
  import opened Transport
  import TimeFormat

  /** What can happen to the player. `BufferSet` and `SeekingSet` are the page writing those fields. */
  datatype Event =
    | InitClick
    | PlayClick
    | StopClick
    | LoopClick
    | SourceEnded
    | Frame
    | BufferSet(present: bool)
    | SeekingSet(on: bool)

  /** An event at a reading of the audio clock. */
  datatype Timed = At(event: Event, now: real)

  /** The event can be handled here without the script failing on a missing object. */
  predicate Enabled(s: State, e: Event) {
    match e
    case SourceEnded => s.hasSource && s.context.Some? && (s.isLooping && !s.isSeeking ==> s.hasBuffer)
    case Frame => s.isPlaying && !s.isSeeking ==> Ready(s)
    case _ => true
  }

  /** The state after one event. */
  function Apply(s: State, e: Event, now: real): State
    requires Enabled(s, e)
  {
    match e
    case InitClick => Initialize(s).next
    case PlayClick => ClickPlay(s, now).next
    case StopClick => Stop(s).next
    case LoopClick => ClickLoop(s).next
    case SourceEnded => Ended(s, now).next
    case Frame => Tick(s, now).next
    case BufferSet(present) => s.(hasBuffer := present)
    case SeekingSet(on) => s.(isSeeking := on)
  }

  /** The state after a run of events, or `None` if some event could not be handled. */
  function Run(s: State, events: seq<Timed>): Option<State>
    decreases |events|
  {
    if events == [] then Some(s)
    else if !Enabled(s, events[0].event) then None
    else Run(Apply(s, events[0].event, events[0].now), events[1..])
  }

  /** The clock readings of the run never go below `from` and never decrease. */
  predicate Clocked(events: seq<Timed>, from: real) {
    (forall i :: 0 <= i < |events| ==> from <= events[i].now) &&
    (forall i, j :: 0 <= i < j < |events| ==> events[i].now <= events[j].now)
  }

  /** The clock reading at the end of a run that started at `from`. */
  function LastTime(events: seq<Timed>, from: real): real {
    if events == [] then from else events[|events| - 1].now
  }

  /**
   * What holds at clock reading `now`: the object is consistent, the stored position is
   * not negative, the start time is not in the future, and while playing the stored
   * position is at most the clock-derived one.
   */
  predicate Sound(s: State, now: real) {
    Consistent(s) &&
    s.elapsedTime >= 0.0 &&
    (s.hasSource ==> s.startTime <= now) &&
    (s.isPlaying ==> s.elapsedTime <= Position(s, now))
  }

  /** One event at a clock reading no earlier than the last keeps the state sound. */
  lemma StepSound(s: State, e: Event, before: real, now: real)
    requires Sound(s, before) && before <= now && Enabled(s, e)
    ensures Sound(Apply(s, e, now), now)
  {
  }

  /** Every run under a clock that never runs backwards keeps the state sound. */
  lemma {:induction false} RunSound(s: State, from: real, events: seq<Timed>)
    requires Sound(s, from) && Clocked(events, from)
    ensures Run(s, events).Some? ==> Sound(Run(s, events).value, LastTime(events, from))
    decreases |events|
  {
    if events != [] && Enabled(s, events[0].event) {
      var e := events[0];
      StepSound(s, e.event, from, e.now);
      var rest := events[1..];
      assert Clocked(rest, e.now) by {
        forall i | 0 <= i < |rest|
          ensures e.now <= rest[i].now
        {
          assert rest[i] == events[i + 1];
        }
      }
      RunSound(Apply(s, e.event, e.now), e.now, rest);
      if rest != [] {
        assert LastTime(rest, e.now) == LastTime(events, from);
      }
    }
  }

  /** The object as the script declares it is sound at any clock reading. */
  lemma InitialSound(now: real)
    ensures Sound(Initial, now)
  {
  }

  /**
   * From the declared object, the stored position of every reachable state is not
   * negative, so its `m:ss` text always has a two-digit seconds field and reads back
   * as the whole seconds played.
   */
  lemma ReachedTimeDisplays(events: seq<Timed>, from: real)
    requires Clocked(events, from) && Run(Initial, events).Some?
    ensures var s := Run(Initial, events).value;
            s.elapsedTime >= 0.0 &&
            TimeFormat.ParseTime(TimeFormat.FormatTime(s.elapsedTime)) == Some(s.elapsedTime.Floor)
  {
    InitialSound(from);
    RunSound(Initial, from, events);
    TimeFormat.FormatTimeRoundTrip(Run(Initial, events).value.elapsedTime);
  }

  /**
   * The end-of-buffer event of an existing source is handled in every sound state where
   * the page is seeking, buffer or not; so is a frame update.
   */
  lemma SeekingEventsHandled(s: State, now: real)
    requires Sound(s, now) && s.hasSource && s.isSeeking
    ensures Enabled(s, SourceEnded) && Enabled(s, Frame)
  {
  }
}

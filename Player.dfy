/**
 * The `audioApp` object and the page's log as a class whose handlers update the
 * fields in place. Every handler is proved to leave the fields as the matching
 * step function of module Transport says, and to append exactly that step's
 * messages to the log, all with the timestamp the caller passes.
 */
module Player {
  import opened Optional
  import opened Transport

  /** One log line: an ISO timestamp (opaque here) and the message. */
  datatype LogEntry = LogEntry(timestamp: string, message: Message)

  /** The messages of one handler, each stamped with the handler's timestamp. */
  function Stamped(stamp: string, notes: seq<Message>): (r: seq<LogEntry>)
    ensures |r| == |notes|
    ensures forall i :: 0 <= i < |notes| ==> r[i] == LogEntry(stamp, notes[i])
  {
    if notes == [] then [] else [LogEntry(stamp, notes[0])] + Stamped(stamp, notes[1..])
  }

  class AudioApp {
    var context: Option<Graph>
    var hasBuffer: bool
    var hasSource: bool
    var isPlaying: bool
    var startTime: real
    var elapsedTime: real
    var isSeeking: bool
    var isLooping: bool
    var logs: seq<LogEntry>

    /** The transport fields as a value. */
    function Snapshot(): State
      reads this
    {
      Transport.State(context, hasBuffer, hasSource, isPlaying, startTime, elapsedTime, isSeeking, isLooping)
    }

    ghost predicate Valid()
      reads this
    {
      Consistent(Snapshot())
    }

    constructor ()
      ensures Valid() && Snapshot() == Initial && logs == []
    {
      context, hasBuffer, hasSource, isPlaying := None, false, false, false;
      startTime, elapsedTime, isSeeking, isLooping := 0.0, 0.0, false, false;
      logs := [];
    }

    /** `log`: appends one entry and touches nothing else. */
    method Log(stamp: string, message: Message)
      modifies this`logs
      ensures logs == old(logs) + [LogEntry(stamp, message)]
    {
      logs := logs + [LogEntry(stamp, message)];
    }

    method InitializeAudioContext(stamp: string)
      requires Valid()
      modifies this
      ensures Valid()
      ensures Snapshot() == Initialize(old(Snapshot())).next
      ensures logs == old(logs) + Stamped(stamp, Initialize(old(Snapshot())).notes)
    {
      if context.None? {
        context := Some(InitialGraph);
        Log(stamp, Text("Audio context initialized with delay and reverb."));
      } else {
        Log(stamp, Text("Audio context already initialized."));
      }
    }

    /** One call of `updateSeekBar`, without its rescheduling on the next frame. */
    method UpdateSeekBar(now: real, stamp: string)
      requires Valid()
      requires isPlaying && !isSeeking ==> Ready(Snapshot())
      modifies this
      ensures Valid()
      ensures Snapshot() == Tick(old(Snapshot()), now).next
      ensures logs == old(logs) + Stamped(stamp, Tick(old(Snapshot()), now).notes)
    {
      if isPlaying && !isSeeking {
        elapsedTime := now - startTime;
        Log(stamp, Reading("Seek bar updated: ", elapsedTime));
      }
    }

    method PlayAudio(now: real, stamp: string)
      requires Valid() && context.Some? && (!isSeeking ==> hasBuffer)
      modifies this
      ensures Valid()
      ensures Snapshot() == Play(old(Snapshot()), now).next
      ensures logs == old(logs) + Stamped(stamp, Play(old(Snapshot()), now).notes)
    {
      ghost var s0 := Snapshot();
      ghost var logs0 := logs;
      hasSource := true;
      startTime := now - elapsedTime;
      isPlaying := true;
      UpdateSeekBar(now, stamp);
      Log(stamp, Reading("Audio started from position: ", elapsedTime));
      assert Play(s0, now).notes == Tick(s0.(hasSource := true, startTime := now - s0.elapsedTime, isPlaying := true), now).notes
                                    + [Reading("Audio started from position: ", s0.elapsedTime)];
      StampedAppend(stamp, Tick(s0.(hasSource := true, startTime := now - s0.elapsedTime, isPlaying := true), now).notes,
                    [Reading("Audio started from position: ", s0.elapsedTime)]);
    }

    method PauseAudio(now: real, stamp: string)
      requires Valid()
      modifies this
      ensures Valid()
      ensures Snapshot() == Pause(old(Snapshot()), now).next
      ensures logs == old(logs) + Stamped(stamp, Pause(old(Snapshot()), now).notes)
    {
      if hasSource {
        isPlaying := false;
        elapsedTime := now - startTime;
        Log(stamp, Reading("Audio paused at position: ", elapsedTime));
        Log(stamp, PageValue("Seek bar position on pause: "));
      }
    }

    method StopAudio(stamp: string)
      requires Valid()
      modifies this
      ensures Valid()
      ensures Snapshot() == Stop(old(Snapshot())).next
      ensures logs == old(logs) + Stamped(stamp, Stop(old(Snapshot())).notes)
    {
      if hasSource {
        isPlaying := false;
        isLooping := false;
        Log(stamp, Reading("Audio stopped at position: ", elapsedTime));
      } else {
        Log(stamp, Text("No audio is currently playing to stop."));
      }
    }

    /** The `onended` callback of the current source, delivered by the audio engine. */
    method OnEnded(now: real, stamp: string)
      requires Valid() && hasSource && (isLooping && !isSeeking ==> hasBuffer)
      modifies this
      ensures Valid()
      ensures Snapshot() == Ended(old(Snapshot()), now).next
      ensures logs == old(logs) + Stamped(stamp, Ended(old(Snapshot()), now).notes)
    {
      ghost var s0 := Snapshot();
      if isLooping {
        elapsedTime := 0.0;
        assert Snapshot() == s0.(elapsedTime := 0.0);
        PlayAudio(now, stamp);
        Log(stamp, Text("Looping audio."));
        StampedAppend(stamp, Play(s0.(elapsedTime := 0.0), now).notes, [Text("Looping audio.")]);
      } else {
        PauseAudio(now, stamp);
        Log(stamp, Text("Audio playback ended."));
        StampedAppend(stamp, Pause(s0, now).notes, [Text("Audio playback ended.")]);
      }
    }

    /** The click handler of the play button. */
    method PlayClicked(now: real, stamp: string)
      requires Valid()
      modifies this
      ensures Valid()
      ensures Snapshot() == ClickPlay(old(Snapshot()), now).next
      ensures logs == old(logs) + Stamped(stamp, ClickPlay(old(Snapshot()), now).notes)
    {
      ghost var s0 := Snapshot();
      if hasBuffer && context.Some? {
        if !isPlaying {
          PlayAudio(now, stamp);
          Log(stamp, Text("Playing audio."));
          StampedAppend(stamp, Play(s0, now).notes, [Text("Playing audio.")]);
        } else {
          PauseAudio(now, stamp);
          Log(stamp, Text("Pausing audio."));
          StampedAppend(stamp, Pause(s0, now).notes, [Text("Pausing audio.")]);
        }
      } else {
        Log(stamp, Text("No audio buffer or audio context available."));
      }
    }

    /** The click handler of the stop button. */
    method StopClicked(stamp: string)
      requires Valid()
      modifies this
      ensures Valid()
      ensures Snapshot() == Stop(old(Snapshot())).next
      ensures logs == old(logs) + Stamped(stamp, Stop(old(Snapshot())).notes)
    {
      StopAudio(stamp);
    }

    /** The click handler of the loop button. */
    method LoopClicked(stamp: string)
      requires Valid()
      modifies this
      ensures Valid()
      ensures Snapshot() == ClickLoop(old(Snapshot())).next
      ensures logs == old(logs) + Stamped(stamp, ClickLoop(old(Snapshot())).notes)
    {
      if hasBuffer && context.Some? {
        isLooping := !isLooping;
        Log(stamp, Text("Looping set to: " + BoolText(isLooping)));
      } else {
        Log(stamp, Text("No audio buffer or context to loop."));
      }
    }
  }

  /** Stamping distributes over concatenation. */
  lemma {:induction false} StampedAppend(stamp: string, a: seq<Message>, b: seq<Message>)
    ensures Stamped(stamp, a + b) == Stamped(stamp, a) + Stamped(stamp, b)
  {
    if a != [] {
      assert (a + b)[1..] == a[1..] + b;
      StampedAppend(stamp, a[1..], b);
    }
  }

  /**
   * A refused click (no buffer or no context) changes no transport field and adds
   * exactly one log entry after the untouched earlier ones.
   */
  method RefusedClicks(app: AudioApp, now: real, stamp: string)
    requires app.Valid() && !Ready(app.Snapshot())
    modifies app
    ensures app.Snapshot() == old(app.Snapshot())
    ensures |app.logs| == |old(app.logs)| + 2
    ensures app.logs[..|old(app.logs)|] == old(app.logs)
    ensures app.logs[|old(app.logs)|].message == Text("No audio buffer or audio context available.")
    ensures app.logs[|old(app.logs)| + 1].message == Text("No audio buffer or context to loop.")
  {
    app.PlayClicked(now, stamp);
    app.LoopClicked(stamp);
  }
}

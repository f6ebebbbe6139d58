/**
 * The beat tapper (`BpmTapper.h`): a timer that is either stopped or
 * running, a tempo in beats per minute, and a one-shot beat flag that
 * `update` raises when the running timer has passed one beat period and
 * clears again on the next call. The timer's elapsed seconds are an input.
 */
module Tapping {

  /** The tapper's state; `bpm` is whatever `setBpm` last stored. */
  datatype Tapper = Tapper(running: bool, bpm: real, onBeat: bool, enabled: bool)

  /**
   * The beat test `elapsed > (60000 / bpm) / 1000`. With a zero tempo the
   * float quotient is infinite and no elapsed time passes it.
   */
  predicate PastBeat(elapsed: real, bpm: real) {
    bpm != 0.0 && elapsed > 60000.0 / bpm / 1000.0
  }

  function Started(t: Tapper): Tapper {
    if !t.enabled then t else t.(running := true, onBeat := false)
  }

  function Stopped(t: Tapper): Tapper {
    if !t.enabled then t else t.(running := false, onBeat := false)
  }

  /** One `update` with the timer reading `elapsed` seconds. */
  function Updated(t: Tapper, elapsed: real): Tapper {
    if !t.enabled then t
    else if !t.running then t.(running := true, onBeat := false)
    else if PastBeat(elapsed, t.bpm) then t.(running := false, onBeat := true)
    else t.(onBeat := false)
  }

  /** For a nonzero tempo the beat period is `60 / bpm` seconds. */
  lemma BeatPeriod(elapsed: real, bpm: real)
    requires bpm != 0.0
    ensures PastBeat(elapsed, bpm) <==> elapsed > 60.0 / bpm
  {
    assert 60000.0 / bpm / 1000.0 == 60.0 / bpm;
  }

  /** A disabled tapper ignores `start`, `stop` and `update`. */
  lemma DisabledIsInert(t: Tapper, elapsed: real)
    requires !t.enabled
    ensures Started(t) == t && Stopped(t) == t && Updated(t, elapsed) == t
  {
  }

  /**
   * An enabled `update` raises the beat exactly when the timer was running
   * and past one period, and stops the timer exactly then; a stopped timer
   * is restarted. Only the timer and the beat flag change.
   */
  lemma UpdateBeats(t: Tapper, elapsed: real)
    requires t.enabled
    ensures Updated(t, elapsed).onBeat <==> t.running && PastBeat(elapsed, t.bpm)
    ensures Updated(t, elapsed).running <==> !(t.running && PastBeat(elapsed, t.bpm))
    ensures Updated(t, elapsed).bpm == t.bpm && Updated(t, elapsed).enabled
  {
  }

  /**
   * While the tapper stays enabled a beat lasts one `update`: the next one
   * clears it and restarts the timer.
   */
  lemma BeatLastsOneUpdate(t: Tapper, elapsed: real, later: real)
    requires t.enabled && Updated(t, elapsed).onBeat
    ensures !Updated(Updated(t, elapsed), later).onBeat
    ensures Updated(Updated(t, elapsed), later).running
  {
  }

  class BpmTapper {
    var running: bool
    var bpm: real
    var isOnBeat: bool
    var isEnabled: bool

    function State(): Tapper
      reads this
    {
      Tapper(running, bpm, isOnBeat, isEnabled)
    }

    /** No beat, disabled, timer stopped; the tempo is left unset. */
    constructor()
      ensures !isOnBeat && !isEnabled && !running
    {
      running := false;
      isOnBeat := false;
      isEnabled := false;
    }

    method Start()
      modifies this`running, this`isOnBeat
      ensures State() == Started(old(State()))
    {
      if !isEnabled {
        return;
      }
      running := true;
      isOnBeat := false;
    }

    method Stop()
      modifies this`running, this`isOnBeat
      ensures State() == Stopped(old(State()))
    {
      if !isEnabled {
        return;
      }
      running := false;
      isOnBeat := false;
    }

    method Update(elapsed: real)
      modifies this`running, this`isOnBeat
      ensures State() == Updated(old(State()), elapsed)
    {
      if !isEnabled {
        return;
      }
      isOnBeat := false;
      if !running {
        running := true;
      } else if bpm != 0.0 {
        var milisPerBeat := 60000.0 / bpm;
        if elapsed > milisPerBeat / 1000.0 {
          running := false;
          isOnBeat := true;
        }
      }
    }

    method SetBpm(bpm: real)
      modifies this`bpm
      ensures State() == old(State()).(bpm := bpm)
    {
      this.bpm := bpm;
    }

    /** A pure read of the beat flag. */
    method OnBeat() returns (beat: bool)
      ensures beat == isOnBeat
    {
      beat := isOnBeat;
    }
  }
}

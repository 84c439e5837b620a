/**
 * The skeeball break-beam test: the app polls a pin, remembers the previous
 * reading, and reports "beam broken" on a change from 1 to 0 and "beam
 * restored" on a change from 0 to 1. The printed lines become events, and a
 * finite run of the polling loop is a baseline reading followed by the
 * readings the loop takes.
 */
module Skeeball {
  import opened Pwm

  datatype Event = BeamBroken | BeamRestored

  datatype Option<T> = None | Some(value: T)

  /** What one poll reports, given the previous and the current reading. */
  function Detect(prevState: Uint32, state: Uint32): (e: Option<Event>)
    ensures e == Some(BeamBroken) <==> state == 0 && prevState == 1
    ensures e == Some(BeamRestored) <==> state == 1 && prevState == 0
    ensures e == None <==> !((state == 0 && prevState == 1) || (state == 1 && prevState == 0))
  {
    if state == 0 && prevState == 1 then Some(BeamBroken)
    else if state == 1 && prevState == 0 then Some(BeamRestored)
    else None
  }

  function Emitted(e: Option<Event>): seq<Event>
  {
    if e.Some? then [e.value] else []
  }

  /** The events reported over a run of readings: one per adjacent pair, in order. */
  function Transitions(readings: seq<Uint32>): (events: seq<Event>)
    ensures |readings| < 2 ==> events == []
    ensures |readings| >= 1 ==> |events| <= |readings| - 1
  {
    if |readings| < 2 then []
    else
      var n := |readings|;
      Transitions(readings[..n - 1]) + Emitted(Detect(readings[n - 2], readings[n - 1]))
  }

  /**
   * The polling loop of main over a finite run: the baseline reading sets
   * prev_state and reports nothing; each later reading is compared with
   * prev_state, may report an event, and then becomes prev_state.
   */
  method Poll(baseline: Uint32, polled: seq<Uint32>) returns (events: seq<Event>, prevState: Uint32)
    ensures events == Transitions([baseline] + polled)
    ensures prevState == ([baseline] + polled)[|polled|]
    ensures polled == [] ==> events == []
  {
    ghost var readings := [baseline] + polled;
    prevState := baseline;
    events := [];
    for n := 0 to |polled|
      invariant prevState == readings[n]
      invariant events == Transitions(readings[..n + 1])
    {
      var state := polled[n];
      if state == 0 && prevState == 1 {
        events := events + [BeamBroken];
      } else if state == 1 && prevState == 0 {
        events := events + [BeamRestored];
      }
      prevState := state;
      assert readings[..n + 2][..n + 1] == readings[..n + 1];
    }
    assert readings[..|polled| + 1] == readings;
  }

  ghost predicate IsBinary(readings: seq<Uint32>)
  {
    forall i :: 0 <= i < |readings| ==> readings[i] <= 1
  }

  /** Reading i differs from the one before it. */
  predicate ChangedAt(readings: seq<Uint32>, i: int)
  {
    1 <= i < |readings| && readings[i - 1] != readings[i]
  }

  /** The number of adjacent pairs of readings that differ. */
  function Changes(readings: seq<Uint32>): nat
  {
    |set i | 1 <= i < |readings| && ChangedAt(readings, i)|
  }

  lemma ChangesAppend(readings: seq<Uint32>, x: Uint32)
    requires |readings| >= 1
    ensures Changes(readings + [x]) == Changes(readings) + (if readings[|readings| - 1] != x then 1 else 0)
  {
    var r := readings + [x];
    var n := |readings|;
    var before := set i | 1 <= i < n && ChangedAt(readings, i);
    var after := set i | 1 <= i < n + 1 && ChangedAt(r, i);
    if readings[n - 1] != x {
      assert after == before + {n};
    } else {
      assert after == before;
    }
  }

  lemma NoChangesWhenShort(readings: seq<Uint32>)
    requires |readings| < 2
    ensures Changes(readings) == 0
  {
    assert (set i | 1 <= i < |readings| && ChangedAt(readings, i)) == {};
  }

  /** On readings of 0 and 1 every change is reported, so there are as many events as changes. */
  lemma {:induction false} EventCountIsChanges(readings: seq<Uint32>)
    requires IsBinary(readings)
    ensures |Transitions(readings)| == Changes(readings)
  {
    var n := |readings|;
    if n < 2 {
      NoChangesWhenShort(readings);
    } else {
      var prefix := readings[..n - 1];
      EventCountIsChanges(prefix);
      ChangesAppend(prefix, readings[n - 1]);
      assert prefix + [readings[n - 1]] == readings;
    }
  }

  /**
   * On readings of 0 and 1 the last event matches the last reading: after
   * "broken" the beam reads 0 until "restored", and after "restored" 1.
   */
  lemma {:induction false} LastEventMatchesLastReading(readings: seq<Uint32>)
    requires IsBinary(readings)
    requires Transitions(readings) != []
    ensures var events := Transitions(readings);
      events[|events| - 1] == (if readings[|readings| - 1] == 0 then BeamBroken else BeamRestored)
  {
    var n := |readings|;
    var prefix := readings[..n - 1];
    if Detect(readings[n - 2], readings[n - 1]) == None {
      assert readings[n - 2] == readings[n - 1];
      LastEventMatchesLastReading(prefix);
    }
  }

  /** On readings of 0 and 1, "broken" and "restored" alternate. */
  lemma {:induction false} EventsAlternate(readings: seq<Uint32>)
    requires IsBinary(readings)
    ensures var events := Transitions(readings);
      forall i :: 0 <= i < |events| - 1 ==> events[i] != events[i + 1]
  {
    var n := |readings|;
    if n >= 2 {
      var prefix := readings[..n - 1];
      EventsAlternate(prefix);
      var e := Detect(readings[n - 2], readings[n - 1]);
      if e.Some? && Transitions(prefix) != [] {
        LastEventMatchesLastReading(prefix);
        assert prefix[|prefix| - 1] == readings[n - 2];
        var events := Transitions(readings);
        assert events == Transitions(prefix) + [e.value];
        var last := |Transitions(prefix)| - 1;
        assert events[last] != events[last + 1];
      }
    }
  }

  /** On readings of 0 and 1 the first event is the opposite of the baseline: "broken" from 1, "restored" from 0. */
  lemma {:induction false} FirstEventLeavesBaseline(readings: seq<Uint32>)
    requires IsBinary(readings)
    requires Transitions(readings) != []
    ensures Transitions(readings)[0] == (if readings[0] == 1 then BeamBroken else BeamRestored)
  {
    var n := |readings|;
    var prefix := readings[..n - 1];
    if Transitions(prefix) != [] {
      FirstEventLeavesBaseline(prefix);
    } else {
      FirstChangeKeepsBaseline(prefix);
    }
  }

  /** With no event over a run of 0s and 1s, every reading equals the first. */
  lemma {:induction false} FirstChangeKeepsBaseline(readings: seq<Uint32>)
    requires IsBinary(readings) && |readings| >= 1
    requires Transitions(readings) == []
    ensures forall i :: 0 <= i < |readings| ==> readings[i] == readings[0]
  {
    var n := |readings|;
    if n >= 2 {
      FirstChangeKeepsBaseline(readings[..n - 1]);
    }
  }
}

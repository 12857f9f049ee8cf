/**
  Successive calls of `loop()`. A run feeds the state machine one tick per
  call; the lemmas here are about what a whole run draws and which phases it
  passes through.
 */
module Runs {
  import opened Clock
  import opened Temperature
  import opened Display
  import opened StateMachine

  /** The inputs of one call of `loop()`: the counter value and what the sensor would report. */
  datatype Tick = Tick(now: Millis, reading: real)

  /** The session after all ticks, and every drawing routine called on the way, in order. */
  function Run(s: Session, ticks: seq<Tick>): Outcome
    decreases |ticks|
  {
    if ticks == [] then Outcome(s, [])
    else
      var first := Next(s, ticks[0].now, ticks[0].reading);
      var rest := Run(first.next, ticks[1..]);
      Outcome(rest.next, first.events + rest.events)
  }

  /** The phase after each tick of a run. */
  function Phases(s: Session, ticks: seq<Tick>): (ps: seq<Phase>)
    ensures |ps| == |ticks|
    decreases |ticks|
  {
    if ticks == [] then []
    else
      var first := Next(s, ticks[0].now, ticks[0].reading).next;
      [first.phase] + Phases(first, ticks[1..])
  }

  /** How many evaluations of a run met a connected reading at least the threshold away from the reference. */
  function QualifyingChanges(s: Session, ticks: seq<Tick>): nat
    decreases |ticks|
  {
    if ticks == [] then 0
    else
      var t := ticks[0];
      var counted := s.phase == Wait && Elapsed(t.now, s.previousMillis) >= SensorDelayInterval &&
                     IsConnected(t.reading) && Qualifies(t.reading, s.previousTemperatureC);
      (if counted then 1 else 0) + QualifyingChanges(Next(s, t.now, t.reading).next, ticks[1..])
  }

  function Pending(s: Session): nat
  {
    if s.valueChanged then 1 else 0
  }

  /** A run split in two is the first part followed by the second from where the first ended. */
  lemma {:induction false} RunAppend(s: Session, a: seq<Tick>, b: seq<Tick>)
    ensures Run(s, a + b).next == Run(Run(s, a).next, b).next
    ensures Run(s, a + b).events == Run(s, a).events + Run(Run(s, a).next, b).events
    decreases |a|
  {
    if a != [] {
      assert (a + b)[1..] == a[1..] + b;
      RunAppend(Next(s, a[0].now, a[0].reading).next, a[1..], b);
    } else {
      assert a + b == b;
    }
  }

  /** The invariant holds after every run from a session that satisfies it, so in every reachable session. */
  lemma {:induction false} RunInv(s: Session, ticks: seq<Tick>)
    requires Inv(s)
    ensures Inv(Run(s, ticks).next)
    decreases |ticks|
  {
    if ticks != [] {
      NextInv(s, ticks[0].now, ticks[0].reading);
      RunInv(Next(s, ticks[0].now, ticks[0].reading).next, ticks[1..]);
    }
  }

  lemma ReachableInv(ticks: seq<Tick>)
    ensures Inv(Run(Initial(), ticks).next)
  {
    InitialInv();
    RunInv(Initial(), ticks);
  }

  /**
    Every qualifying change is drawn exactly once: the numeric redraws of a
    run, plus a change still pending at its end, are the change pending at its
    start plus the qualifying changes met on the way.
   */
  lemma {:induction false} RedrawsMatchChanges(s: Session, ticks: seq<Tick>)
    requires Inv(s)
    ensures ValueRedraws(Run(s, ticks).events) + Pending(Run(s, ticks).next) ==
            Pending(s) + QualifyingChanges(s, ticks)
    decreases |ticks|
  {
    if ticks != [] {
      var t := ticks[0];
      var first := Next(s, t.now, t.reading);
      NextInv(s, t.now, t.reading);
      RedrawsMatchChanges(first.next, ticks[1..]);
      ValueRedrawsAppend(first.events, Run(first.next, ticks[1..]).events);
    }
  }

  /**
    However often UPDATE_DISPLAY is visited before the read interval runs out,
    the numeric fields are drawn once if a change is pending, and never again.
   */
  lemma {:induction false} RedrawAtMostOncePerVisit(s: Session, ticks: seq<Tick>)
    requires Inv(s) && s.phase == UpdateDisplay
    requires forall i :: 0 <= i < |ticks| ==> Elapsed(ticks[i].now, s.previousMillis) < SensorReadInterval
    ensures Run(s, ticks).next.phase == UpdateDisplay
    ensures Run(s, ticks).events ==
              if s.valueChanged && ticks != [] then [TemperatureValues(s.temperatureC, s.temperatureF)] else []
    decreases |ticks|
  {
    if ticks != [] {
      var first := Next(s, ticks[0].now, ticks[0].reading).next;
      NextInv(s, ticks[0].now, ticks[0].reading);
      RedrawAtMostOncePerVisit(first, ticks[1..]);
    }
  }

  /** Whatever a run draws in the numeric fields is a reading with its exact Fahrenheit conversion. */
  lemma {:induction false} RedrawsAreConsistent(s: Session, ticks: seq<Tick>)
    requires Inv(s)
    ensures forall e :: e in Run(s, ticks).events && e.TemperatureValues? ==>
              e.fahrenheit == ToFahrenheit(e.celsius)
    decreases |ticks|
  {
    if ticks != [] {
      var first := Next(s, ticks[0].now, ticks[0].reading).next;
      NextInv(s, ticks[0].now, ticks[0].reading);
      RedrawsAreConsistent(first, ticks[1..]);
    }
  }

  /**
    A connected sensor that keeps reporting a value within the threshold of
    the reference makes the sketch draw nothing at all.
   */
  lemma {:induction false} SteadyReadingDrawsNothing(s: Session, ticks: seq<Tick>, x: real)
    requires Inv(s) && !s.valueChanged && s.sensorConnected
    requires IsConnected(x) && !Qualifies(x, s.previousTemperatureC)
    requires forall i :: 0 <= i < |ticks| ==> ticks[i].reading == x
    ensures Run(s, ticks).events == []
    ensures var e := Run(s, ticks).next;
            e.sensorConnected && !e.valueChanged && e.previousTemperatureC == s.previousTemperatureC
    decreases |ticks|
  {
    if ticks != [] {
      var first := Next(s, ticks[0].now, ticks[0].reading).next;
      NextInv(s, ticks[0].now, ticks[0].reading);
      SteadyReadingDrawsNothing(first, ticks[1..], x);
    }
  }

  /**
    Once the disconnection has been drawn, further sentinel readings draw
    nothing: the layout is redrawn on the edge only.
   */
  lemma {:induction false} RepeatedDisconnectDrawsNothing(s: Session, ticks: seq<Tick>)
    requires Inv(s) && !s.sensorConnected
    requires forall i :: 0 <= i < |ticks| ==> ticks[i].reading == DisconnectedC
    ensures Run(s, ticks).events == []
    ensures var e := Run(s, ticks).next;
            !e.sensorConnected && !e.valueChanged && e.previousTemperatureC == s.previousTemperatureC
    decreases |ticks|
  {
    if ticks != [] {
      var first := Next(s, ticks[0].now, ticks[0].reading).next;
      NextInv(s, ticks[0].now, ticks[0].reading);
      RepeatedDisconnectDrawsNothing(first, ticks[1..]);
    }
  }

  /**
    Cycle closure: from READ_SENSOR at time `t`, calls at the request, at
    least the conversion time later and at least the read interval later pass
    through WAIT, UPDATE_DISPLAY and back to READ_SENSOR, whatever the
    counter's wrap-around and whatever the sensor reports.
   */
  lemma CycleCloses(s: Session, t: Millis, d1: nat, d2: nat, x: real, y: real, z: real)
    requires s.phase == ReadSensor
    requires SensorDelayInterval <= d1 < Modulus && SensorReadInterval <= d2 < Modulus
    ensures Phases(s, [Tick(t, x), Tick(Advance(t, d1), y), Tick(Advance(t, d2), z)]) ==
              [Wait, UpdateDisplay, ReadSensor]
  {
    ElapsedAdvance(t, d1);
    ElapsedAdvance(t, d2);
    var s1 := Next(s, t, x).next;
    var s2 := Next(s1, Advance(t, d1), y).next;
    assert s1.phase == Wait && s1.previousMillis == t;
    assert s2.phase == UpdateDisplay && s2.previousMillis == t;
    assert Next(s2, Advance(t, d2), z).next.phase == ReadSensor;
    var ticks := [Tick(t, x), Tick(Advance(t, d1), y), Tick(Advance(t, d2), z)];
    assert ticks[1..] == [Tick(Advance(t, d1), y), Tick(Advance(t, d2), z)];
    assert ticks[1..][1..] == [Tick(Advance(t, d2), z)];
    assert Phases(s2, ticks[1..][1..]) == [ReadSensor];
    assert Phases(s1, ticks[1..]) == [UpdateDisplay, ReadSensor];
  }
}

/**
  Concrete runs of the sketch: a steady reading, a disconnection and a
  reconnection. Each starts from the session `setup()` leaves behind, whose
  screen shows the connected layout with blank numeric fields.
 */
module Scenarios {
  import opened Clock
  import opened Temperature
  import opened Display
  import opened StateMachine
  import opened Runs

  /** The screen `setup()` leaves: the connected layout, no value yet. */
  function SetupScreen(): Screen
  {
    DrawAll(Screen(false, false, Blank), [StaticScreen(Initial().sensorConnected)])
  }

  /**
    A sensor that reports 21.3 degrees on every call, however long the run
    goes on after the first cycle: one numeric redraw, 21.3 C / 70.34 F, and
    nothing else.
   */
  lemma SteadyReadingDrawnOnce(rest: seq<Tick>)
    requires forall i :: 0 <= i < |rest| ==> rest[i].reading == 21.3
    ensures var ticks := [Tick(0, 21.3), Tick(750, 21.3), Tick(751, 21.3), Tick(2000, 21.3)] + rest;
            Run(Initial(), ticks).events == [TemperatureValues(21.3, 70.34)] &&
            DrawAll(SetupScreen(), Run(Initial(), ticks).events) == Screen(true, false, Showing(21.3, 70.34))
  {
    var cycle := [Tick(0, 21.3), Tick(750, 21.3), Tick(751, 21.3), Tick(2000, 21.3)];
    var s0 := Initial();
    var s1 := Next(s0, 0, 21.3).next;
    var s2 := Next(s1, 750, 21.3).next;
    var s3 := Next(s2, 751, 21.3).next;
    var s4 := Next(s3, 2000, 21.3).next;
    assert Next(s2, 751, 21.3).events == [TemperatureValues(21.3, 70.34)];
    assert cycle[1..][1..][1..][1..] == [];
    assert Run(s3, cycle[1..][1..][1..]) == Outcome(s4, []);
    assert Run(s2, cycle[1..][1..]) == Outcome(s4, [TemperatureValues(21.3, 70.34)]);
    assert Run(s0, cycle) == Outcome(s4, [TemperatureValues(21.3, 70.34)]);
    InitialInv();
    RunInv(s0, cycle);
    SteadyReadingDrawsNothing(s4, rest, 21.3);
    RunAppend(s0, cycle, rest);
  }

  /**
    A sensor that reads exactly 0.0 degrees from power-on is never drawn:
    the reference starts at 0.0, so no reading ever counts as a change.
   */
  lemma ZeroFromStartNeverDrawn(ticks: seq<Tick>)
    requires forall i :: 0 <= i < |ticks| ==> ticks[i].reading == 0.0
    ensures Run(Initial(), ticks).events == []
  {
    InitialInv();
    SteadyReadingDrawsNothing(Initial(), ticks, 0.0);
  }

  /**
    Losing the sensor while the conversion is being evaluated draws the
    disconnected layout with the error message, and leaves no value on screen.
   */
  lemma DisconnectShowsError(s: Session, now: Millis, screen: Screen)
    requires s.phase == Wait && s.sensorConnected
    requires Elapsed(now, s.previousMillis) >= SensorDelayInterval
    ensures Next(s, now, DisconnectedC).events == [StaticScreen(false), SensorError]
    ensures DrawAll(screen, Next(s, now, DisconnectedC).events) == Screen(false, true, Blank)
  {
    var events := Next(s, now, DisconnectedC).events;
    assert events[1..][1..] == [];
    var cleared := Draw(screen, StaticScreen(false));
    assert DrawAll(cleared, events[1..]) == DrawAll(Draw(cleared, SensorError), []);
  }

  /**
    A reconnection restores the connected layout, which clears the fields,
    and the fields are drawn again only if the new reading is at least the
    threshold away from the last value that counted as a change: a sensor
    that comes back at the value it had leaves the fields blank.
   */
  lemma {:induction false} ReconnectRedrawsFieldsOnlyOnChange(s: Session, t1: Millis, t2: Millis, x: real,
                                                           y: real, screen: Screen)
    requires Inv(s) && s.phase == Wait && !s.sensorConnected && IsConnected(x)
    requires Elapsed(t1, s.previousMillis) >= SensorDelayInterval
    ensures Run(s, [Tick(t1, x), Tick(t2, y)]).events ==
              [StaticScreen(true)] +
              (if Qualifies(x, s.previousTemperatureC) then [TemperatureValues(x, ToFahrenheit(x))] else [])
    ensures DrawAll(screen, Run(s, [Tick(t1, x), Tick(t2, y)]).events) ==
              Screen(true, false,
                     if Qualifies(x, s.previousTemperatureC) then Showing(x, ToFahrenheit(x)) else Blank)
  {
    var ticks := [Tick(t1, x), Tick(t2, y)];
    var first := Next(s, t1, x);
    var second := Next(first.next, t2, y);
    assert first.events == [StaticScreen(true)];
    assert ticks[1..] == [Tick(t2, y)] && ticks[1..][1..] == [];
    assert Run(first.next, ticks[1..]) == Outcome(second.next, second.events);
    var events := first.events + second.events;
    assert Run(s, ticks).events == events;
    var cleared := Draw(screen, StaticScreen(true));
    if Qualifies(x, s.previousTemperatureC) {
      assert events[1..][1..] == [];
      assert DrawAll(cleared, events[1..]) == DrawAll(Draw(cleared, events[1]), []);
    } else {
      assert events[1..] == [];
    }
  }

  /** After a drop-out at 21.3 degrees, coming back at 18.0 shows 18.0 C / 64.4 F; coming back at 21.3 shows none. */
  lemma ReconnectExamples(s: Session, t1: Millis, t2: Millis)
    requires Inv(s) && s.phase == Wait && !s.sensorConnected && s.previousTemperatureC == 21.3
    requires Elapsed(t1, s.previousMillis) >= SensorDelayInterval
    ensures Run(s, [Tick(t1, 18.0), Tick(t2, 18.0)]).events ==
              [StaticScreen(true), TemperatureValues(18.0, 64.4)]
    ensures DrawAll(SetupScreen(), Run(s, [Tick(t1, 21.3), Tick(t2, 21.3)]).events).fields == Blank
  {
    ReconnectRedrawsFieldsOnlyOnChange(s, t1, t2, 18.0, 18.0, SetupScreen());
    ReconnectRedrawsFieldsOnlyOnChange(s, t1, t2, 21.3, 21.3, SetupScreen());
  }
}

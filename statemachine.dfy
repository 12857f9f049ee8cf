/**
  The polling state machine of the sketch, one call of `loop()` at a time, as
  functions on the session state. The sensor reading and the counter value are
  inputs of a step; a step yields the new session and the drawing routines it
  called, in order.
 */
module StateMachine {
  import opened Clock
  import opened Temperature
  import opened Display

  /** The three phases of a polling cycle. */
  datatype Phase = ReadSensor | Wait | UpdateDisplay

  /** The session globals that `loop()` reads and writes. */
  datatype Session = Session(
    phase: Phase,
    previousMillis: Millis,        // when the last conversion was requested
    temperatureC: real,            // last reading, sentinel included
    temperatureF: real,            // its Fahrenheit conversion
    previousTemperatureC: real,    // the reading that last counted as a change
    valueChanged: bool,            // numeric fields still to be drawn
    sensorConnected: bool)         // connectivity seen at the last evaluation

  /** What one step yields: the new session and the drawing routines called, in order. */
  datatype Outcome = Outcome(next: Session, events: seq<Event>)

  /** The session as the globals are initialised. */
  function Initial(): (s: Session)
    ensures s.phase == ReadSensor && s.previousMillis == 0
    ensures s.sensorConnected && !s.valueChanged && s.previousTemperatureC == 0.0
  {
    Session(ReadSensor, 0, 0.0, 0.0, 0.0, false, true)
  }

  /** READ_SENSOR: request a conversion and record the time of the request. */
  function Request(s: Session, now: Millis): (r: Outcome)
    requires s.phase == ReadSensor
    ensures r.next.phase == Wait && r.next.previousMillis == now && r.events == []
    ensures r.next.(phase := s.phase, previousMillis := s.previousMillis) == s
  {
    Outcome(s.(phase := Wait, previousMillis := now), [])
  }

  /**
    The evaluation at the end of WAIT: take the reading, derive connectivity,
    redraw the layout on a connectivity edge, and note a change of at least
    the threshold while connected.
   */
  function Evaluate(s: Session, reading: real): (r: Outcome)
    ensures r.next.phase == UpdateDisplay && r.next.previousMillis == s.previousMillis
    ensures r.next.temperatureC == reading && r.next.temperatureF == ToFahrenheit(reading)
    ensures r.next.sensorConnected == (reading != DisconnectedC)
    // the layout is redrawn, once, exactly on a connectivity edge, with the error when newly disconnected
    ensures r.events == [] <==> r.next.sensorConnected == s.sensorConnected
    ensures r.events != [] ==> r.events[0] == StaticScreen(r.next.sensorConnected)
    ensures r.events != [] ==> r.events[1..] == if r.next.sensorConnected then [] else [SensorError]
    ensures SensorError in r.events <==> s.sensorConnected && reading == DisconnectedC
    ensures |r.events| <= 2 && ValueRedraws(r.events) == 0
    // a reading counts as a change only while connected and at least the threshold away
    ensures r.next.previousTemperatureC ==
              if r.next.sensorConnected && Qualifies(reading, s.previousTemperatureC)
              then reading else s.previousTemperatureC
    ensures r.next.valueChanged ==
              (s.valueChanged || (r.next.sensorConnected && Abs(reading - s.previousTemperatureC) >= ChangeThreshold))
  {
    var connected := IsConnected(reading);
    var layout := if connected == s.sensorConnected then []
                  else [StaticScreen(connected)] + (if connected then [] else [SensorError]);
    var changed := connected && Qualifies(reading, s.previousTemperatureC);
    var next := Session(UpdateDisplay, s.previousMillis, reading, ToFahrenheit(reading),
                        if changed then reading else s.previousTemperatureC,
                        s.valueChanged || changed, connected);
    Outcome(next, layout)
  }

  /** WAIT: nothing happens until the conversion time has passed since the request. */
  function Await(s: Session, now: Millis, reading: real): (r: Outcome)
    requires s.phase == Wait
    ensures Elapsed(now, s.previousMillis) < SensorDelayInterval ==> r == Outcome(s, [])
    ensures Elapsed(now, s.previousMillis) >= SensorDelayInterval ==>
              r.next.phase == UpdateDisplay && r.next.sensorConnected == IsConnected(reading)
    ensures Elapsed(now, s.previousMillis) >= SensorDelayInterval ==> r == Evaluate(s, reading)
  {
    if Elapsed(now, s.previousMillis) >= SensorDelayInterval then Evaluate(s, reading)
    else Outcome(s, [])
  }

  /**
    UPDATE_DISPLAY: draw the numeric fields if a change is pending and the
    sensor is connected, then go back to READ_SENSOR once the read interval
    has passed since the request.
   */
  function Refresh(s: Session, now: Millis): (r: Outcome)
    requires s.phase == UpdateDisplay
    ensures r.events == if s.valueChanged && s.sensorConnected
                        then [TemperatureValues(s.temperatureC, s.temperatureF)] else []
    ensures r.next.valueChanged == (s.valueChanged && !s.sensorConnected)
    ensures r.next.phase == if Elapsed(now, s.previousMillis) >= SensorReadInterval
                            then ReadSensor else UpdateDisplay
    ensures r.next.(phase := s.phase, valueChanged := s.valueChanged) == s
  {
    var drawn := s.valueChanged && s.sensorConnected;
    var events := if drawn then [TemperatureValues(s.temperatureC, s.temperatureF)] else [];
    var cleared := if drawn then s.(valueChanged := false) else s;
    var next := if Elapsed(now, s.previousMillis) >= SensorReadInterval
                then cleared.(phase := ReadSensor) else cleared;
    Outcome(next, events)
  }

  /** One call of `loop()` with the counter at `now` and the sensor reporting `reading`. */
  function Next(s: Session, now: Millis, reading: real): (r: Outcome)
    // the request time is written in READ_SENSOR only
    ensures r.next.previousMillis == if s.phase == ReadSensor then now else s.previousMillis
    // connectivity, the readings and the change reference move only in the evaluation
    ensures s.phase != Wait ==>
              r.next.sensorConnected == s.sensorConnected && r.next.temperatureC == s.temperatureC &&
              r.next.temperatureF == s.temperatureF &&
              r.next.previousTemperatureC == s.previousTemperatureC
    // only UPDATE_DISPLAY draws the numeric fields
    ensures s.phase != UpdateDisplay ==> ValueRedraws(r.events) == 0
  {
    match s.phase
    case ReadSensor => Request(s, now)
    case Wait => Await(s, now, reading)
    case UpdateDisplay => Refresh(s, now)
  }

  /** The phase that follows `p` in the cycle. */
  function Successor(p: Phase): Phase
  {
    match p
    case ReadSensor => Wait
    case Wait => UpdateDisplay
    case UpdateDisplay => ReadSensor
  }

  /**
    What holds of every session reached from the initial one: a change is
    pending only in UPDATE_DISPLAY and only while connected, and what is
    pending to be drawn is the new reference value with its conversion.
   */
  ghost predicate Inv(s: Session)
  {
    (s.phase != UpdateDisplay ==> !s.valueChanged) &&
    (s.valueChanged ==> s.sensorConnected &&
                        s.previousTemperatureC == s.temperatureC &&
                        s.temperatureF == ToFahrenheit(s.temperatureC))
  }

  lemma InitialInv()
    ensures Inv(Initial()) && Initial().sensorConnected && Initial().previousTemperatureC == 0.0
  {
  }

  /** Every step keeps the invariant; a pending change is consumed by the first UPDATE_DISPLAY visit. */
  lemma NextInv(s: Session, now: Millis, reading: real)
    requires Inv(s)
    ensures Inv(Next(s, now, reading).next)
    ensures s.phase == UpdateDisplay ==> !Next(s, now, reading).next.valueChanged
  {
  }

  /** Every phase is left once the read interval has passed since the request, to its successor. */
  lemma NextProgress(s: Session, now: Millis, reading: real)
    requires s.phase != ReadSensor ==> Elapsed(now, s.previousMillis) >= SensorReadInterval
    ensures Next(s, now, reading).next.phase == Successor(s.phase)
  {
  }

  /** Before the conversion time has passed, WAIT and UPDATE_DISPLAY stay where they are. */
  lemma NextStalls(s: Session, now: Millis, reading: real)
    requires s.phase != ReadSensor && Elapsed(now, s.previousMillis) < SensorDelayInterval
    ensures Next(s, now, reading).next.phase == s.phase
    ensures s.phase == Wait ==> Next(s, now, reading) == Outcome(s, [])
  {
  }
}

# DS18B20 thermometer sketch: the polling state machine in Dafny

This project models the state machine in `loop()` of the LilyGO T-Display-S3 DS18B20
sketch. The sketch polls one DS18B20 temperature sensor and shows its reading on the
built-in TFT screen. `loop()` contains no delay. Each call reads the millisecond
counter and takes one step through three phases:

- READ_SENSOR requests a conversion and records the time of the request.
- WAIT does nothing until 750 ms have passed since that request. It then fetches the
  Celsius reading and its Fahrenheit conversion, and works out whether the sensor is
  connected. The static layout (plus the error message when the sensor has gone away)
  is redrawn only when connectivity flips. A connected reading at least 0.1 °C away
  from the last value that counted as a change is noted as a pending change.
- UPDATE_DISPLAY draws the two numeric fields once per pending change and clears the
  flag. It goes back to READ_SENSOR once 2000 ms have passed since the request.

Modules:

- `Temperature` (`temperature.dfy`): the disconnection sentinel, the 0.1 °C threshold,
  `abs` and the Fahrenheit conversion, all on exact reals.
- `Clock` (`clock.dfy`): the 32-bit `unsigned long` counter and elapsed time as
  subtraction modulo 2^32.
- `Display` (`display.dfy`): the three drawing routines as events, and the screen that
  a sequence of events leaves behind.
- `StateMachine` (`statemachine.dfy`): one call of `loop()` as a function from the
  session and the inputs (counter value, sensor reading) to the new session and the
  events drawn. It also defines the invariant that every reachable session keeps.
- `Runs` (`runs.dfy`): many calls in a row. It proves the invariant, "every change is
  drawn exactly once", the suppression of repeated layout redraws, and cycle closure.
- `Scenarios` (`scenarios.dfy`): concrete runs. A steady 21.3 °C, a reading of 0.0 °C
  from power-on, a disconnection, and reconnections at a new value and at the old one.
- `Sketch` (`sketch.dfy`): the globals as the fields of class `Thermometer`, and
  `loop()` as method `Loop`. `Loop` updates the fields in place the way the C++ does.
  It is proved to leave exactly the session and the display log that
  `StateMachine.Next` specifies.

Behaviours of the code that the model makes explicit:

- Reconnection does not force the numeric fields to be redrawn. The sketch's header
  comments say the values are only updated when the readings change
  (src/main.cpp:9, :14), and that holds here too. The layout redraw on reconnection
  clears the screen. The fields come back only if the new reading is at least 0.1 °C
  away from `previousTemperatureC` (src/main.cpp:175-187). A sensor that returns at the
  value it had before dropping out leaves the fields blank until the temperature
  moves (`Scenarios.ReconnectRedrawsFieldsOnlyOnChange`).
- `temperatureC` and `temperatureF` are overwritten at every evaluation, including with
  the sentinel and its conversion (src/main.cpp:168-169). They change whether or not a
  change is noted.
- `previousTemperatureC` starts at 0.0 (src/main.cpp:70). A sensor that reads exactly
  0.0 °C from power-on is therefore never drawn (`Scenarios.ZeroFromStartNeverDrawn`).
- Two changes can never be merged into one redraw. A change is noted only in the WAIT
  step that enters UPDATE_DISPLAY, and the first UPDATE_DISPLAY visit consumes it
  (`StateMachine.Inv`, `Runs.RedrawsMatchChanges`).

## Model

| member | source | states |
|---|---|---|
| Temperature.ToFahrenheit | src/main.cpp:169 | converting the result back with (f - 32) * 5 / 9 gives the Celsius value |
| Temperature.Abs | src/main.cpp:184 | the result is non-negative and is either the difference or its negation |
| Temperature.Qualifies | src/main.cpp:184 | a reading counts as a change iff it lies at least 0.1 below or at least 0.1 above the previous value |
| Temperature.QualifiesSymmetric | src/main.cpp:184 | the change test does not depend on which value is the previous one |
| Temperature.HysteresisExamples | src/main.cpp:184 | 20.05 after 20.0 is not a change; 20.2 and 19.9 are; 21.3 C is 70.34 F and 18.0 C is 64.4 F |
| Clock.Elapsed | src/main.cpp:166 | the elapsed time is the one 32-bit counter value that, added to the start modulo 2^32, gives the current value |
| Clock.ElapsedAdvance | src/main.cpp:202 | reading the counter d ms after t (d < 2^32) gives elapsed time d, even across the counter's wrap-around |
| Clock.ElapsedAcrossWrap | src/main.cpp:166 | 750 ms that span the wrap of the counter are measured as 750 |
| Display.Draw | src/main.cpp:86-120 | a layout redraw clears the screen, wiping the error and the fields, and draws the labels only for the connected layout; the error message and the numeric fields each change only their own part |
| StateMachine.Initial | src/main.cpp:64-72 | the session starts in READ_SENSOR at time 0, connected, with no change pending and reference 0.0 |
| StateMachine.Request | src/main.cpp:155-162 | READ_SENSOR moves to WAIT and records the time of the request; it changes no reading, flag or connectivity and draws nothing |
| StateMachine.Evaluate | src/main.cpp:167-190 | ends in UPDATE_DISPLAY; connected iff the reading is not the sentinel; F is the conversion of the reading, also for the sentinel; the layout is drawn exactly on a connectivity edge, once and first, followed by the error iff newly disconnected and by nothing else; the reference moves to the reading and a change is flagged iff connected and at least 0.1 away |
| StateMachine.Await | src/main.cpp:164-192 | before 750 ms since the request, WAIT changes nothing and draws nothing; after that the step is exactly the evaluation, ending in UPDATE_DISPLAY with connectivity taken from the reading |
| StateMachine.Refresh | src/main.cpp:194-205 | draws the fields, with the stored C and F, iff a change is pending and the sensor is connected; the flag is clear afterwards unless the sensor is disconnected; back to READ_SENSOR iff 2000 ms have passed since the request; nothing else changes |
| StateMachine.Next | src/main.cpp:150-212 | the request time is written only in READ_SENSOR; connectivity, both readings (C and F) and the reference change only in WAIT; only UPDATE_DISPLAY draws the fields |
| StateMachine.InitialInv | src/main.cpp:64-72 | the initial session is in READ_SENSOR, connected, with reference 0.0, and satisfies the invariant |
| StateMachine.NextInv | src/main.cpp:184-199 | every step keeps the invariant (a change is pending only in UPDATE_DISPLAY, only while connected, and is the new reference with its conversion); every UPDATE_DISPLAY step leaves no change pending |
| StateMachine.NextProgress | src/main.cpp:154-205 | once 2000 ms have passed since the request, every phase moves on to its successor in the cycle |
| StateMachine.NextStalls | src/main.cpp:164-204 | before 750 ms have passed, WAIT and UPDATE_DISPLAY keep their phase, and WAIT changes nothing at all |
| Runs.RunInv | src/main.cpp:184-199 | any run from a session satisfying the invariant ends in one that satisfies it |
| Runs.ReachableInv | src/main.cpp:64-72 | every session reached from the initial one satisfies the invariant |
| Runs.RedrawsMatchChanges | src/main.cpp:184-199 | in any run, numeric redraws plus a change pending at the end equal the change pending at the start plus the qualifying readings met: each change is drawn exactly once |
| Runs.RedrawAtMostOncePerVisit | src/main.cpp:194-205 | however often UPDATE_DISPLAY is revisited before the read interval ends, it draws the pending value once and then nothing |
| Runs.RedrawsAreConsistent | src/main.cpp:168-169 | every numeric redraw of a run shows a Celsius value with exactly its Fahrenheit conversion |
| Runs.SteadyReadingDrawsNothing | src/main.cpp:183-187 | a connected reading that stays within 0.1 of the reference draws nothing in any run and keeps the reference |
| Runs.RepeatedDisconnectDrawsNothing | src/main.cpp:174-181 | after the disconnection has been drawn, repeated sentinel readings draw nothing, not even the layout |
| Runs.CycleCloses | src/main.cpp:154-205 | from READ_SENSOR, calls at the request, at least 750 ms later and at least 2000 ms later pass through WAIT, UPDATE_DISPLAY and READ_SENSOR in order, whatever the readings and across wrap-around |
| Scenarios.SteadyReadingDrawnOnce | src/main.cpp:150-212 | a sensor reading 21.3 C for any number of calls after the first cycle draws 21.3 C / 70.34 F exactly once, and the screen shows it |
| Scenarios.ZeroFromStartNeverDrawn | src/main.cpp:70 | a sensor reading exactly 0.0 C from power-on is never drawn, because the reference starts at 0.0 |
| Scenarios.DisconnectShowsError | src/main.cpp:175-181 | losing the sensor draws the disconnected layout and the error message, and leaves no value on screen |
| Scenarios.ReconnectRedrawsFieldsOnlyOnChange | src/main.cpp:174-199 | a reconnection draws the connected layout; the fields are drawn on the next visit iff the new reading is at least 0.1 from the reference, and are blank otherwise |
| Scenarios.ReconnectExamples | src/main.cpp:174-199 | after a drop-out at 21.3, returning at 18.0 shows 18.0 C / 64.4 F once, and returning at 21.3 leaves the fields blank |
| Sketch.Thermometer.constructor | src/main.cpp:64-72 | the fields take the globals' initial values and satisfy the invariant; nothing has been drawn |
| Sketch.Thermometer.DrawStaticScreen | src/main.cpp:86-99 | logs one layout redraw for the current connectivity |
| Sketch.Thermometer.UpdateTemperatureValues | src/main.cpp:102-113 | logs one redraw of the fields with the stored C and F when connected, and nothing otherwise |
| Sketch.Thermometer.ShowSensorError | src/main.cpp:116-120 | logs one error message |
| Sketch.Thermometer.Setup | src/main.cpp:144-146 | logs the initial layout for the connected sensor and changes no field |
| Sketch.Thermometer.Loop | src/main.cpp:150-212 | the fields after the call are the session StateMachine.Next gives; the draw calls made are appended to the log in order; the invariant is kept |

## Left out

- The `default` branch of the switch (src/main.cpp:207-210) is not modelled. `State` is an `enum class` with three enumerators, and no statement stores any other value in `currentState`, so the branch is dead. The model's `Phase` has exactly those three values.
- `setup()` hardware work (src/main.cpp:129-142) is not modelled: display initialisation, the "Initialising..." text, `delay(1000)` and sensor bus set-up. Only its initial layout draw is (`Setup`).
- `sensors.requestTemperatures()` and `sensors.getTempCByIndex(0)` are library calls. The request is not logged. How long the request call itself takes (the library may wait for the conversion inside it) is not modelled. The reading is an input of each step and is used only when WAIT evaluates.
- `DEVICE_DISCONNECTED_C` is defined by the DallasTemperature library, which is not part of this model. It is taken as -127.0, the library's value. `toFahrenheit` is modelled as C * 9 / 5 + 32.
- Float arithmetic is modelled with exact reals: the 0.1 comparison, the conversion, and `String(float)` formatting to two decimals. Rounding can make the device's change test differ from the exact one by a rounding error near the threshold.
- `millis()` is not modelled as a clock source. The counter value is a parameter of each step. `unsigned long` is taken to be 32 bits, as on the ESP32-S3.
- Text, fonts, colours and cursor positions drawn by the three routines (src/main.cpp:86-120) are not modelled. Each routine is one event. The screen model keeps only the labels, the error message and the two numeric fields.
- `firstRun` (src/main.cpp:73,146) is written but never read, and is not modelled.
- `sensorDelayInterval` and `sensorReadInterval` are mutable `int` globals that nothing writes. They are modelled as constants.

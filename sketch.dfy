/**
  The sketch as it runs on the device: the session globals as the fields of
  one object, `loop()` as a method that updates them in place, and the
  drawing routines as methods that append to a ghost log of display events.
  Each method is proved against the functions of module StateMachine.
 */
module Sketch {
  import opened Clock
  import opened Temperature
  import opened Display
  import opened StateMachine

  class Thermometer {
    var currentState: Phase
    var previousMillis: Millis
    var temperatureC: real
    var temperatureF: real
    var previousTemperatureC: real
    var valueChanged: bool
    var sensorConnected: bool

    /** Every drawing routine called so far, in order. */
    ghost var Drawn: seq<Event>

    /** The globals as one session value. */
    function Snapshot(): Session
      reads this
    {
      Session(currentState, previousMillis, temperatureC, temperatureF,
              previousTemperatureC, valueChanged, sensorConnected)
    }

    /** The object invariant: the session is one the state machine can reach. */
    ghost predicate Valid()
      reads this
    {
      Inv(Snapshot())
    }

    /** The globals with their initial values, before anything is drawn. */
    constructor ()
      ensures Snapshot() == Initial() && Valid() && Drawn == []
    {
      currentState := ReadSensor;
      previousMillis := 0;
      temperatureC := 0.0;
      temperatureF := 0.0;
      previousTemperatureC := 0.0;
      valueChanged := false;
      sensorConnected := true;
      Drawn := [];
    }

    /** The layout for the current connectivity: header, and the labels when connected. */
    method DrawStaticScreen()
      modifies this`Drawn
      ensures Drawn == old(Drawn) + [StaticScreen(sensorConnected)]
    {
      Drawn := Drawn + [StaticScreen(sensorConnected)];
    }

    /** The two numeric fields, drawn only while the sensor is connected. */
    method UpdateTemperatureValues()
      modifies this`Drawn
      ensures Drawn == old(Drawn) + if sensorConnected then [TemperatureValues(temperatureC, temperatureF)] else []
    {
      if sensorConnected {
        Drawn := Drawn + [TemperatureValues(temperatureC, temperatureF)];
      }
    }

    /** The error message. */
    method ShowSensorError()
      modifies this`Drawn
      ensures Drawn == old(Drawn) + [SensorError]
    {
      Drawn := Drawn + [SensorError];
    }

    /** What `setup()` does to the session: the initial layout, drawn for the connected sensor. */
    method Setup()
      modifies this`Drawn
      ensures Drawn == old(Drawn) + [StaticScreen(sensorConnected)]
    {
      DrawStaticScreen();
    }

    /** One call of `loop()`, the counter reading `now` and the sensor ready to report `reading`. */
    method Loop(now: Millis, reading: real)
      modifies this
      ensures Snapshot() == Next(old(Snapshot()), now, reading).next
      ensures Drawn == old(Drawn) + Next(old(Snapshot()), now, reading).events
      ensures old(Valid()) ==> Valid()
    {
      ghost var before := Snapshot();
      var currentMillis := now;
      match currentState {
        case ReadSensor =>
          currentState := Wait;
          previousMillis := currentMillis;
        case Wait =>
          if Elapsed(currentMillis, previousMillis) >= SensorDelayInterval {
            temperatureC := reading;
            temperatureF := ToFahrenheit(temperatureC);
            var currentConnectionState := temperatureC != DisconnectedC;
            if currentConnectionState != sensorConnected {
              sensorConnected := currentConnectionState;
              DrawStaticScreen();
              if !sensorConnected {
                ShowSensorError();
              }
            }
            if sensorConnected && Abs(temperatureC - previousTemperatureC) >= ChangeThreshold {
              valueChanged := true;
              previousTemperatureC := temperatureC;
            }
            currentState := UpdateDisplay;
          }
        case UpdateDisplay =>
          if valueChanged && sensorConnected {
            UpdateTemperatureValues();
            valueChanged := false;
          }
          if Elapsed(currentMillis, previousMillis) >= SensorReadInterval {
            currentState := ReadSensor;
          }
      }
      if Inv(before) {
        NextInv(before, now, reading);
      }
    }
  }

  /** A client run: power-on, one conversion with the sensor missing, then a second evaluation still missing. */
  method DropOutAtPowerOn()
  {
    var sketch := new Thermometer();
    sketch.Setup();
    sketch.Loop(0, DisconnectedC);
    sketch.Loop(750, DisconnectedC);
    assert sketch.Drawn == [StaticScreen(true), StaticScreen(false), SensorError];
    sketch.Loop(2000, DisconnectedC);
    assert sketch.currentState == ReadSensor;
    sketch.Loop(2000, DisconnectedC);
    sketch.Loop(2750, DisconnectedC);
    assert sketch.Drawn == [StaticScreen(true), StaticScreen(false), SensorError];
    assert !sketch.sensorConnected && sketch.currentState == UpdateDisplay;
  }
}

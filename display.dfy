/**
  The display as the sketch drives it: three drawing routines, each recorded
  as one event, and the screen they leave behind. Fonts, colours, cursor
  positions and the text of the labels are not modelled.
 */
module Display {

  /** One call of a drawing routine. */
  datatype Event =
    | StaticScreen(labels: bool)                       // clear, draw the header, and the two labels when `labels`
    | SensorError                                      // the "Sensor Not Connected" message
    | TemperatureValues(celsius: real, fahrenheit: real) // the two numeric fields

  /** What a reader sees: the labels, the error message, and the numeric fields if drawn. */
  datatype Fields = Blank | Showing(celsius: real, fahrenheit: real)
  datatype Screen = Screen(labels: bool, error: bool, fields: Fields)

  /** The screen after one drawing routine: a static redraw clears everything else. */
  function Draw(screen: Screen, e: Event): (r: Screen)
    // a layout redraw wipes the error and the fields; the other two routines touch only their own part
    ensures e.StaticScreen? ==> r == Screen(e.labels, false, Blank)
    ensures e.SensorError? ==> r.error && r.labels == screen.labels && r.fields == screen.fields
    ensures e.TemperatureValues? ==>
              r.fields == Showing(e.celsius, e.fahrenheit) && r.labels == screen.labels && r.error == screen.error
  {
    match e
    case StaticScreen(labels) => Screen(labels, false, Blank)
    case SensorError => screen.(error := true)
    case TemperatureValues(c, f) => screen.(fields := Showing(c, f))
  }

  /** The screen after a sequence of drawing routines, in order. */
  function DrawAll(screen: Screen, events: seq<Event>): Screen
    decreases |events|
  {
    if events == [] then screen else DrawAll(Draw(screen, events[0]), events[1..])
  }

  /** How many times the numeric fields were drawn. */
  function ValueRedraws(events: seq<Event>): (n: nat)
    ensures n <= |events|
    ensures n == 0 <==> forall i :: 0 <= i < |events| ==> !events[i].TemperatureValues?
  {
    if events == [] then 0
    else (if events[0].TemperatureValues? then 1 else 0) + ValueRedraws(events[1..])
  }

  /** Counting redraws distributes over concatenated logs. */
  lemma {:induction false} ValueRedrawsAppend(a: seq<Event>, b: seq<Event>)
    ensures ValueRedraws(a + b) == ValueRedraws(a) + ValueRedraws(b)
  {
    if a != [] {
      assert (a + b)[1..] == a[1..] + b;
      ValueRedrawsAppend(a[1..], b);
    } else {
      assert a + b == b;
    }
  }

  /** Drawing a concatenated log is drawing its parts one after the other. */
  lemma {:induction false} DrawAllAppend(screen: Screen, a: seq<Event>, b: seq<Event>)
    ensures DrawAll(screen, a + b) == DrawAll(DrawAll(screen, a), b)
    decreases |a|
  {
    if a != [] {
      assert (a + b)[1..] == a[1..] + b;
      DrawAllAppend(Draw(screen, a[0]), a[1..], b);
    } else {
      assert a + b == b;
    }
  }
}

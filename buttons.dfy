/** The logical state shared by the LEDs, the buttons and the remote player,
    the fixed configuration constants of the button server, and the LED table. */
module Buttons {

  /** The five states the server displays. */
  datatype State = Stopped | Playing1 | Playing2 | Error | Request

  /** Seconds between two polls of the remote player's status. */
  const LongPeriodicTime: int := 300
  /** Debounce window, in microseconds of the GPIO tick counter. */
  const DebounceTime: int := 200000
  /** The GPIO tick counter is an unsigned 32-bit microsecond counter. */
  const TickModulus: int := 0x1_0000_0000

  // GPIO pin numbers of the three LED channels and the three buttons
  const PinBLed: int := 7
  const PinRLed: int := 21
  const PinGLed: int := 20
  const PinBBut: int := 25
  const PinRBut: int := 8
  const PinGBut: int := 16

  /** A level written to one LED output pin. */
  type Bit = x: int | 0 <= x <= 1

  /** The levels of the blue, red and green LED outputs, in the order they are written. */
  datatype Leds = Leds(b: Bit, r: Bit, g: Bit)

  /** The LED colour that shows each state: every state sets all three channels.
      Blue marks a request in flight, red a stopped player, green a playing
      one (on every other tick), and all three together an error. */
  function LedPattern(s: State): (p: Leds)
    ensures p.b == 1 <==> s == Request || s == Error
    ensures p.r == 1 <==> s == Stopped || s == Error
    ensures p.g == 1 <==> s == Playing1 || s == Error
  {
    match s
    case Stopped => Leds(0, 1, 0)
    case Playing1 => Leds(0, 0, 1)
    case Playing2 => Leds(0, 0, 0)
    case Request => Leds(1, 0, 0)
    case Error => Leds(1, 1, 1)
  }

  /** Reads the state back from the LEDs; None for the three colours no state uses. */
  function StateOfLeds(p: Leds): (r: Option<State>)
    ensures r.Some? ==> LedPattern(r.value) == p
    ensures r.None? ==> forall s: State :: LedPattern(s) != p
  {
    if p == Leds(0, 1, 0) then Some(Stopped)
    else if p == Leds(0, 0, 1) then Some(Playing1)
    else if p == Leds(0, 0, 0) then Some(Playing2)
    else if p == Leds(1, 0, 0) then Some(Request)
    else if p == Leds(1, 1, 1) then Some(Error)
    else None
  }

  /** Every state can be read back from its colour, so the table is injective. */
  lemma LedRoundTrip(s: State)
    ensures StateOfLeds(LedPattern(s)) == Some(s)
  {
  }

  lemma LedPatternInjective(s: State, t: State)
    ensures LedPattern(s) == LedPattern(t) ==> s == t
  {
  }

  /** All three LEDs are lit exactly when the error state is shown. */
  lemma ErrorIsAllOn(s: State)
    ensures LedPattern(s) == Leds(1, 1, 1) <==> s == Error
  {
  }

  datatype Option<+T> = None | Some(value: T)
}

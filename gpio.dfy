/** The GPIO connection: the holder of the displayed state, the debounce
    clock and the long-poll clock, and the LED outputs it drives. */
module Gpio {
  import opened Buttons

  /** Ticks elapsed from `last` to `tick` on the wrapping 32-bit counter.
      Masking with 2^32 - 1 is the non-negative remainder, as Dafny's `%` is.
      For counter values this is the plain difference, or the difference plus
      2^32 when the counter wrapped in between. */
  function Delta(last: int, tick: int): (d: int)
    ensures 0 <= d < TickModulus
    ensures 0 <= last < TickModulus && 0 <= tick < TickModulus ==>
      d == if last <= tick then tick - last else tick - last + TickModulus
  {
    (tick - last) % TickModulus
  }

  /** An edge at `tick` is accepted when more than the debounce window has
      passed since the previous edge at `last`, counting across a wrap of the
      counter. */
  predicate Accepts(last: int, tick: int): (ok: bool)
    ensures 0 <= last < TickModulus && 0 <= tick < TickModulus ==>
      (ok <==> if last <= tick then tick - last > DebounceTime else tick + TickModulus - last > DebounceTime)
  {
    Delta(last, tick) > DebounceTime
  }

  /** An edge shortly after the counter wraps is measured across the wrap. */
  lemma AcceptAcrossWrap()
    ensures Accepts(TickModulus - 100000, 150000)
    ensures !Accepts(TickModulus - 100000, 50000)
  {
  }

  /** With the clock at its initial 0, an edge in the first window is rejected. */
  lemma FirstWindowRejected(tick: int)
    requires 0 <= tick <= DebounceTime
    ensures !Accepts(0, tick)
  {
  }

  /** The accept decisions of successive edges, starting from the clock `last`.
      Every edge resets the clock, whether it is accepted or not, so each
      decision depends only on the edge just before it: a rejected edge never
      blocks a later edge whose own delta exceeds the window. */
  function Decisions(last: int, ticks: seq<int>): (d: seq<bool>)
    ensures |d| == |ticks|
    ensures forall i :: 0 <= i < |ticks| ==> d[i] == Accepts(if i == 0 then last else ticks[i - 1], ticks[i])
    decreases |ticks|
  {
    if ticks == [] then []
    else
      var rest := Decisions(ticks[0], ticks[1..]);
      assert forall i :: 1 <= i < |ticks| ==> ticks[1..][i - 1] == ticks[i];
      [Accepts(last, ticks[0])] + rest
  }

  /** Three edges 100000 ticks apart after boot: none is accepted, since the
      first falls in the initial window and each later one measures only
      from the edge just before it. */
  lemma CloseEdgesAllRejected()
    ensures Decisions(0, [1000, 101000, 301000]) == [false, false, false]
  {
  }

  class GpioConnection {
    /** The state on display. */
    var lastState: State
    /** Tick of the last button edge, accepted or not. */
    var lastTick: int
    /** Time, in seconds, of the last long poll. */
    var lastTime: int
    // the levels last written to the blue, red and green LED pins
    var blue: Bit
    var red: Bit
    var green: Bit
    /** Every state written to the LEDs, oldest first. */
    ghost var shown: seq<State>

    function Lit(): Leds
      reads this
    {
      Leds(blue, red, green)
    }

    /** The LEDs always show the state on display, which is the last one written. */
    ghost predicate Valid()
      reads this
    {
      Lit() == LedPattern(lastState) && |shown| > 0 && shown[|shown| - 1] == lastState
    }

    constructor ()
      ensures Valid()
      ensures lastState == Request && shown == [Request]
      ensures lastTick == 0 && lastTime == 0
    {
      lastState := Request;
      lastTick, lastTime := 0, 0;
      blue, red, green := 0, 0, 0;
      shown := [];
      new;
      Update(Request);
    }

    method GetState() returns (s: State)
      requires Valid()
      ensures s == lastState
      ensures LedPattern(s) == Lit()
    {
      s := lastState;
    }

    /** Returns true (cooldown) when the edge at `tick` must be ignored, and
        restarts the debounce clock at `tick` either way. */
    method CheckCooldownTime(tick: int) returns (cooldown: bool)
      modifies this`lastTick
      ensures cooldown <==> !Accepts(old(lastTick), tick)
      ensures lastTick == tick
    {
      var delta := (tick - lastTick) % TickModulus;
      lastTick := tick;
      if delta > DebounceTime {
        cooldown := false;
      } else {
        cooldown := true;
      }
    }

    /** Returns true, and restarts the long-poll clock, when more than the
        long period has passed since the last long poll at time `now`. */
    method CheckLongPeriodicTime(now: int) returns (due: bool)
      modifies this`lastTime
      ensures due <==> now - old(lastTime) > LongPeriodicTime
      ensures lastTime == if due then now else old(lastTime)
    {
      var delta := now - lastTime;
      if delta > LongPeriodicTime {
        lastTime := now;
        due := true;
      } else {
        due := false;
      }
    }

    /** Displays `s`: records it and writes all three LED channels. */
    method Update(s: State)
      modifies this`lastState, this`blue, this`red, this`green, this`shown
      ensures Valid()
      ensures lastState == s && Lit() == LedPattern(s)
      ensures shown == old(shown) + [s]
    {
      lastState := s;
      var b, g, r := 0, 0, 0;
      match s {
        case Stopped => r := 1;
        case Playing1 => g := 1;
        case Playing2 => g := 0;
        case Request => b := 1;
        case Error => b, g, r := 1, 1, 1;
      }
      blue := b;
      red := r;
      green := g;
      shown := shown + [s];
    }
  }
}

/** The event flow: a button edge, the periodic tick, and the refresh after a
    web request, each driving the GPIO connection and the remote player.
    Every method runs the way the two locks of the server serialise it: the
    request state is displayed before the player is called, and the result
    is displayed after. */
module Events {
  import opened Buttons
  import opened Gpio
  import opened Spotify

  /** The button a GPIO event stands for. */
  datatype Button = Blue | Green | Red | Nothing

  /** A rising edge (level 1) on a button pin presses that button; anything
      else is a refresh. */
  function ButtonOf(pin: int, level: int): (b: Button)
    ensures b == Blue <==> level == 1 && pin == PinBBut
    ensures b == Green <==> level == 1 && pin == PinGBut
    ensures b == Red <==> level == 1 && pin == PinRBut
  {
    if level == 1 then
      if pin == PinBBut then Blue
      else if pin == PinGBut then Green
      else if pin == PinRBut then Red
      else Nothing
    else Nothing
  }

  /** The press a button stands for. Whatever the button, the outcome is the
      error state exactly when some client call raised an error, and that call
      was the last one attempted. */
  function Press(b: Button, remote: Remote): (o: Outcome)
    ensures o.state == Error <==> Failed(o.calls, remote)
    ensures StopsAtFailure(o.calls, remote)
    ensures b == Nothing ==> o.remote == remote && forall c :: c in o.calls ==> !Mutating(c)
  {
    match b
    case Blue => PressBlue(remote)
    case Green => PressGreen(remote)
    case Red => PressRed(remote)
    case Nothing => PressNothing(remote)
  }

  /** The blinking of a playing display: the two playing states swap, every
      other state stays. */
  function Flicker(s: State): (r: State)
    ensures r == Playing1 <==> s == Playing2
    ensures r == Playing2 <==> s == Playing1
    ensures s != Playing1 && s != Playing2 ==> r == s
  {
    if s == Playing2 then Playing1
    else if s == Playing1 then Playing2
    else s
  }

  lemma FlickerInvolution(s: State)
    ensures Flicker(Flicker(s)) == s
  {
  }

  /** The state after `n` periodic ticks with no long poll due: an even number
      of ticks brings the display back where it was, an odd number is one blink. */
  function Flickered(s: State, n: nat): (r: State)
    ensures r == if n % 2 == 0 then s else Flicker(s)
  {
    if n == 0 then s else Flicker(Flickered(s, n - 1))
  }

  /** Asks the player for the button on `pin` at `level`, then displays the result. */
  method UpdateEvent(gpio: GpioConnection, remote: Remote, pin: int, level: int)
    returns (remote': Remote, calls: seq<Call>)
    modifies gpio`lastState, gpio`blue, gpio`red, gpio`green, gpio`shown
    ensures gpio.Valid()
    ensures var o := Press(ButtonOf(pin, level), remote);
      remote' == o.remote && calls == o.calls && gpio.lastState == o.state
    ensures gpio.shown == old(gpio.shown) + [gpio.lastState]
  {
    var o := Press(ButtonOf(pin, level), remote);
    gpio.Update(o.state);
    remote', calls := o.remote, o.calls;
  }

  /** The refresh the periodic poll and the web page trigger: `update_event`
      with no button pressed, which reads the player and displays the result. */
  method Refresh(gpio: GpioConnection, remote: Remote) returns (remote': Remote, calls: seq<Call>)
    modifies gpio`lastState, gpio`blue, gpio`red, gpio`green, gpio`shown
    ensures gpio.Valid()
    ensures var o := PressNothing(remote);
      remote' == o.remote && calls == o.calls && gpio.lastState == o.state
    ensures gpio.shown == old(gpio.shown) + [gpio.lastState]
  {
    assert ButtonOf(0, 0) == Nothing;
    remote', calls := UpdateEvent(gpio, remote, 0, 0);
  }

  /** A button edge: an edge inside the debounce window only restarts the
      debounce clock; any other edge displays the request state, asks the
      player, and displays the result. */
  method GpioEvent(gpio: GpioConnection, remote: Remote, pin: int, level: int, tick: int)
    returns (remote': Remote, calls: seq<Call>)
    requires gpio.Valid()
    modifies gpio
    ensures gpio.Valid()
    ensures gpio.lastTick == tick && gpio.lastTime == old(gpio.lastTime)
    ensures !Accepts(old(gpio.lastTick), tick) ==>
      remote' == remote && calls == [] &&
      gpio.lastState == old(gpio.lastState) && gpio.Lit() == old(gpio.Lit()) && gpio.shown == old(gpio.shown)
    ensures Accepts(old(gpio.lastTick), tick) ==>
      var o := Press(ButtonOf(pin, level), remote);
      remote' == o.remote && calls == o.calls &&
      gpio.lastState == o.state && gpio.shown == old(gpio.shown) + [Request, o.state]
  {
    var cooldown := gpio.CheckCooldownTime(tick);
    if cooldown {
      return remote, [];
    }
    gpio.Update(Request);
    remote', calls := UpdateEvent(gpio, remote, pin, level);
  }

  /** The periodic tick at time `now`: when no long poll is due the display
      blinks without asking the player; otherwise the player is polled. */
  method PeriodicEvent(gpio: GpioConnection, remote: Remote, now: int)
    returns (remote': Remote, calls: seq<Call>)
    requires gpio.Valid()
    modifies gpio
    ensures gpio.Valid()
    ensures gpio.lastTick == old(gpio.lastTick)
    ensures now - old(gpio.lastTime) <= LongPeriodicTime ==>
      gpio.lastTime == old(gpio.lastTime) && remote' == remote && calls == [] &&
      gpio.lastState == Flicker(old(gpio.lastState)) && gpio.shown == old(gpio.shown) + [gpio.lastState]
    ensures now - old(gpio.lastTime) > LongPeriodicTime ==>
      var o := PressNothing(remote);
      gpio.lastTime == now && remote' == o.remote && calls == o.calls &&
      gpio.lastState == o.state && gpio.shown == old(gpio.shown) + [o.state]
  {
    var state := gpio.GetState();
    var due := gpio.CheckLongPeriodicTime(now);
    if !due {
      state := Flicker(state);
      gpio.Update(state);
      remote', calls := remote, [];
    }
    if due {
      remote', calls := Refresh(gpio, remote);
    }
  }

  /** The periodic loop over the clock readings `times`, one tick per reading.
      While no long poll falls due, the player is never called and the display
      is the starting state blinked once per tick. */
  method PeriodicLoop(gpio: GpioConnection, remote: Remote, times: seq<int>)
    returns (remote': Remote, calls: seq<Call>)
    requires gpio.Valid()
    modifies gpio
    ensures gpio.Valid()
    ensures gpio.lastTick == old(gpio.lastTick)
    ensures (forall i :: 0 <= i < |times| ==> times[i] - old(gpio.lastTime) <= LongPeriodicTime) ==>
      remote' == remote && calls == [] && gpio.lastTime == old(gpio.lastTime) &&
      gpio.lastState == Flickered(old(gpio.lastState), |times|)
  {
    remote', calls := remote, [];
    var k := 0;
    while k < |times|
      invariant 0 <= k <= |times|
      invariant gpio.Valid()
      invariant gpio.lastTick == old(gpio.lastTick)
      invariant (forall i :: 0 <= i < |times| ==> times[i] - old(gpio.lastTime) <= LongPeriodicTime) ==>
        remote' == remote && calls == [] && gpio.lastTime == old(gpio.lastTime) &&
        gpio.lastState == Flickered(old(gpio.lastState), k)
    {
      var more: seq<Call>;
      remote', more := PeriodicEvent(gpio, remote', times[k]);
      calls := calls + more;
      k := k + 1;
    }
  }

  /** A player on which every call fails: any accepted button edge ends with
      the error state on display and all three LEDs lit. */
  lemma BrokenPlayerShowsError(pin: int, level: int, remote: Remote)
    requires remote.failing == {Factory, CurrentlyPlaying, PreviousTrack, NextTrack, StartPlayback, PausePlayback}
    ensures Press(ButtonOf(pin, level), remote).state == Error
    ensures LedPattern(Press(ButtonOf(pin, level), remote).state) == Leds(1, 1, 1)
  {
  }
}

# Button server: a Dafny model

This project models the core of `buttonserver.py`, a daemon that connects three push-buttons and a tri-colour LED on a Raspberry Pi to a remote music player. It covers:

- the displayed state (`Stopped`, `Playing1`, `Playing2`, `Error`, `Request`) and the LED colour that shows each one;
- the GPIO connection, as a class holding the displayed state, the debounce clock (a wrapping 32-bit microsecond tick) and the long-poll clock;
- the event flow: a button edge, the once-a-second periodic tick and its loop, and the refresh after a web request;
- the decisions of the player connection: which client calls each button makes, and which state it reports;
- the routing of web requests by path.

Modules, leaves first:

- `Buttons` (`buttons.dfy`): the state enumeration, the constants and pin numbers, and the LED table with its inverse.
- `Gpio` (`gpio.dfy`): the debounce arithmetic, the decisions for a run of edges, and the `GpioConnection` class. The class's methods `CheckCooldownTime`, `CheckLongPeriodicTime`, `Update` and `GetState` change its fields step by step, as the source does. A ghost history `shown` records every state written to the LEDs. `Valid()` says that the LEDs always show the last state written.
- `Spotify` (`spotify.dfy`): the remote player is a value. It holds the reply "currently playing" would give and the set of client calls that raise an error. Each press is a function returning the reported state, the player afterwards and the client calls attempted, in order.
- `Events` (`events.dfy`): `GpioEvent`, `UpdateEvent`, `PeriodicEvent` and the periodic loop, as methods over a `GpioConnection` and a player value. The flicker mapping and the pin/level dispatch are functions.
- `Http` (`http.dfy`): the redirect path built from the redirect URI, the classification of GET, HEAD and POST requests, and the refresh a served GET triggers.

Facts about the code worth knowing when reading the model:

- There are five states. A press of several buttons at once is treated like any other edge.
- Debounce uses one clock, `last_tick`, for all three buttons. Every edge restarts it, whether accepted or not. It starts at 0, so an edge in the first 200000 ticks after boot is rejected. Edges at ticks 1000, 101000 and 301000 are all rejected (`Gpio.CloseEdgesAllRejected`): the last one comes exactly 200000 ticks after the one before it, which is not more than the window.
- The web endpoint serves only the OAuth redirect and the status page. There are no button routes and no notifications.

## Model

| member | source | states |
|---|---|---|
| `Buttons.LedPattern` | buttonserver.py:106-122 | Blue is lit iff the state is request or error, red iff stopped or error, green iff the first playing state or error |
| `Buttons.StateOfLeds` | buttonserver.py:106-122 | Reading a colour back gives the state whose LED pattern it is, or nothing when no state shows that colour |
| `Buttons.LedRoundTrip` | buttonserver.py:106-122 | Every state is recovered from its LED colour, so the table is total |
| `Buttons.LedPatternInjective` | buttonserver.py:106-122 | Two states with the same LED colour are the same state: the five colours are pairwise distinct |
| `Buttons.ErrorIsAllOn` | buttonserver.py:117-118 | All three LEDs are lit exactly when the error state is shown |
| `Gpio.Delta` | buttonserver.py:88 | The masked tick delta lies in [0, 2^32). For counter values it is the plain difference, or the difference plus 2^32 when the counter wrapped |
| `Gpio.Accepts` | buttonserver.py:88-95 | For counter values, an edge is accepted iff more than 200000 ticks passed since the previous edge, counting across a wrap |
| `Gpio.AcceptAcrossWrap` | buttonserver.py:87-95 | An edge 250000 ticks after one just before the wrap is accepted; one 150000 ticks after is rejected |
| `Gpio.FirstWindowRejected` | buttonserver.py:87-95 | With the clock at its initial 0, an edge at a tick up to 200000 is rejected |
| `Gpio.Decisions` | buttonserver.py:87-95 | One decision per edge of a run. Edge i is accepted iff its delta from edge i-1 (from the starting clock for the first edge) exceeds the window. Whether edge i-1 was accepted does not matter, so a rejected edge never blocks a later one |
| `Gpio.CloseEdgesAllRejected` | buttonserver.py:125-128 | Edges at ticks 1000, 101000 and 301000 after boot are all rejected |
| `Gpio.GpioConnection.constructor` | buttonserver.py:61-79 | A new connection shows the request state on its LEDs, with both clocks at 0 |
| `Gpio.GpioConnection.GetState` | buttonserver.py:84-85 | Returns the displayed state, which is the one the LEDs show |
| `Gpio.GpioConnection.CheckCooldownTime` | buttonserver.py:87-95 | Reports cooldown iff the edge is not accepted, and sets the clock to the edge's tick either way |
| `Gpio.GpioConnection.CheckLongPeriodicTime` | buttonserver.py:97-104 | A long poll is due iff more than 300 s have passed. The clock moves to now only then |
| `Gpio.GpioConnection.Update` | buttonserver.py:106-122 | Sets the displayed state, writes all three LED channels from the table and appends one entry to the display history |
| `Spotify.StateOfReport` | buttonserver.py:202-207 | A reply means playing iff it is present with `is_playing` true; otherwise it means stopped |
| `Spotify.GetState` | buttonserver.py:194-207 | `get_state(s)` with a client supplied, as every press calls it. One "currently playing" call, no change to the player. Error iff that call fails; playing iff it succeeds and the player plays; stopped iff it succeeds and it does not. Never the second playing state or the request state |
| `Spotify.Skip` | buttonserver.py:209-219 | Shared shape of the two skip buttons. The calls are a prefix of client, skip, currently playing, stopping at the first failure. The skip is the only call that changes playback |
| `Spotify.PressBlue` | buttonserver.py:209-219 | Reports playing or error, never stopped. Error iff a call failed. The calls are a prefix of client, previous track, currently playing, stop at the first failing one, and are all three when none fails. Never starts, pauses or skips forward |
| `Spotify.PressGreen` | buttonserver.py:238-248 | Same as blue, with next track in place of previous track |
| `Spotify.PressRed` | buttonserver.py:221-236 | The calls are a prefix of client, currently playing, then start or pause, and stop at the first failing one. Once the state is read, a playing player gets a pause and any other a start; with no failure all three calls are made. Error iff a call failed, so a failing client build or state read reports error, and then the player is unchanged. If the state cannot be read, no playback call is made. With no failure it reports stopped iff the player was playing and flips the playing flag |
| `Spotify.PressNothing` | buttonserver.py:250-256 | The calls are a prefix of client, currently playing, and are both when none fails; none changes playback, and the player is unchanged. A failing client build gives error; otherwise it reports what `GetState` derives |
| `Spotify.GetStateIdempotent` | buttonserver.py:194-207 | Reading the state twice with nothing in between gives the same outcome |
| `Spotify.RedToggleRestores` | buttonserver.py:221-236 | On a healthy player, two red presses restore the playing flag and report stopped and playing, one each |
| `Spotify.AllFailingGivesError` | buttonserver.py:209-256 | If every client call fails, every button reports error |
| `Events.ButtonOf` | buttonserver.py:137-147 | Level 1 on the blue, green or red pin selects that button; any other pin or level selects the refresh |
| `Events.Press` | buttonserver.py:137-147 | For every button, the outcome is error iff some call failed, and no call is attempted after a failing one. The refresh changes nothing on the player |
| `Events.Flicker` | buttonserver.py:161-166 | The two playing states swap; every other state is unchanged |
| `Events.FlickerInvolution` | buttonserver.py:161-166 | Blinking twice restores the state |
| `Events.Flickered` | buttonserver.py:157-174 | After n quiet ticks the display is the starting state when n is even, and one blink of it when n is odd |
| `Events.UpdateEvent` | buttonserver.py:133-155 | Asks the player for the dispatched button and shows its outcome as one more display write |
| `Events.Refresh` | buttonserver.py:133-155 | `update_event(0, 0)`: shows the refresh outcome as one more display write, with the refresh's calls and player |
| `Events.GpioEvent` | buttonserver.py:125-131 | A rejected edge changes only the debounce clock: no display write and no client call. An accepted edge shows the request state, then the press outcome |
| `Events.PeriodicEvent` | buttonserver.py:157-169 | With no long poll due: one blink written, no client call, long-poll clock unchanged. When due: the clock moves to now and the refresh outcome is shown |
| `Events.PeriodicLoop` | buttonserver.py:171-174 | Over readings with no long poll due: no client call, and the display is the starting state blinked once per reading |
| `Events.BrokenPlayerShowsError` | buttonserver.py:133-155 | If every client call fails, any dispatched edge ends in the error state with all three LEDs lit |
| `Http.LastSegment` | buttonserver.py:26 | The longest suffix of the redirect URI that has no '/', which starts just after the last '/' |
| `Http.RedirectPath` | buttonserver.py:26 | The redirect path is "/", then the URI's last segment, then "?code=" |
| `Http.HandleGet` | buttonserver.py:263-275 | A path starting with the redirect path gets 302 with the rest of the path as the code. Otherwise "" or "/" gets 200 and anything else 404 |
| `Http.HandleHeadOrPost` | buttonserver.py:297-307 | HEAD and POST always get 404 |
| `Http.DoGet` | buttonserver.py:263-292 | Routes by `HandleGet` against the redirect path computed once at start-up. A 404 makes no LED write and no client call. A served request makes exactly one display write, the refresh outcome |
| `Http.RedirectExample` | buttonserver.py:26 | For a redirect URI ending in "/callback", "/callback?code=abc" carries code "abc", "/" is served and "/blue" is not found |

## Left out

- Threads and the two semaphores: every event runs to completion in sequence. The ordering the locks impose is kept: the request state is shown before the player is called, and the result is shown after.
- The pigpio driver (pin modes, pull-ups, callback registration, `stop`): LED writes are the three fields `blue`, `red` and `green`.
- The spotipy OAuth manager and client (`factory`, `get_auth_token`, `get_authorize_url`): the player is an abstract value. `Factory` stands for building an authenticated client, which can fail.
- Spotify.PressBlue, Spotify.PressGreen: skipping a track is assumed not to change what "currently playing" reports; the real service's effect is not known here.
- Spotify.PressRed: starting playback is modelled as setting `is_playing` to true, and pausing as setting it to false. A failing call leaves the player unchanged.
- Events.UpdateEvent: the `except` branch is not modelled. The press functions already turn every client error into the error state, so only a driver failure could reach it, and the driver is outside the model.
- Events.PeriodicLoop: it runs over a finite list of clock readings instead of `while True`. The one-second `time.sleep` is left out. Clock readings are whole seconds, not floats.
- Events.PeriodicLoop: only the quiet case, where no long poll falls due, is pinned down. Once a poll falls due, the contract keeps only `Valid()` and the debounce clock.
- Http.DoGet: the token exchange, the status page's own "currently playing" call and the HTML body are left out. The calls it returns are those of the refresh only.
- Spotify.GetState: the default-argument path of `get_state`, which builds its own client, is used only by the status page, whose client calls are left out under Http.DoGet.
- Configuration loading, logging prints and process start-up.

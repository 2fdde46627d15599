# ESP32 HAM clock: control loop, navigation and configuration

A Dafny model of the cooperative control logic of the ESP32 HAM clock
firmware (`src/main.cpp`), with the properties that logic promises proved
about the model. The model has four modules:

- `Timing` (timing.dfy) models the 32-bit `millis()` clock. It has the
  unsigned difference `now - last`, the guard `now - last >= interval` shared
  by the periodic checks, and the firing sequences of a timer over a run of
  loop passes. It also proves what that guard means for real, unbounded
  elapsed time across counter wrap-arounds.
- `Navigation` (navigation.dfy) models the eight-screen carousel: the
  `Screen` enumeration, the "previous" and "next" gestures, and the corners
  of the panel that trigger them.
- `Config` (config.dfy) models:
  - the thirteen configuration globals;
  - the partial update of `POST /api/config`, with the JSON document as a map;
  - `loadPreferences` and `savePreferences` against the NVS "hamclock"
    namespace, with the store as a map.
- `HamClock` (hamclock.dfy) models the firmware's state as the class
  `Device`: the timestamps, the current screen, the settings, the store and
  the two sockets. Its methods are:
  - one pass of `loop()` (`Tick`: the touch, then the polls in `RunPolls`,
    then the DX-cluster and APRS branches in `ServiceLinks`, then the display
    refresh, which is written inline);
  - `handleTouch`;
  - `connectDXCluster`;
  - the two `while (client.available())` drains;
  - the POST handler;
  - load and save.

What the hardware and its libraries decide comes in as parameters:
- the sampled `millis()`;
- the already mapped touch point, or none;
- whether the transport accepts a connection;
- the lines a socket has available;
- for the POST handler, the outcome of `deserializeJson` on the data that one
  call of the body callback receives, or none when that data does not parse.

Two points of the code's behaviour are easy to misread:

- A stamp of 0 does not mean a run at boot. Every timestamp starts at 0,
  and a task first fires once `millis()` itself has reached its interval.
  On the first pass this means a task runs only if `setup()` took longer
  than that task's interval. For the weather poll that is 10 min. For the
  display refresh it is 1 s, which Wi-Fi association normally exceeds. For
  the first DX reconnect it is 20 s, which a boot with two failed Wi-Fi
  attempts can exceed. `Timing.FirstRunAtBoot` and
  `HamClock.ReconnectScenario` state this.
- There is no `Connecting` state: a connect attempt is one synchronous
  call. Nothing buffers partial lines across passes either. The code reads
  each line with `readStringUntil('\n')`, which returns whatever arrived
  before the stream timeout, so the code can hand over a partial line. The
  model has no connecting state and delivers whole lines only.

The DX keepalive and the reconnect back-off share the single stamp
`lastDxClusterKeepalive`. The stamp moves after every reconnect check that
passes, whether `connectDXCluster` attempts a connection, succeeds or fails.
`HamClock.DxChecksSpaced` proves the resulting spacing over any run of passes.

## Model

| member | source | states |
|---|---|---|
| Timing.Due | src/main.cpp:147 | The guard `now - last >= interval`: a zero interval always passes, an interval of 2^32 or more never does, and a sample equal to its stamp passes only a zero interval. |
| Timing.Mark | src/main.cpp:149 | After a check the stamp is either unchanged or the sampled time. A check the branch does not evaluate leaves it unchanged, and the stamp moves only when the interval has elapsed. |
| Timing.Elapsed | src/main.cpp:147 | The unsigned `now - last` is the distance that takes `last` to `now` around the 2^32 circle (borrowing 2^32 when `now < last`). |
| Timing.ElapsedUnique | src/main.cpp:147 | No other distance below 2^32 takes `last` to `now`, so the wrapped difference is determined by the two samples. |
| Timing.ElapsedAfter | src/main.cpp:147 | A sample taken k < 2^32 ms after `last` is measured as exactly k, across the wrap. |
| Timing.RealElapsed | src/main.cpp:147 | With `millis()` equal to real time modulo 2^32, the unsigned difference of two samples is the real elapsed time modulo 2^32. |
| Timing.DueMeansWaited | src/main.cpp:147-162 | A check that fires has waited at least its interval of real time. |
| Timing.WaitedMeansDue | src/main.cpp:147-162 | A check fires once its interval of real time has passed, as long as less than one wrap (about 49.7 days) has: wrap-around never hides a due task. |
| Timing.FirstRunAtBoot | src/main.cpp:79-82 | With stamps starting at 0, a check fires on a pass exactly when `millis()` has reached the interval. |
| Timing.Openings | src/main.cpp:147-150 | Over a run of passes there is one verdict per pass, and a check only fires in passes that evaluate it. |
| Timing.OpeningsStep | src/main.cpp:147-150 | One pass of a run: its verdict is its own check against the stamp, a firing moves the stamp to the pass's sampled time (otherwise the stamp stays), and the later verdicts are those of the rest of the run from that stamp. |
| Timing.OpeningAfterStamp | src/main.cpp:147-150 | Every firing comes at least its interval of real time after the real moment the stamp was taken. |
| Timing.OpeningsSpaced | src/main.cpp:147-150 | Two firings on one stamp are at least the later one's interval of real time apart, whatever mixture of intervals the passes used. |
| Timing.PeriodicFiringsSpaced | src/main.cpp:147-162 | Any two weather, propagation, POTA or display firings are at least that timer's interval of real time apart. |
| Timing.PeriodicTail | src/main.cpp:147-162 | Dropping the first pass of a run of a timer evaluated every pass leaves the run of the remaining passes. |
| Timing.PeriodicFiresWhenDue | src/main.cpp:147-162 | No pass is skipped: in any run of passes, if no earlier pass came a full interval after the stamp, the first pass that comes at least the interval (and less than one wrap) after it fires. |
| Timing.WeatherScenario | src/main.cpp:147-150 | The weather check fires at 600000 ms and not at 599999; the next firing comes at 1200000. |
| Timing.WrapScenario | src/main.cpp:147 | A stamp 1000 ms before the wrap and a sample at 599000 are 600000 ms apart, so the weather check fires. |
| Navigation.Index | src/main.cpp:60-69 | Each of the eight enumerators has a value below 8. |
| Navigation.FromIndex | src/main.cpp:425-428 | The cast of an in-range integer to `Screen` is the enumerator with that value. |
| Navigation.IndexInjective | src/main.cpp:60-69 | The enumerators have pairwise distinct values. |
| Navigation.Prev | src/main.cpp:425 | "Previous" moves from screen value s to (s - 1 + 8) % 8. |
| Navigation.Next | src/main.cpp:428 | "Next" moves from screen value s to (s + 1) % 8. |
| Navigation.GesturesAreCasts | src/main.cpp:425-428 | Both gestures equal the firmware's cast of the modular formula back to `Screen`. |
| Navigation.WrapAround | src/main.cpp:425-428 | Previous from the clock is the matrix clock, and next from the matrix clock is the clock. |
| Navigation.PrevNextInverse | src/main.cpp:425-428 | Next after previous, and previous after next, are the identity on every screen. |
| Navigation.GesturesMove | src/main.cpp:425-428 | Either gesture always changes the screen. |
| Navigation.ForwardIndex | src/main.cpp:428 | k presses on "next" advance the screen value by k modulo 8. |
| Navigation.PressesBetween | src/main.cpp:428 | For values a, b below 8, (a + (b - a + 8) % 8) % 8 == b: the arithmetic step that `EveryScreenReachable` uses. |
| Navigation.FullCycle | src/main.cpp:428 | Eight presses on "next" return to the starting screen. |
| Navigation.EveryScreenReachable | src/main.cpp:428 | Every screen is reached from every other by fewer than eight presses. |
| Navigation.ZoneOf | src/main.cpp:422-430 | Only a press in the bottom 40 px band is in a corner. The "previous" corner lies left of x = 40. The "next" corner lies right of width - 40 and not left of 40, because the left test comes first. |
| Navigation.Navigate | src/main.cpp:422-430 | A press leaves the screen alone, or moves it to the previous or the next screen. Any press above the bottom band leaves it alone. |
| Navigation.NavigationZones | src/main.cpp:422-430 | A press changes the screen if and only if it is in the bottom 40 px band and in the left or right 40 px margin. The left margin goes back (it wins when both apply), the right one goes forward, and every other press does nothing. |
| Navigation.LandscapeCorners | src/main.cpp:422-430 | On a 320 x 240 panel the bottom corners navigate and the bottom middle and the area above the band do not. |
| Config.Get | src/main.cpp:45-57 | Each configuration global holds a value of its kind: the port, brightness and rotation are ints, the rest strings. |
| Config.Coerce | src/main.cpp:340-355 | A JSON member is converted to the kind of the field it is assigned to. |
| Config.SettingsExtensional | src/main.cpp:45-57 | Two configurations that agree on all thirteen globals are equal. |
| Config.Apply | src/main.cpp:340-355 | The thirteen conditional assignments of the POST handler. A body that contains none of the thirteen member names leaves the configuration unchanged. |
| Config.ApplyChangesExactlyPresentKeys | src/main.cpp:340-355 | A POST sets each field whose member is present to that member, converted to the field's kind, and leaves every other field as it was. |
| Config.ApplyIgnoresOtherKeys | src/main.cpp:340-355 | A body without any of the thirteen member names changes no field. |
| Config.ApplyIdempotent | src/main.cpp:340-355 | Posting the same body twice has the effect of posting it once. |
| Config.JsonKeysDistinct | src/main.cpp:340-355 | The thirteen member names are pairwise distinct, so every field can be set on its own. |
| Config.NvsKeysDistinct | src/main.cpp:232-245 | The thirteen NVS keys are pairwise distinct, so no save of one field overwrites another. |
| Config.Default | src/main.cpp:214-227 | Each load default is of its field's kind. |
| Config.DefaultsAreInitialValues | src/main.cpp:214-227 | The load defaults are the initialisers of the globals: empty strings, port 7300, brightness 128, language "EN", rotation 1. |
| Config.Load | src/main.cpp:214-227 | `loadPreferences`. A store that holds none of the thirteen keys loads the globals' initial values. |
| Config.Persist | src/main.cpp:232-245 | `savePreferences`. Afterwards the store holds an entry under every one of the thirteen keys of the fields. |
| Config.PersistKeys | src/main.cpp:232-245 | After a save the store holds exactly its old keys plus the thirteen keys of the fields: nothing is removed. |
| Config.LoadReadsEachField | src/main.cpp:214-227 | A load reads each field from its own key and falls back to the default when the key is missing or holds the other type. |
| Config.PersistWritesField | src/main.cpp:232-245 | A save writes every field under its own key. |
| Config.NvsKeysOfFields | src/main.cpp:232-245 | The keys a save writes are exactly the keys of the thirteen fields. |
| Config.PersistKeepsOtherKeys | src/main.cpp:232-245 | A save leaves every entry outside those keys as it was. |
| Config.LoadAfterPersist | src/main.cpp:214-245 | A load after a save restores every setting, whatever the store held before. |
| Config.LoadEmpty | src/main.cpp:214-227 | A load from an empty namespace yields the built-in defaults. |
| Config.PersistIdempotent | src/main.cpp:232-245 | A second save of the same settings changes nothing. |
| Config.PostSurvivesRestart | src/main.cpp:355-361 | The configuration a POST saves is the configuration the device loads after the restart the handler triggers. |
| HamClock.DxChecksSpaced | src/main.cpp:164-182 | Over any run of passes, two passes that both act on the shared DX stamp are at least 20 s of real time apart when the later one is a reconnect check, and at least 30 s when it is a keepalive, across wraps. |
| HamClock.ReconnectScenario | src/main.cpp:176-181 | From boot, the first reconnect check passes at 20 s, not at 0, and after it the next one passes at 40 s and not at 39.999 s. |
| HamClock.TakeText | src/main.cpp:340-355 | One string assignment of the POST handler: the field takes the member's string value when the key is present and keeps its value otherwise. |
| HamClock.TakeInt | src/main.cpp:340-355 | One integer assignment of the POST handler: the field takes the member's integer value when the key is present and keeps its value otherwise. |
| HamClock.Device.constructor | src/main.cpp:110-116 | Boot: the stamps are 0 (the initialisers at src/main.cpp:79-82 and the loop's `static lastUpdate` at 138), the screen is the clock (the initialiser at 71), both sockets are closed, and `setup()` then loads the settings from the store (116). |
| HamClock.Device.LoadPreferences | src/main.cpp:214-227 | The settings become the load of the current store. |
| HamClock.Device.SavePreferences | src/main.cpp:232-245 | The store becomes the save of the current settings into the old store. |
| HamClock.Device.PostConfig | src/main.cpp:330-362 | Invalid JSON answers 400 and changes neither the settings nor the store. A parsed body answers 200, applies exactly its present members and saves the result. |
| HamClock.Device.HandleTouch | src/main.cpp:411-438 | One press navigates by its zone: the bottom-left corner goes back, the bottom-right forward, and no press or any other press leaves the screen alone. |
| HamClock.Device.ConnectDXCluster | src/main.cpp:519-534 | Nothing is attempted without a host and a callsign. Otherwise the link is up exactly when the transport accepts, and the callsign line is written exactly once on success and nothing on failure. |
| HamClock.Device.DrainDx | src/main.cpp:171-175 | Every available DX line is read, in order, and none is left. |
| HamClock.Device.DrainAprs | src/main.cpp:185-191 | Every available APRS line is read, in order, and none is left. |
| HamClock.Device.RunPolls | src/main.cpp:146-162 | Each poll fires exactly when due and moves its stamp to `now`, otherwise leaves it. The weather fetch starts exactly when its check fires and the guard at the top of `updateWeather` (src/main.cpp:542-544) passes, that is with a non-empty OpenWeather key and locator; its stamp moves regardless. |
| HamClock.Device.ServiceDx | src/main.cpp:164-182 | Connected: a keepalive exactly when 30 s are due, every line drained, the link kept. Disconnected: nothing read or sent except the callsign after a successful attempt, which happens only with a host, a callsign and 20 s due. The stamp moves by the applicable check. |
| HamClock.Device.ServiceAprs | src/main.cpp:184-191 | Every available APRS line is read and none is left. |
| HamClock.Device.ServiceLinks | src/main.cpp:164-191 | The DX-cluster branch followed by the APRS branch: the DX outcome of `ServiceDx`, and then every available APRS line read with none left. |
| HamClock.Device.Tick | src/main.cpp:137-203 | One pass: the touch navigates, each timer fires exactly when due and then moves its stamp, the DX and APRS branches behave as above, and the pass starts exactly the fetches, connect and draw the due checks call for, in the loop's order. |

## Left out

- Wi-Fi station and access-point setup (src/main.cpp:250-304): driver I/O with delay polling, and a one-time startup step.
- Web server registration, static files, the `/api/status` and GET `/api/config` responses, JSON serialisation and `ESP.restart` (src/main.cpp:306-383). These are library plumbing; only the POST update is modelled, and the restart appears as `Config.PostSurvivesRestart`.
- TFT drawing, backlight PWM, touch-panel setup and the raw-to-pixel `map()` (src/main.cpp:386-409, 416-417, 440-510): foreign hardware libraries. A touch arrives as an already mapped point, and the panel's `width()` and `height()` are constructor parameters.
- HamClock.Device.PostConfig: is one call with the parse outcome of one piece of the body. The firmware's body callback (src/main.cpp:330-332) parses only the `len` bytes of the piece it receives and ignores `index` and `total`. A body that reaches the server in more than one piece is parsed piece by piece: the first piece is incomplete JSON and is answered 400, and the later pieces are parsed on their own. The model does not reassemble pieces; its input is the outcome of parsing a single callback's data.
- HamClock.Device.PostConfig: does not model the `setBacklight` call that a posted brightness triggers (hardware output).
- HamClock.Device.PostConfig: is one atomic step between two passes of the loop. In the firmware the body handler runs in the web server's asynchronous TCP task, concurrently with `loop()`. Its thirteen assignments and `savePreferences()` can therefore interleave with the loop's reads of `dx_cluster_host`, `callsign`, `openweather_key` and `locator`. The loop also keeps running on the new settings during the `delay(1000)` before `ESP.restart()` (src/main.cpp:329-362). The model covers none of these interleavings.
- HamClock.Device.Tick: models the build with `ENABLE_TFT_DISPLAY` defined. Without it, `handleTouch` and `drawScreen` are empty stubs (src/main.cpp:142-144, 195-197, 511-517). In that build a pass never navigates and draws nothing, but the display stamp still moves. The model always navigates on a touch and always emits `Draw` when the display check fires.
- `delay()` calls and the busy-wait for touch release (src/main.cpp:202, 433-436, 528-530): blocking timing only. One touch event is one press.
- The contents of DX and APRS lines, and the stubs `updatePropagation`, `updatePota` and `connectAPRS` (src/main.cpp:536-561): there is no parsing to model. Draining consumes an abstract sequence of lines, and a fetch is an `Action` the pass emits. Nothing in the firmware opens the APRS socket, so `aprsConnected` stays false from boot; the model keeps the drain for a socket that could be open.
- `readStringUntil` timeouts and partial lines: a socket is modelled as delivering whole lines.
- Config.AsText, Config.AsInt: a JSON member of the wrong type converts to "" and 0. ArduinoJson's exact conversions (numbers to strings, numeric strings, floats, booleans, null) are not modelled.
- Config.GetString, Config.GetInt: an NVS entry of the other type reads as missing. Failed writes and a full NVS partition are not modelled.
- Integer settings are unbounded `int`; the 32-bit width of `int` on the ESP32 is not modelled. Only the clock's 32-bit wrap-around matters to the logic here.
- `HamClock.Device.DxPeerClosed`, `DxArrive` and `AprsArrive` stand for the network peer: a closed socket discards what it had buffered and receives nothing.
- copy_user_setup.py, a build hook, and User_Setup.h, pin and font defines, are not part of this model.

/**
 * The firmware's global state and the operations that change it: one pass of
 * the control loop, the touch handler, the DX-cluster connect, the draining
 * of the two sockets, the configuration POST, and the load and save of the
 * preferences.
 *
 * What the hardware and the libraries decide is passed in: the sampled
 * `millis()`, the already mapped touch point (or none), whether the transport
 * accepts a connection, the lines a socket has available, and the outcome
 * of parsing the data one call of the body callback receives (none when that
 * data is not valid JSON).
 */
module HamClock {
  import opened Timing
  import opened Navigation
  import opened Config

  datatype Option<T> = None | Some(value: T)

  /** A press on the panel, in display pixels. */
  datatype Point = Point(x: int, y: int)

  /** Work a pass of the loop starts, in the order it starts it. */
  datatype Action = FetchWeather | FetchPropagation | FetchPota | ConnectDx | Draw(screen: Screen)

  /** The line terminator `println` appends, and on its own the DX keepalive. */
  const CRLF: string := "\r\n"

  /** The guard at the top of `updateWeather`. */
  predicate WeatherConfigured(c: Settings) {
    |c.openweatherKey| > 0 && |c.locator| > 0
  }

  /** The guard at the top of `connectDXCluster`. */
  predicate DxConfigured(c: Settings) {
    |c.dxClusterHost| > 0 && |c.callsign| > 0
  }

  /**
   * The check made on the shared stamp `lastDxClusterKeepalive` in one pass:
   * the keepalive interval while connected, the reconnect back-off (only with
   * a host configured) while not.
   */
  function DxGate(connected: bool, c: Settings, now: Millis): Gate {
    if connected then Gate(now, DX_KEEPALIVE_INTERVAL, true)
    else Gate(now, DX_RECONNECT_INTERVAL, |c.dxClusterHost| > 0)
  }

  /**
   * Whether a pass calls `connectDXCluster` and that call attempts a
   * connection: the link is down, the reconnect check on the stamp `last`
   * fires, and a host and a callsign are configured.
   */
  predicate DxAttempts(connected: bool, last: Millis, c: Settings, now: Millis) {
    !connected && Opens(last, DxGate(false, c, now)) && DxConfigured(c)
  }

  function Emit(b: bool, a: Action): seq<Action> {
    if b then [a] else []
  }

  /** The DX checks of successive passes sampled at real times `ts`. */
  function DxGates(c: Settings, ts: seq<nat>, connected: seq<bool>): seq<Gate>
    requires |connected| == |ts|
  {
    seq(|ts|, k requires 0 <= k < |ts| => DxGate(connected[k], c, ts[k] % MOD))
  }

  /**
   * Over any run of passes, two passes that both act on the DX stamp (a
   * keepalive sent or `connectDXCluster` called) are at least 20 s of real
   * time apart when the later one is a reconnect, and at least 30 s when it is
   * a keepalive, however often the 32-bit clock wrapped.
   */
  lemma DxChecksSpaced(c: Settings, stampTime: nat, ts: seq<nat>, connected: seq<bool>, i: nat, j: nat)
    requires |connected| == |ts| && i < j < |ts| && stampTime <= ts[0]
    requires forall k, l :: 0 <= k < l < |ts| ==> ts[k] <= ts[l]
    requires Openings(stampTime % MOD, DxGates(c, ts, connected))[i]
    requires Openings(stampTime % MOD, DxGates(c, ts, connected))[j]
    ensures !connected[j] ==> ts[j] - ts[i] >= DX_RECONNECT_INTERVAL
    ensures connected[j] ==> ts[j] - ts[i] >= DX_KEEPALIVE_INTERVAL
  {
    var gs := DxGates(c, ts, connected);
    assert SampledFrom(ts, gs);
    OpeningsSpaced(stampTime, ts, gs, i, j);
  }

  /**
   * The reconnect back-off from boot with a host configured: the stamp starts
   * at 0, so the first attempt comes at 20 s, not at 0; a failed attempt at
   * 20 s holds the next one off until 40 s.
   */
  lemma ReconnectScenario(c: Settings)
    requires |c.dxClusterHost| > 0
    ensures !Opens(0, DxGate(false, c, 0)) && !Opens(0, DxGate(false, c, 19999))
    ensures Opens(0, DxGate(false, c, 20000)) && Mark(0, DxGate(false, c, 20000)) == 20000
    ensures !Opens(20000, DxGate(false, c, 39999)) && Opens(20000, DxGate(false, c, 40000))
  {
  }

  /** `if (doc.containsKey(key)) field = doc[key].as<String>();` */
  method TakeText(doc: Document, key: string, current: string) returns (v: string)
    ensures key in doc ==> v == AsText(doc[key])
    ensures key !in doc ==> v == current
    ensures v == TextOr(doc, key, current)
  {
    v := current;
    if key in doc {
      v := AsText(doc[key]);
    }
  }

  /** `if (doc.containsKey(key)) field = doc[key].as<int>();` */
  method TakeInt(doc: Document, key: string, current: int) returns (v: int)
    ensures key in doc ==> v == AsInt(doc[key])
    ensures key !in doc ==> v == current
    ensures v == IntOr(doc, key, current)
  {
    v := current;
    if key in doc {
      v := AsInt(doc[key]);
    }
  }

  class Device {
    /** `tft.width()` and `tft.height()` for the rotation set at boot. */
    const width: int
    const height: int

    /** The configuration globals. */
    var settings: Settings
    /** The "hamclock" preferences namespace. */
    var store: Store
    var currentScreen: Screen

    var lastWeatherUpdate: Millis
    var lastPropagationUpdate: Millis
    var lastPotaUpdate: Millis
    var lastDxClusterKeepalive: Millis
    /** The `static lastUpdate` of the loop: the display refresh stamp. */
    var lastUpdate: Millis

    /** What `dxClusterClient.connected()` reports. */
    var dxConnected: bool
    /** Lines the DX socket has available, oldest first. */
    var dxInbox: seq<string>
    /** Everything written to the DX socket. */
    var dxSent: seq<string>
    /** Lines read from the DX socket and echoed to the console. */
    var dxLog: seq<string>

    var aprsConnected: bool
    var aprsInbox: seq<string>
    var aprsLog: seq<string>

    /** A socket that is not connected has nothing to read. */
    ghost predicate Valid()
      reads this`dxConnected, this`dxInbox, this`aprsConnected, this`aprsInbox
    {
      && (!dxConnected ==> dxInbox == [])
      && (!aprsConnected ==> aprsInbox == [])
    }

    /** `setup()` as far as the core goes: zeroed stamps, the clock screen, preferences loaded. */
    constructor (nvs: Store, width: int, height: int)
      ensures Valid()
      ensures this.width == width && this.height == height
      ensures store == nvs && settings == Load(nvs)
      ensures currentScreen == Clock
      ensures lastWeatherUpdate == 0 && lastPropagationUpdate == 0 && lastPotaUpdate == 0
      ensures lastDxClusterKeepalive == 0 && lastUpdate == 0
      ensures !dxConnected && dxSent == [] && dxLog == []
      ensures !aprsConnected && aprsLog == []
    {
      this.width := width;
      this.height := height;
      settings := INITIAL;
      store := nvs;
      currentScreen := Clock;
      lastWeatherUpdate, lastPropagationUpdate, lastPotaUpdate := 0, 0, 0;
      lastDxClusterKeepalive, lastUpdate := 0, 0;
      dxConnected, dxInbox, dxSent, dxLog := false, [], [], [];
      aprsConnected, aprsInbox, aprsLog := false, [], [];
      new;
      LoadPreferences();
    }

    /** `loadPreferences`: every setting is read back from its key or defaulted. */
    method LoadPreferences()
      modifies this`settings
      ensures settings == Load(store)
    {
      settings := Load(store);
    }

    /** `savePreferences`: every setting is written under its key; other keys keep their entries. */
    method SavePreferences()
      modifies this`store
      ensures store == Persist(old(store), settings)
    {
      store := store["wifi_ssid" := Text(settings.wifiSsid)];
      store := store["wifi_pass" := Text(settings.wifiPassword)];
      store := store["wifi_ssid2" := Text(settings.wifiSsid2)];
      store := store["wifi_pass2" := Text(settings.wifiPassword2)];
      store := store["dx_host" := Text(settings.dxClusterHost)];
      store := store["dx_port" := Number(settings.dxClusterPort)];
      store := store["callsign" := Text(settings.callsign)];
      store := store["locator" := Text(settings.locator)];
      store := store["ow_key" := Text(settings.openweatherKey)];
      store := store["qrz_key" := Text(settings.qrzKey)];
      store := store["brightness" := Number(settings.tftBrightness)];
      store := store["language" := Text(settings.language)];
      store := store["rotation" := Number(settings.tftRotation)];
    }

    /**
     * The body handler of `POST /api/config`. `body` is the outcome of
     * `deserializeJson` on the data of one call of the body callback: `None`
     * for invalid JSON, which is answered 400 and
     * changes nothing; otherwise the present members are applied, the
     * preferences saved and 200 returned.
     */
    method PostConfig(body: Option<Document>) returns (status: int)
      modifies this`settings, this`store
      ensures body.None? ==> status == 400 && settings == old(settings) && store == old(store)
      ensures body.Some? ==> status == 200 && settings == Apply(old(settings), body.value)
      ensures body.Some? ==> store == Persist(old(store), settings)
    {
      if body.None? {
        return 400;
      }
      var doc := body.value;
      var wifiSsid := TakeText(doc, "wifi_ssid", settings.wifiSsid);
      var wifiPassword := TakeText(doc, "wifi_password", settings.wifiPassword);
      var wifiSsid2 := TakeText(doc, "wifi_ssid2", settings.wifiSsid2);
      var wifiPassword2 := TakeText(doc, "wifi_password2", settings.wifiPassword2);
      var dxClusterHost := TakeText(doc, "dx_host", settings.dxClusterHost);
      var dxClusterPort := TakeInt(doc, "dx_port", settings.dxClusterPort);
      var callsign := TakeText(doc, "callsign", settings.callsign);
      var locator := TakeText(doc, "locator", settings.locator);
      var openweatherKey := TakeText(doc, "ow_key", settings.openweatherKey);
      var qrzKey := TakeText(doc, "qrz_key", settings.qrzKey);
      var tftBrightness := TakeInt(doc, "brightness", settings.tftBrightness);
      var language := TakeText(doc, "language", settings.language);
      var tftRotation := TakeInt(doc, "rotation", settings.tftRotation);
      settings := Settings(
        wifiSsid, wifiPassword, wifiSsid2, wifiPassword2, dxClusterHost,
        dxClusterPort, callsign, locator, openweatherKey, qrzKey,
        tftBrightness, language, tftRotation);
      SavePreferences();
      status := 200;
    }

    /**
     * `handleTouch` for one press (`None` when the panel reports no touch):
     * the bottom-left corner goes to the previous screen, the bottom-right
     * corner to the next one, anything else leaves the screen alone.
     */
    method HandleTouch(touch: Option<Point>)
      modifies this`currentScreen
      ensures currentScreen == if touch.Some?
        then Navigate(old(currentScreen), touch.value.x, touch.value.y, width, height)
        else old(currentScreen)
    {
      if touch.Some? {
        var x, y := touch.value.x, touch.value.y;
        if y > height - NAV_MARGIN {
          if x < NAV_MARGIN {
            currentScreen := Prev(currentScreen);
          } else if x > width - NAV_MARGIN {
            currentScreen := Next(currentScreen);
          }
        }
      }
    }

    /**
     * `connectDXCluster`. Without a host or a callsign nothing is attempted.
     * Otherwise `connectOk` is the transport's answer; on success the
     * callsign line is written exactly once, on failure nothing is written.
     */
    method ConnectDXCluster(connectOk: bool) returns (attempted: bool)
      requires Valid()
      modifies this`dxConnected, this`dxInbox, this`dxSent
      ensures Valid()
      ensures attempted == DxConfigured(settings)
      ensures !attempted ==>
        dxConnected == old(dxConnected) && dxInbox == old(dxInbox) && dxSent == old(dxSent)
      ensures attempted ==> dxConnected == connectOk && dxInbox == []
      ensures attempted ==>
        dxSent == old(dxSent) + if connectOk then [settings.callsign + CRLF] else []
    {
      if |settings.dxClusterHost| == 0 || |settings.callsign| == 0 {
        return false;
      }
      attempted := true;
      dxInbox := [];
      if connectOk {
        dxConnected := true;
        dxSent := dxSent + [settings.callsign + CRLF];
      } else {
        dxConnected := false;
      }
    }

    /** `while (dxClusterClient.available())`: every available line is read, in order. */
    method DrainDx()
      modifies this`dxInbox, this`dxLog
      ensures dxInbox == [] && dxLog == old(dxLog) + old(dxInbox)
    {
      while |dxInbox| > 0
        invariant dxLog + dxInbox == old(dxLog) + old(dxInbox)
        decreases |dxInbox|
      {
        var line := dxInbox[0];
        assert dxInbox == [line] + dxInbox[1..];
        dxInbox := dxInbox[1..];
        dxLog := dxLog + [line];
      }
    }

    /** `while (aprsClient.available())`: every available line is read, in order. */
    method DrainAprs()
      modifies this`aprsInbox, this`aprsLog
      ensures aprsInbox == [] && aprsLog == old(aprsLog) + old(aprsInbox)
    {
      while |aprsInbox| > 0
        invariant aprsLog + aprsInbox == old(aprsLog) + old(aprsInbox)
        decreases |aprsInbox|
      {
        var line := aprsInbox[0];
        assert aprsInbox == [line] + aprsInbox[1..];
        aprsInbox := aprsInbox[1..];
        aprsLog := aprsLog + [line];
      }
    }

    /** The transport delivers lines; a closed socket receives nothing. */
    method DxArrive(lines: seq<string>)
      requires Valid()
      modifies this`dxInbox
      ensures Valid()
      ensures dxInbox == if dxConnected then old(dxInbox) + lines else old(dxInbox)
    {
      if dxConnected {
        dxInbox := dxInbox + lines;
      }
    }

    method AprsArrive(lines: seq<string>)
      requires Valid()
      modifies this`aprsInbox
      ensures Valid()
      ensures aprsInbox == if aprsConnected then old(aprsInbox) + lines else old(aprsInbox)
    {
      if aprsConnected {
        aprsInbox := aprsInbox + lines;
      }
    }

    /** The DX peer closes the connection; the next pass sees it disconnected. */
    method DxPeerClosed()
      requires Valid()
      modifies this`dxConnected, this`dxInbox
      ensures Valid()
      ensures !dxConnected && dxInbox == []
    {
      dxConnected, dxInbox := false, [];
    }

    /**
     * The three polls of the loop, returning which fetches were started. Each
     * fires exactly when the 32-bit difference from its stamp reaches its
     * interval, and then moves the stamp to `now`. The weather stamp moves even
     * when `updateWeather` returns early for want of an API key or a locator.
     */
    method RunPolls(now: Millis) returns (weather: bool, propagation: bool, pota: bool)
      modifies this`lastWeatherUpdate, this`lastPropagationUpdate, this`lastPotaUpdate
      ensures lastWeatherUpdate
        == if Due(now, old(lastWeatherUpdate), WEATHER_UPDATE_INTERVAL) then now else old(lastWeatherUpdate)
      ensures lastPropagationUpdate
        == if Due(now, old(lastPropagationUpdate), PROPAGATION_UPDATE_INTERVAL) then now else old(lastPropagationUpdate)
      ensures lastPotaUpdate
        == if Due(now, old(lastPotaUpdate), POTA_UPDATE_INTERVAL) then now else old(lastPotaUpdate)
      ensures weather == (Due(now, old(lastWeatherUpdate), WEATHER_UPDATE_INTERVAL) && WeatherConfigured(settings))
      ensures propagation == Due(now, old(lastPropagationUpdate), PROPAGATION_UPDATE_INTERVAL)
      ensures pota == Due(now, old(lastPotaUpdate), POTA_UPDATE_INTERVAL)
    {
      weather, propagation, pota := false, false, false;
      if Elapsed(now, lastWeatherUpdate) >= WEATHER_UPDATE_INTERVAL {
        if WeatherConfigured(settings) {
          weather := true;
        }
        lastWeatherUpdate := now;
      }
      if Elapsed(now, lastPropagationUpdate) >= PROPAGATION_UPDATE_INTERVAL {
        propagation := true;
        lastPropagationUpdate := now;
      }
      if Elapsed(now, lastPotaUpdate) >= POTA_UPDATE_INTERVAL {
        pota := true;
        lastPotaUpdate := now;
      }
    }

    /**
     * What one pass of the DX-cluster branch does, between the state before
     * it and the state after it, given whether the transport accepts a
     * connection and whether `connectDXCluster` attempted one.
     */
    twostate predicate DxStep(now: Millis, connectOk: bool, attempted: bool)
      reads this`settings, this`dxConnected, this`dxInbox, this`dxSent, this`dxLog, this`lastDxClusterKeepalive
    {
      // the shared stamp moves by the check that applies to the link's state
      && lastDxClusterKeepalive == Mark(old(lastDxClusterKeepalive), DxGate(old(dxConnected), settings, now))
      && attempted == DxAttempts(old(dxConnected), old(lastDxClusterKeepalive), settings, now)
      // connected: keepalive when due, then every available line read; the link stays up
      && (old(dxConnected) ==> dxConnected && dxInbox == [] && dxLog == old(dxLog) + old(dxInbox))
      && (old(dxConnected) ==>
            dxSent == old(dxSent) + if Due(now, old(lastDxClusterKeepalive), DX_KEEPALIVE_INTERVAL) then [CRLF] else [])
      // disconnected: nothing read, no keepalive, at most one connect attempt
      && (!old(dxConnected) ==> dxLog == old(dxLog) && dxInbox == [])
      && (!old(dxConnected) ==>
            && dxConnected == (attempted && connectOk)
            && dxSent == old(dxSent) + if attempted && connectOk then [settings.callsign + CRLF] else [])
    }

    /**
     * The DX-cluster branch of the loop. Connected: a keepalive line when 30 s
     * have passed on the shared stamp, then every available line is read.
     * Not connected: with a host configured and 20 s passed, `connectDXCluster`
     * is called and the stamp moves, whether or not a connection was attempted.
     */
    method ServiceDx(now: Millis, connectOk: bool) returns (attempted: bool)
      requires Valid()
      modifies this`dxConnected, this`dxInbox, this`dxSent, this`dxLog, this`lastDxClusterKeepalive
      ensures Valid()
      ensures DxStep(now, connectOk, attempted)
    {
      attempted := false;
      if dxConnected {
        if Elapsed(now, lastDxClusterKeepalive) >= DX_KEEPALIVE_INTERVAL {
          dxSent := dxSent + [CRLF];
          lastDxClusterKeepalive := now;
        }
        DrainDx();
      } else {
        if |settings.dxClusterHost| > 0 && Elapsed(now, lastDxClusterKeepalive) >= DX_RECONNECT_INTERVAL {
          attempted := ConnectDXCluster(connectOk);
          lastDxClusterKeepalive := now;
        }
      }
    }

    /** The APRS branch of the loop: while connected, every available line is read. */
    method ServiceAprs()
      requires Valid()
      modifies this`aprsInbox, this`aprsLog
      ensures Valid()
      ensures aprsInbox == [] && aprsLog == old(aprsLog) + old(aprsInbox)
    {
      if aprsConnected {
        DrainAprs();
      }
    }

    /** The two socket branches of the loop, DX cluster then APRS. */
    method ServiceLinks(now: Millis, connectOk: bool) returns (attempted: bool)
      requires Valid()
      modifies this`dxConnected, this`dxInbox, this`dxSent, this`dxLog, this`lastDxClusterKeepalive
      modifies this`aprsInbox, this`aprsLog
      ensures Valid()
      ensures DxStep(now, connectOk, attempted)
      ensures aprsInbox == [] && aprsLog == old(aprsLog) + old(aprsInbox)
    {
      attempted := ServiceDx(now, connectOk);
      ServiceAprs();
    }

    /**
     * One pass of `loop()` at the sampled time `now`: the touch, the three
     * polls, the DX cluster, APRS and the display, in that order. Settings,
     * preferences and the APRS link are left alone.
     */
    method Tick(now: Millis, touch: Option<Point>, dxConnectOk: bool) returns (actions: seq<Action>)
      requires Valid()
      modifies this`currentScreen, this`lastWeatherUpdate, this`lastPropagationUpdate, this`lastPotaUpdate
      modifies this`dxConnected, this`dxInbox, this`dxSent, this`dxLog, this`lastDxClusterKeepalive
      modifies this`aprsInbox, this`aprsLog, this`lastUpdate
      ensures Valid()
      ensures currentScreen == if touch.Some?
        then Navigate(old(currentScreen), touch.value.x, touch.value.y, width, height)
        else old(currentScreen)
      ensures lastWeatherUpdate
        == if Due(now, old(lastWeatherUpdate), WEATHER_UPDATE_INTERVAL) then now else old(lastWeatherUpdate)
      ensures lastPropagationUpdate
        == if Due(now, old(lastPropagationUpdate), PROPAGATION_UPDATE_INTERVAL) then now else old(lastPropagationUpdate)
      ensures lastPotaUpdate
        == if Due(now, old(lastPotaUpdate), POTA_UPDATE_INTERVAL) then now else old(lastPotaUpdate)
      ensures lastUpdate
        == if Due(now, old(lastUpdate), DISPLAY_REFRESH_INTERVAL) then now else old(lastUpdate)
      ensures DxStep(now, dxConnectOk, DxAttempts(old(dxConnected), old(lastDxClusterKeepalive), settings, now))
      ensures aprsInbox == [] && aprsLog == old(aprsLog) + old(aprsInbox)
      ensures actions
        == Emit(Due(now, old(lastWeatherUpdate), WEATHER_UPDATE_INTERVAL) && WeatherConfigured(settings), FetchWeather)
        + Emit(Due(now, old(lastPropagationUpdate), PROPAGATION_UPDATE_INTERVAL), FetchPropagation)
        + Emit(Due(now, old(lastPotaUpdate), POTA_UPDATE_INTERVAL), FetchPota)
        + Emit(DxAttempts(old(dxConnected), old(lastDxClusterKeepalive), settings, now), ConnectDx)
        + Emit(Due(now, old(lastUpdate), DISPLAY_REFRESH_INTERVAL), Draw(currentScreen))
    {
      HandleTouch(touch);
      var weather, propagation, pota := RunPolls(now);
      var attempted := ServiceLinks(now, dxConnectOk);
      var drew := Elapsed(now, lastUpdate) >= DISPLAY_REFRESH_INTERVAL;
      if drew {
        lastUpdate := now;
      }
      actions := Emit(weather, FetchWeather) + Emit(propagation, FetchPropagation) + Emit(pota, FetchPota)
        + Emit(attempted, ConnectDx) + Emit(drew, Draw(currentScreen));
    }
  }
}

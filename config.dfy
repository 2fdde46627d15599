/**
 * The device configuration: thirteen string and integer settings, the partial
 * update applied by `POST /api/config`, and the copy to and from the
 * non-volatile key/value store (ESP32 `Preferences`, namespace "hamclock").
 */
module Config {

  /** The thirteen member names the POST handler looks for. */
  const JSON_KEYS: set<string> := {
    "wifi_ssid", "wifi_password", "wifi_ssid2", "wifi_password2", "dx_host", "dx_port", "callsign",
    "locator", "ow_key", "qrz_key", "brightness", "language", "rotation" }

  /** A JSON member value or an NVS entry: the firmware only uses strings and ints. */
  datatype Value = Text(s: string) | Number(n: int)

  /** The configuration globals, in declaration order. */
  datatype Settings = Settings(
    wifiSsid: string,
    wifiPassword: string,
    wifiSsid2: string,
    wifiPassword2: string,
    dxClusterHost: string,
    dxClusterPort: int,
    callsign: string,
    locator: string,
    openweatherKey: string,
    qrzKey: string,
    tftBrightness: int,
    language: string,
    tftRotation: int)

  /** The initialisers of the configuration globals. */
  const INITIAL: Settings :=
    Settings("", "", "", "", "", 7300, "", "", "", "", 128, "EN", 1)

  /** Names the settings one by one, so that statements can range over all of them. */
  datatype Field =
    | WifiSsid | WifiPassword | WifiSsid2 | WifiPassword2 | DxHost | DxPort
    | Callsign | Locator | OwKey | QrzKey | Brightness | Language | Rotation

  predicate IsNumeric(f: Field) {
    f == DxPort || f == Brightness || f == Rotation
  }

  /** A value of the kind the field holds. */
  predicate Fits(f: Field, v: Value) {
    if IsNumeric(f) then v.Number? else v.Text?
  }

  function Get(c: Settings, f: Field): (v: Value)
    ensures Fits(f, v)
  {
    match f
    case WifiSsid => Text(c.wifiSsid)
    case WifiPassword => Text(c.wifiPassword)
    case WifiSsid2 => Text(c.wifiSsid2)
    case WifiPassword2 => Text(c.wifiPassword2)
    case DxHost => Text(c.dxClusterHost)
    case DxPort => Number(c.dxClusterPort)
    case Callsign => Text(c.callsign)
    case Locator => Text(c.locator)
    case OwKey => Text(c.openweatherKey)
    case QrzKey => Text(c.qrzKey)
    case Brightness => Number(c.tftBrightness)
    case Language => Text(c.language)
    case Rotation => Number(c.tftRotation)
  }

  /** Two settings records that agree on every field are the same record. */
  lemma SettingsExtensional(a: Settings, b: Settings)
    requires forall f :: Get(a, f) == Get(b, f)
    ensures a == b
  {
    assert Get(a, WifiSsid) == Get(b, WifiSsid);
    assert Get(a, WifiPassword) == Get(b, WifiPassword);
    assert Get(a, WifiSsid2) == Get(b, WifiSsid2);
    assert Get(a, WifiPassword2) == Get(b, WifiPassword2);
    assert Get(a, DxHost) == Get(b, DxHost);
    assert Get(a, DxPort) == Get(b, DxPort);
    assert Get(a, Callsign) == Get(b, Callsign);
    assert Get(a, Locator) == Get(b, Locator);
    assert Get(a, OwKey) == Get(b, OwKey);
    assert Get(a, QrzKey) == Get(b, QrzKey);
    assert Get(a, Brightness) == Get(b, Brightness);
    assert Get(a, Language) == Get(b, Language);
    assert Get(a, Rotation) == Get(b, Rotation);
  }

  // ---------------------------------------------------------------------
  // POST /api/config
  // ---------------------------------------------------------------------

  /** The member name the POST handler looks for, per field. */
  function JsonKey(f: Field): string {
    match f
    case WifiSsid => "wifi_ssid"
    case WifiPassword => "wifi_password"
    case WifiSsid2 => "wifi_ssid2"
    case WifiPassword2 => "wifi_password2"
    case DxHost => "dx_host"
    case DxPort => "dx_port"
    case Callsign => "callsign"
    case Locator => "locator"
    case OwKey => "ow_key"
    case QrzKey => "qrz_key"
    case Brightness => "brightness"
    case Language => "language"
    case Rotation => "rotation"
  }

  /** A successfully parsed request body: the top-level members of the JSON object. */
  type Document = map<string, Value>

  /** `as<String>()` of a member (a number is read as the empty string here). */
  function AsText(v: Value): string {
    match v
    case Text(s) => s
    case Number(_) => ""
  }

  /** `as<int>()` of a member (a string is read as 0 here). */
  function AsInt(v: Value): int {
    match v
    case Number(n) => n
    case Text(_) => 0
  }

  /** The member converted to the kind the field holds. */
  function Coerce(f: Field, v: Value): (r: Value)
    ensures Fits(f, r)
  {
    if IsNumeric(f) then Number(AsInt(v)) else Text(AsText(v))
  }

  function TextOr(doc: Document, key: string, current: string): string {
    if key in doc then AsText(doc[key]) else current
  }

  function IntOr(doc: Document, key: string, current: int): int {
    if key in doc then AsInt(doc[key]) else current
  }

  /** The thirteen `if (doc.containsKey(...))` assignments of the POST handler. */
  function Apply(c: Settings, doc: Document): (r: Settings)
    ensures doc.Keys !! JSON_KEYS ==> r == c
  {
    Settings(
      TextOr(doc, "wifi_ssid", c.wifiSsid),
      TextOr(doc, "wifi_password", c.wifiPassword),
      TextOr(doc, "wifi_ssid2", c.wifiSsid2),
      TextOr(doc, "wifi_password2", c.wifiPassword2),
      TextOr(doc, "dx_host", c.dxClusterHost),
      IntOr(doc, "dx_port", c.dxClusterPort),
      TextOr(doc, "callsign", c.callsign),
      TextOr(doc, "locator", c.locator),
      TextOr(doc, "ow_key", c.openweatherKey),
      TextOr(doc, "qrz_key", c.qrzKey),
      IntOr(doc, "brightness", c.tftBrightness),
      TextOr(doc, "language", c.language),
      IntOr(doc, "rotation", c.tftRotation))
  }

  /**
   * A POST overwrites exactly the fields whose member is present, each with
   * that member converted to the field's kind, and leaves every other field
   * as it was.
   */
  lemma ApplyChangesExactlyPresentKeys(c: Settings, doc: Document, f: Field)
    ensures Get(Apply(c, doc), f)
      == if JsonKey(f) in doc then Coerce(f, doc[JsonKey(f)]) else Get(c, f)
  {
    match f
    case WifiSsid =>
    case WifiPassword =>
    case WifiSsid2 =>
    case WifiPassword2 =>
    case DxHost =>
    case DxPort =>
    case Callsign =>
    case Locator =>
    case OwKey =>
    case QrzKey =>
    case Brightness =>
    case Language =>
    case Rotation =>
  }

  /** A body without any of the thirteen members changes nothing. */
  lemma ApplyIgnoresOtherKeys(c: Settings, doc: Document)
    requires forall f :: JsonKey(f) !in doc
    ensures Apply(c, doc) == c
  {
    forall f ensures Get(Apply(c, doc), f) == Get(c, f) {
      ApplyChangesExactlyPresentKeys(c, doc, f);
    }
    SettingsExtensional(Apply(c, doc), c);
  }

  /** Posting the same body twice has the effect of posting it once. */
  lemma ApplyIdempotent(c: Settings, doc: Document)
    ensures Apply(Apply(c, doc), doc) == Apply(c, doc)
  {
    var once := Apply(c, doc);
    forall f ensures Get(Apply(once, doc), f) == Get(once, f) {
      ApplyChangesExactlyPresentKeys(once, doc, f);
      ApplyChangesExactlyPresentKeys(c, doc, f);
    }
    SettingsExtensional(Apply(once, doc), once);
  }

  /** Every field can be set through the API: the member names are pairwise distinct. */
  lemma JsonKeysDistinct(f: Field, g: Field)
    requires f != g
    ensures JsonKey(f) != JsonKey(g)
  {
  }

  // ---------------------------------------------------------------------
  // Preferences (NVS)
  // ---------------------------------------------------------------------

  /** The NVS key each field is stored under. */
  function NvsKey(f: Field): string {
    match f
    case WifiSsid => "wifi_ssid"
    case WifiPassword => "wifi_pass"
    case WifiSsid2 => "wifi_ssid2"
    case WifiPassword2 => "wifi_pass2"
    case DxHost => "dx_host"
    case DxPort => "dx_port"
    case Callsign => "callsign"
    case Locator => "locator"
    case OwKey => "ow_key"
    case QrzKey => "qrz_key"
    case Brightness => "brightness"
    case Language => "language"
    case Rotation => "rotation"
  }

  /** Distinct fields are stored under distinct keys, so no save clobbers another field. */
  lemma NvsKeysDistinct(f: Field, g: Field)
    requires f != g
    ensures NvsKey(f) != NvsKey(g)
  {
  }

  /** The contents of the "hamclock" namespace: typed entries by key. */
  type Store = map<string, Value>

  /** `getString(key, default)`: an entry of another type reads as missing. */
  function GetString(store: Store, key: string, default: string): string {
    if key in store && store[key].Text? then store[key].s else default
  }

  /** `getInt(key, default)`. */
  function GetInt(store: Store, key: string, default: int): int {
    if key in store && store[key].Number? then store[key].n else default
  }

  /** The default each `get` call of the load passes, per field. */
  function Default(f: Field): (v: Value)
    ensures Fits(f, v)
  {
    match f
    case DxPort => Number(7300)
    case Brightness => Number(128)
    case Rotation => Number(1)
    case Language => Text("EN")
    case _ => Text("")
  }

  /** The load's defaults coincide with the globals' initialisers. */
  lemma DefaultsAreInitialValues(f: Field)
    ensures Default(f) == Get(INITIAL, f)
  {
  }

  /** `loadPreferences`. */
  function Load(store: Store): (c: Settings)
    ensures store.Keys !! NVS_KEYS ==> c == INITIAL
  {
    Settings(
      GetString(store, "wifi_ssid", ""),
      GetString(store, "wifi_pass", ""),
      GetString(store, "wifi_ssid2", ""),
      GetString(store, "wifi_pass2", ""),
      GetString(store, "dx_host", ""),
      GetInt(store, "dx_port", 7300),
      GetString(store, "callsign", ""),
      GetString(store, "locator", ""),
      GetString(store, "ow_key", ""),
      GetString(store, "qrz_key", ""),
      GetInt(store, "brightness", 128),
      GetString(store, "language", "EN"),
      GetInt(store, "rotation", 1))
  }

  /** `savePreferences`: one `put` per field, in the firmware's order. */
  function Persist(store: Store, c: Settings): (r: Store)
    ensures forall k :: k in NVS_KEYS ==> k in r
  {
    store
      ["wifi_ssid" := Text(c.wifiSsid)]
      ["wifi_pass" := Text(c.wifiPassword)]
      ["wifi_ssid2" := Text(c.wifiSsid2)]
      ["wifi_pass2" := Text(c.wifiPassword2)]
      ["dx_host" := Text(c.dxClusterHost)]
      ["dx_port" := Number(c.dxClusterPort)]
      ["callsign" := Text(c.callsign)]
      ["locator" := Text(c.locator)]
      ["ow_key" := Text(c.openweatherKey)]
      ["qrz_key" := Text(c.qrzKey)]
      ["brightness" := Number(c.tftBrightness)]
      ["language" := Text(c.language)]
      ["rotation" := Number(c.tftRotation)]
  }

  /**
   * Loading reads each field from its own key, falling back to the field's
   * default when the key is missing or holds an entry of the other type.
   */
  lemma LoadReadsEachField(store: Store, f: Field)
    ensures Get(Load(store), f)
      == if NvsKey(f) in store && Fits(f, store[NvsKey(f)]) then store[NvsKey(f)] else Default(f)
  {
    match f
    case WifiSsid =>
    case WifiPassword =>
    case WifiSsid2 =>
    case WifiPassword2 =>
    case DxHost =>
    case DxPort =>
    case Callsign =>
    case Locator =>
    case OwKey =>
    case QrzKey =>
    case Brightness =>
    case Language =>
    case Rotation =>
  }

  /** Saving writes every field under its own key. */
  lemma PersistWritesField(store: Store, c: Settings, f: Field)
    ensures NvsKey(f) in Persist(store, c) && Persist(store, c)[NvsKey(f)] == Get(c, f)
  {
    match f
    case WifiSsid =>
    case WifiPassword =>
    case WifiSsid2 =>
    case WifiPassword2 =>
    case DxHost =>
    case DxPort =>
    case Callsign =>
    case Locator =>
    case OwKey =>
    case QrzKey =>
    case Brightness =>
    case Language =>
    case Rotation =>
  }

  /** The thirteen keys of the namespace the firmware uses. */
  const NVS_KEYS: set<string> := {
    "wifi_ssid", "wifi_pass", "wifi_ssid2", "wifi_pass2", "dx_host", "dx_port", "callsign",
    "locator", "ow_key", "qrz_key", "brightness", "language", "rotation" }

  /** `NVS_KEYS` holds exactly the keys of the fields. */
  lemma NvsKeysOfFields(k: string)
    ensures k in NVS_KEYS <==> exists f :: NvsKey(f) == k
  {
    if k in NVS_KEYS {
      var f :| f in [WifiSsid, WifiPassword, WifiSsid2, WifiPassword2, DxHost, DxPort, Callsign,
                     Locator, OwKey, QrzKey, Brightness, Language, Rotation] && NvsKey(f) == k;
    }
  }

  /** Saving leaves every entry outside the firmware's keys as it was. */
  lemma PersistKeepsOtherKeys(store: Store, c: Settings, k: string)
    requires k !in NVS_KEYS
    ensures k in Persist(store, c) <==> k in store
    ensures k in store ==> Persist(store, c)[k] == store[k]
  {
  }

  /** A save adds exactly the firmware's keys to the namespace and removes none. */
  lemma PersistKeys(store: Store, c: Settings)
    ensures Persist(store, c).Keys == store.Keys + NVS_KEYS
  {
  }

  /** A load after a save restores every setting, whatever the store held before. */
  lemma LoadAfterPersist(store: Store, c: Settings)
    ensures Load(Persist(store, c)) == c
  {
    var r := Persist(store, c);
    forall f ensures Get(Load(r), f) == Get(c, f) {
      PersistWritesField(store, c, f);
      LoadReadsEachField(r, f);
    }
    SettingsExtensional(Load(r), c);
  }

  /** A first boot with an empty namespace yields the built-in defaults. */
  lemma LoadEmpty()
    ensures Load(map[]) == INITIAL
    ensures var c := Load(map[]);
      && c.dxClusterPort == 7300 && c.tftBrightness == 128 && c.language == "EN"
      && c.tftRotation == 1 && c.dxClusterHost == "" && c.callsign == ""
  {
  }

  /** Saving is idempotent: a second save of the same settings changes nothing. */
  lemma PersistIdempotent(store: Store, c: Settings)
    ensures Persist(Persist(store, c), c) == Persist(store, c)
  {
  }

  /** The configuration a POST leaves behind is the one the device boots with after its restart. */
  lemma PostSurvivesRestart(store: Store, c: Settings, doc: Document)
    ensures Load(Persist(store, Apply(c, doc))) == Apply(c, doc)
  {
    LoadAfterPersist(store, Apply(c, doc));
  }
}

/** The decision logic of WebInterface.cpp: validating and dispatching a
    control command, merging a posted settings document field by field, and
    the reset and calibrate requests.  A parsed JSON body is a map from keys
    to values; a body that does not parse is `None`. */
module Web {
  import opened Config
  import opened Devices
  import Storage

  datatype Value = Number(x: real) | Text(s: string) | Flag(b: bool) | Null

  type Document = map<string, Value>

  /** HTTP status codes the handlers answer with. */
  const OK: int := 200
  const BAD_REQUEST: int := 400

  // ===== Reading values out of a document =====
  // The JSON library is not part of this model; these conversions are the
  // model's reading of it: a number converts to a number or a boolean, a
  // boolean to 1 or 0, and anything else to zero, false or the empty string.

  function AsReal(v: Value): real
  {
    match v
    case Number(x) => x
    case Flag(b) => if b then 1.0 else 0.0
    case _ => 0.0
  }

  /** A number stored into an `int` field is truncated toward zero. */
  function AsInt(v: Value): int
  {
    TruncReal(AsReal(v))
  }

  function AsBool(v: Value): bool
  {
    match v
    case Flag(b) => b
    case Number(x) => x != 0.0
    case _ => false
  }

  function AsText(v: Value): string
  {
    if v.Text? then v.s else ""
  }

  /** The C string a `char*` designates: everything before the first NUL. */
  function CString(s: string): (r: string)
    ensures r <= s && '\0' !in r
    ensures |r| < |s| ==> s[|r|] == '\0'
    ensures '\0' !in s ==> r == s
  {
    if s == [] || s[0] == '\0' then [] else [s[0]] + CString(s[1..])
  }

  /** `strlcpy(dst, src, size)`: at most `size - 1` characters of the C
      string `src`, always terminated. */
  function Strlcpy(src: string, size: nat): (r: string)
    requires size > 0
    ensures |r| < size && r <= CString(src)
    ensures |CString(src)| < size ==> r == CString(src)
    ensures |CString(src)| >= size ==> r == CString(src)[..size - 1]
  {
    var c := CString(src);
    if |c| < size then c else c[..size - 1]
  }

  // ===== Control commands =====

  const LOGIC_DEVICES: set<string> := {"pump", "fan", "heater", "light"}

  /** validateControlCommand.  `state` is a `bool`, promoted to 0 or 1
      before it is compared with 0 and 90. */
  function ValidateControlCommand(device: string, state: bool): (ok: bool)
    ensures ok <==> device in LOGIC_DEVICES || (device == "door" && !state)
  {
    if device == "pump" || device == "fan" || device == "heater" || device == "light" then true
    else if device == "door" then BoolToInt(state) == 0 || BoolToInt(state) == 90
    else false
  }

  /** The command applyControlCommand issues for a device it knows.  The
      door angle `state ? 90 : 0` passes through controlDoor's `bool`
      parameter, so the servo gets 1 or 0 degrees. */
  function CommandFor(device: string, state: bool): Option<Command>
  {
    if device == "pump" then Some(PumpCmd(state, 0))
    else if device == "fan" then Some(FanCmd(state))
    else if device == "heater" then Some(HeaterCmd(state))
    else if device == "light" then Some(LightCmd(state))
    else if device == "door" then Some(DoorCmd(BoolToInt(IntToBool(if state then 90 else 0))))
    else None
  }

  /** Every accepted command names a device applyControlCommand knows, the
      door is only ever accepted closing, and a web request can never open it. */
  lemma {:induction false} AcceptedCommands(device: string, state: bool)
    ensures ValidateControlCommand(device, state) ==> CommandFor(device, state).Some?
    ensures !ValidateControlCommand("door", true)
    ensures ValidateControlCommand(device, state) && device == "door" ==> CommandFor(device, state) == Some(DoorCmd(0))
    ensures CommandFor("door", true) == Some(DoorCmd(1))
  {
    assert ValidateControlCommand(device, state) ==> device in LOGIC_DEVICES || device == "door";
  }

  /** The device and state of a control request: the body must parse and
      hold both keys. */
  function ControlRequest(doc: Option<Document>): Option<(string, bool)>
  {
    if doc.None? || "device" !in doc.value || "state" !in doc.value then None
    else Some((AsText(doc.value["device"]), AsBool(doc.value["state"])))
  }

  // ===== Settings documents =====

  const SETTINGS_KEYS: set<string> := {"tempSetpoint", "humSetpoint", "soilMoistureSetpoint",
    "lightOnHour", "lightOffHour", "automationEnabled", "wifiSSID", "wifiPassword"}

  /** The settings after the POST branch of handleSettings has copied every
      recognised key of `doc` into its field. */
  function MergeSettings(s: SystemSettings, doc: Document): SystemSettings
  {
    MergeCredentials(MergeSetpoints(s, doc), doc)
  }

  function MergeSetpoints(s: SystemSettings, doc: Document): SystemSettings
  {
    s.(tempSetpoint := if "tempSetpoint" in doc then AsReal(doc["tempSetpoint"]) else s.tempSetpoint,
       humSetpoint := if "humSetpoint" in doc then AsReal(doc["humSetpoint"]) else s.humSetpoint,
       soilMoistureSetpoint := if "soilMoistureSetpoint" in doc then AsReal(doc["soilMoistureSetpoint"])
                               else s.soilMoistureSetpoint,
       lightOnHour := if "lightOnHour" in doc then AsInt(doc["lightOnHour"]) else s.lightOnHour,
       lightOffHour := if "lightOffHour" in doc then AsInt(doc["lightOffHour"]) else s.lightOffHour,
       automationEnabled := if "automationEnabled" in doc then AsBool(doc["automationEnabled"])
                            else s.automationEnabled)
  }

  function MergeCredentials(s: SystemSettings, doc: Document): SystemSettings
  {
    s.(wifiSSID := if "wifiSSID" in doc then Strlcpy(AsText(doc["wifiSSID"]), WIFI_FIELD_SIZE) else s.wifiSSID,
       wifiPassword := if "wifiPassword" in doc then Strlcpy(AsText(doc["wifiPassword"]), WIFI_FIELD_SIZE)
                       else s.wifiPassword)
  }

  /** A document without any recognised key changes nothing; the version,
      brightness and clock format are never touched by a POST. */
  lemma {:induction false} MergeKeepsUnmentioned(s: SystemSettings, doc: Document)
    ensures SETTINGS_KEYS * doc.Keys == {} ==> MergeSettings(s, doc) == s
    ensures var r := MergeSettings(s, doc);
      r.version == s.version && r.displayBrightness == s.displayBrightness && r.use24HourFormat == s.use24HourFormat
  {
    if SETTINGS_KEYS * doc.Keys == {} {
      forall k | k in SETTINGS_KEYS
        ensures k !in doc
      {
        assert k in SETTINGS_KEYS * doc.Keys <==> k in doc;
      }
    }
  }

  /** Posted setpoints and hours are stored as sent, with no range check;
      the hours are truncated toward zero. */
  lemma PostedSetpointUnchecked(s: SystemSettings, doc: Document)
    ensures var r := MergeSettings(s, doc);
      && ("tempSetpoint" in doc ==> r.tempSetpoint == AsReal(doc["tempSetpoint"]))
      && ("humSetpoint" in doc ==> r.humSetpoint == AsReal(doc["humSetpoint"]))
      && ("soilMoistureSetpoint" in doc ==> r.soilMoistureSetpoint == AsReal(doc["soilMoistureSetpoint"]))
      && ("lightOnHour" in doc ==> r.lightOnHour == TruncReal(AsReal(doc["lightOnHour"])))
      && ("lightOffHour" in doc ==> r.lightOffHour == TruncReal(AsReal(doc["lightOffHour"])))
  {
  }

  /** So a POST the handler accepts can leave settings that
      validateSettings rejects: a temperature setpoint of 100, or an hour
      of 24, from any valid settings. */
  lemma PostCanInvalidateSettings(s: SystemSettings)
    requires Storage.ValidateSettings(s)
    ensures Storage.ValidateSettings(MergeSettings(s, map[]))
    ensures !Storage.ValidateSettings(MergeSettings(s, map["tempSetpoint" := Number(100.0)]))
    ensures !Storage.ValidateSettings(MergeSettings(s, map["lightOffHour" := Number(24.5)]))
    ensures SETTINGS_KEYS * map["tempSetpoint" := Number(100.0)].Keys != {}
  {
    assert "tempSetpoint" in SETTINGS_KEYS * map["tempSetpoint" := Number(100.0)].Keys;
    assert MergeSettings(s, map[]) == s;
  }

  /** The stored SSID and password are the first min(len, 31) characters
      of the posted C strings. */
  lemma PostedCredentialsTruncated(s: SystemSettings, doc: Document)
    ensures var r := MergeSettings(s, doc);
      && ("wifiSSID" in doc ==>
            var c := CString(AsText(doc["wifiSSID"]));
            r.wifiSSID == if |c| < WIFI_FIELD_SIZE then c else c[..WIFI_FIELD_SIZE - 1])
      && ("wifiPassword" in doc ==>
            var c := CString(AsText(doc["wifiPassword"]));
            r.wifiPassword == if |c| < WIFI_FIELD_SIZE then c else c[..WIFI_FIELD_SIZE - 1])
  {
  }

  /** handleReset. */
  function ResetSettings(s: SystemSettings, kind: string): Option<SystemSettings>
  {
    if kind == "settings" then Some(DefaultSettings())
    else if kind == "wifi" then Some(s.(wifiSSID := Strlcpy("", WIFI_FIELD_SIZE), wifiPassword := Strlcpy("", WIFI_FIELD_SIZE)))
    else None
  }

  /** A wifi reset empties the credentials and keeps every other field. */
  lemma WifiResetKeepsRest(s: SystemSettings)
    ensures ResetSettings(s, "wifi") == Some(s.(wifiSSID := "", wifiPassword := ""))
  {
  }

  class WebInterface {
    /** The global systemSettings. */
    var settings: SystemSettings
    /** The global deviceManager. */
    const devices: DeviceManager

    constructor(s: SystemSettings, d: DeviceManager)
      ensures settings == s && devices == d
    {
      settings := s;
      devices := d;
    }

    /** applyControlCommand. */
    method ApplyControlCommand(device: string, state: bool)
      modifies devices`data, devices`issued, devices`pumpAutoStop, devices`pumpStartTime, devices`pumpDuration
      ensures var cmd := CommandFor(device, state);
        && devices.issued == old(devices.issued) + (if cmd.Some? then [cmd.value] else [])
        && devices.data == (if cmd.Some? then Apply(old(devices.data), cmd.value) else old(devices.data))
      ensures unchanged(devices`pumpStartTime, devices`pumpDuration)
      ensures device == "pump" ==> !devices.pumpAutoStop
      ensures device != "pump" ==> devices.pumpAutoStop == old(devices.pumpAutoStop)
    {
      if device == "pump" {
        // the one-argument controlPump never arms the auto-stop, so it never reads the clock
        devices.ControlPump(0, state);
      } else if device == "fan" {
        devices.ControlFan(state);
      } else if device == "heater" {
        devices.ControlHeater(state);
      } else if device == "light" {
        devices.ControlLight(state);
      } else if device == "door" {
        devices.ControlDoor(IntToBool(if state then 90 else 0));
      }
    }

    /** handleControl: 400 and no command for a body that does not parse,
        lacks `device` or `state`, or fails validation. */
    method HandleControl(doc: Option<Document>) returns (status: int)
      modifies devices`data, devices`issued, devices`pumpAutoStop, devices`pumpStartTime, devices`pumpDuration
      ensures var req := ControlRequest(doc);
        var accepted := req.Some? && ValidateControlCommand(req.value.0, req.value.1);
        && status == (if accepted then OK else BAD_REQUEST)
        && (accepted ==> devices.issued == old(devices.issued) + [CommandFor(req.value.0, req.value.1).value]
                         && devices.data == Apply(old(devices.data), CommandFor(req.value.0, req.value.1).value))
        && (accepted && req.value.0 == "pump" ==> !devices.pumpAutoStop)
        && (!(accepted && req.value.0 == "pump") ==> devices.pumpAutoStop == old(devices.pumpAutoStop))
        && (!accepted ==> devices.issued == old(devices.issued) && devices.data == old(devices.data))
      ensures unchanged(devices`pumpStartTime, devices`pumpDuration)
    {
      if doc.None? {
        return BAD_REQUEST;
      }
      if "device" !in doc.value || "state" !in doc.value {
        return BAD_REQUEST;
      }
      var device := AsText(doc.value["device"]);
      var state := AsBool(doc.value["state"]);
      if !ValidateControlCommand(device, state) {
        return BAD_REQUEST;
      }
      AcceptedCommands(device, state);
      ApplyControlCommand(device, state);
      return OK;
    }

    /** The POST branch of handleSettings: 400 for a body that does not
        parse; otherwise every recognised key is copied, and the answer is
        200 exactly when there was one. */
    method HandleSettingsPost(doc: Option<Document>) returns (status: int)
      modifies this`settings
      ensures doc.None? ==> status == BAD_REQUEST && settings == old(settings)
      ensures doc.Some? ==> settings == MergeSettings(old(settings), doc.value)
      ensures doc.Some? ==> (status == OK <==> SETTINGS_KEYS * doc.value.Keys != {})
      ensures status == OK || status == BAD_REQUEST
    {
      if doc.None? {
        return BAD_REQUEST;
      }
      var updated := CopySetpoints(doc.value);
      var credentials := CopyCredentials(doc.value);
      updated := updated || credentials;
      KeysPresent(doc.value);
      status := if updated then OK else BAD_REQUEST;
    }

    /** The first six copies of handleSettings: setpoints, light hours and
        the automation switch. */
    method CopySetpoints(d: Document) returns (updated: bool)
      modifies this`settings
      ensures settings == MergeSetpoints(old(settings), d)
      ensures updated <==> ("tempSetpoint" in d || "humSetpoint" in d || "soilMoistureSetpoint" in d
        || "lightOnHour" in d || "lightOffHour" in d || "automationEnabled" in d)
    {
      var s := settings;
      var tempSetpoint, humSetpoint, soilMoistureSetpoint, lightOnHour, lightOffHour, automationEnabled :=
        s.tempSetpoint, s.humSetpoint, s.soilMoistureSetpoint, s.lightOnHour, s.lightOffHour, s.automationEnabled;
      updated := false;
      if "tempSetpoint" in d {
        tempSetpoint := AsReal(d["tempSetpoint"]);
        updated := true;
      }
      if "humSetpoint" in d {
        humSetpoint := AsReal(d["humSetpoint"]);
        updated := true;
      }
      if "soilMoistureSetpoint" in d {
        soilMoistureSetpoint := AsReal(d["soilMoistureSetpoint"]);
        updated := true;
      }
      if "lightOnHour" in d {
        lightOnHour := AsInt(d["lightOnHour"]);
        updated := true;
      }
      if "lightOffHour" in d {
        lightOffHour := AsInt(d["lightOffHour"]);
        updated := true;
      }
      if "automationEnabled" in d {
        automationEnabled := AsBool(d["automationEnabled"]);
        updated := true;
      }
      settings := s.(tempSetpoint := tempSetpoint, humSetpoint := humSetpoint, soilMoistureSetpoint := soilMoistureSetpoint, lightOnHour := lightOnHour, lightOffHour := lightOffHour, automationEnabled := automationEnabled);
    }

    /** The last two copies of handleSettings, truncated by `strlcpy`. */
    method CopyCredentials(d: Document) returns (updated: bool)
      modifies this`settings
      ensures settings == MergeCredentials(old(settings), d)
      ensures updated <==> ("wifiSSID" in d || "wifiPassword" in d)
    {
      var s := settings;
      var wifiSSID, wifiPassword := s.wifiSSID, s.wifiPassword;
      updated := false;
      if "wifiSSID" in d {
        wifiSSID := Strlcpy(AsText(d["wifiSSID"]), WIFI_FIELD_SIZE);
        updated := true;
      }
      if "wifiPassword" in d {
        wifiPassword := Strlcpy(AsText(d["wifiPassword"]), WIFI_FIELD_SIZE);
        updated := true;
      }
      settings := s.(wifiSSID := wifiSSID, wifiPassword := wifiPassword);
    }

    /** handleReset: `settings` restores every default, `wifi` empties the
        credentials, anything else is refused and changes nothing. */
    method HandleReset(kind: string) returns (status: int)
      modifies this`settings
      ensures kind == "settings" ==> status == OK && settings == DefaultSettings()
      ensures kind == "wifi" ==> status == OK && settings == old(settings).(wifiSSID := "", wifiPassword := "")
      ensures kind != "settings" && kind != "wifi" ==> status == BAD_REQUEST && settings == old(settings)
      ensures ResetSettings(old(settings), kind).Some? ==> status == OK && settings == ResetSettings(old(settings), kind).value
      ensures ResetSettings(old(settings), kind).None? ==> status == BAD_REQUEST && settings == old(settings)
    {
      if kind == "settings" {
        settings := DefaultSettings();
        status := OK;
      } else if kind == "wifi" {
        settings := settings.(wifiSSID := Strlcpy("", WIFI_FIELD_SIZE));
        settings := settings.(wifiPassword := Strlcpy("", WIFI_FIELD_SIZE));
        status := OK;
      } else {
        status := BAD_REQUEST;
      }
    }

    /** handleCalibrate: `raw` is the ADC reading calibrateSoilSensor takes. */
    method HandleCalibrate(kind: string, raw: int) returns (status: int)
      modifies devices`config
      ensures kind == "air" ==> status == OK && devices.config == old(devices.config).(soilAirValue := raw)
      ensures kind == "water" ==> status == OK && devices.config == old(devices.config).(soilWaterValue := raw)
      ensures kind != "air" && kind != "water" ==> status == BAD_REQUEST && devices.config == old(devices.config)
    {
      if kind == "air" {
        devices.CalibrateSoilSensor(false, raw);
        status := OK;
      } else if kind == "water" {
        devices.CalibrateSoilSensor(true, raw);
        status := OK;
      } else {
        status := BAD_REQUEST;
      }
    }
  }

  /** Some recognised key is in `d` exactly when one of the eight tests of
      handleSettings succeeds. */
  lemma KeysPresent(d: Document)
    ensures SETTINGS_KEYS * d.Keys != {} <==>
      "tempSetpoint" in d || "humSetpoint" in d || "soilMoistureSetpoint" in d || "lightOnHour" in d
      || "lightOffHour" in d || "automationEnabled" in d || "wifiSSID" in d || "wifiPassword" in d
  {
    if "tempSetpoint" in d { assert "tempSetpoint" in SETTINGS_KEYS * d.Keys; }
    if "humSetpoint" in d { assert "humSetpoint" in SETTINGS_KEYS * d.Keys; }
    if "soilMoistureSetpoint" in d { assert "soilMoistureSetpoint" in SETTINGS_KEYS * d.Keys; }
    if "lightOnHour" in d { assert "lightOnHour" in SETTINGS_KEYS * d.Keys; }
    if "lightOffHour" in d { assert "lightOffHour" in SETTINGS_KEYS * d.Keys; }
    if "automationEnabled" in d { assert "automationEnabled" in SETTINGS_KEYS * d.Keys; }
    if "wifiSSID" in d { assert "wifiSSID" in SETTINGS_KEYS * d.Keys; }
    if "wifiPassword" in d { assert "wifiPassword" in SETTINGS_KEYS * d.Keys; }
    if SETTINGS_KEYS * d.Keys != {} {
      var k :| k in SETTINGS_KEYS * d.Keys;
    }
  }
}

# Greenhouse controller core, modelled in Dafny

The firmware runs on an ESP32 and looks after a small greenhouse. It reads an
air sensor (BME280: temperature, humidity, pressure), a light sensor (BH1750) and two
analogue soil probes (moisture and temperature). It switches a pump, a fan, a
heater, a light and a door servo. It keeps its settings in EEPROM and takes
commands and settings over HTTP. This project models the logic around the
hardware. Every bus transaction, driver `begin`/`read`, ADC sample and
`millis()` reading becomes an input of the operation that makes it.

The source is C++. Its modules map to Dafny modules as follows:

- `Config` (Config.dfy) holds the records and defaults of Config.h and its constants.
  It also holds the C and Arduino arithmetic the firmware relies on:
  - `uint16_t` wrap-around;
  - elapsed `millis()` as 32-bit unsigned subtraction;
  - truncating division and truncating float-to-int casts;
  - `map` with the ESP32 core's `-1` for an empty input range;
  - `constrain`;
  - `bool`/integer conversions.
- `Devices` (Devices.dfy) is DeviceManager.h/.cpp, written as class `Devices.DeviceManager`.
  - The global `deviceConfig` and `sensorData` become its fields `config` and `data`.
  - The static `lastRediscovery` becomes a field.
  - A ghost log, `issued`, records every actuator command in order.
  - Beside the class are the functions that specify a read cycle, a health check and a rediscovery.
- `AutomationRules` (Automation.dfy) is Automation.cpp.
  - Each of the five rules gets a function giving the commands it issues.
  - The class `Automation` runs the rules against a `DeviceManager` and keeps `lastPumpRun`.
- `Storage` (Storage.dfy) is EEPROMManager.cpp. The EEPROM is one cell holding a settings record, and the answer from `commit()` is an input.
- `Web` (Web.dfy) is the decision and merge logic of WebInterface.cpp. A parsed JSON body is a `map<string, Value>`, or `None` when it does not parse.
- `AltDevices` (AltDevices.dfy) is the second, conflicting `DeviceManager` defined in DisplayManager.cpp.

Where the code and its design description disagree, the model follows the code:

- The fan is written by three rules, and the last write wins. An "on" vote does not win by default.
- A temperature inside the hysteresis band commands both the fan and the heater off.
- A sensor becomes unhealthy when its counter goes strictly above the limit. That is the 6th failure for the BME280 and BH1750 and the 11th for the soil sensors.
- A present but unhealthy I2C device is re-initialised on every read cycle, with no cooldown.
- Every timing comparison is strict (`>`).
- `SensorData` in Config.h lacks `pressure`, `heaterState` and `systemHealthy`. DeviceManager.cpp writes all three, so the model adds them.

## Model

| member | source | states |
|---|---|---|
| Config.U32Sub | DeviceManager.cpp:373-378 | elapsed time between two `millis()` readings is the 32-bit unsigned difference, correct across one wrap-around |
| Config.U16Inc | DeviceManager.h:44-46 | incrementing a `uint16_t` counter wraps from 65535 to 0 |
| Config.BoolToInt | DeviceManager.h:18 | a `bool` promoted to an integer converts back to the same `bool` |
| Config.TruncReal | WebInterface.cpp:149-158 | a float stored into an `int` is truncated toward zero: same sign, magnitude within 1 below |
| Config.Constrain | DisplayManager.cpp:134-136 | `constrain` lies in [lo, hi], is the identity inside it, gives lo below it and hi above it |
| Config.DefaultSensorDataEmpty | Config.h:25-36 | a default `SensorData` has every reading missing and every actuator off |
| Devices.KnownDeviceNames | DeviceManager.cpp:79-92 | the known-device table names a BME280 exactly at 0x76/0x77 and a BH1750 exactly at 0x23 |
| Devices.ApplyAllAppend | DeviceManager.cpp:414-461 | applying two command batches in turn equals applying their concatenation |
| Devices.SensorDataSplit | Config.h:25-36 | a sensor record is determined by its readings together with its actuator flags |
| Devices.ApplyAllKeepsReadings | DeviceManager.cpp:414-461 | actuator commands never change a reading, the door sensor or the health flag |
| Devices.ConsecutiveFailures | DeviceManager.cpp:284-293 | k failed reads in a row add k to the counter; the flag survives exactly while the counter stays at or below the limit |
| Devices.UnhealthyOnFailureAfterLimit | DeviceManager.cpp:284-293 | from a clean start the flag clears on failure limit+1 and not before |
| Devices.RecoveredDeviceFailsFast | DeviceManager.cpp:246-251 | a re-initialised device keeps its counter above the limit, so its next failed read clears the flag again |
| Devices.TrackNeverHeals | DeviceManager.cpp:284-293 | no read sets the health flag; the counter is 0 after a read iff the read succeeded or the counter wrapped |
| Devices.SoilWindows | DeviceManager.cpp:208 | the soil window (100, 3995) is non-empty and inside [0, 4095]; the health check rejects less than a read does, and 100 and 3995 pass the check but fail a read |
| Devices.SoilMoistureFromRaw | DeviceManager.cpp:317-320 | mapped soil moisture (`Config.ArduinoMap`, with C truncating division `Config.TruncDiv`, then `constrain`) is always a percentage in [0, 100] |
| Devices.MoistureNonIncreasing | DeviceManager.cpp:317-319 | with the air value above the water value, moisture never rises as the raw value rises (`Config.ArduinoMap` over `Config.TruncDiv` is non-increasing for a falling input range) |
| Devices.DefaultCalibrationNonIncreasing | Config.h:51-52 | the default calibration 2800/1200 is such a falling range |
| Devices.DefaultConfigUnhealthy | Config.h:38-58 | a default `DeviceConfig` has both addresses 0, all three flags false, and system health false |
| Devices.SoilTemperatureIncreasing | DeviceManager.cpp:330-331 | the soil temperature conversion rises strictly with the raw value and stays within about -35..562 degrees for accepted raw values |
| Devices.CycleKeepsActuators | DeviceManager.cpp:244-273 | a read cycle never switches an actuator |
| Devices.CycleWithoutDevices | DeviceManager.cpp:244-273 | with no device present and healthy, a read cycle only samples the door |
| Devices.CycleSoil | DeviceManager.cpp:313-338 | soil moisture changes iff the soil sensors are readable and the raw value lies in (100, 3995), and then to a value in [0, 100] |
| Devices.RecoveryAsymmetry | DeviceManager.cpp:244-264 | unhealthy soil sensors stay unhealthy through any read cycle; a present, unhealthy BME280 takes its `begin` result as its flag and keeps its counter |
| Devices.RediscoveryOutcome | DeviceManager.cpp:386-412 | after a rediscovery each device is healthy iff present; a present I2C device has a nonzero address and a successful `begin`; an address is only replaced by a responding one, never cleared; calibration is kept |
| Devices.RediscoveryRateLimited | DeviceManager.cpp:340-378 | a rediscovery at `now` blocks another at the same instant; a failing soil check alone never triggers one |
| Devices.DeviceManager.constructor | DeviceManager.h:39-46 | a fresh manager has all counters 0, auto-stop off, pump timer 0, not initialised, default records, empty command log |
| Devices.DeviceManager.DiscoverI2CDevices | DeviceManager.cpp:69-140 | the found count is the number of responders in 1..126; the BME280 address becomes the later responder of 0x76/0x77, the BH1750 address 0x23 if it responds; otherwise both addresses are kept |
| Devices.DeviceManager.InitializeDetectedDevices | DeviceManager.cpp:155-201 | a remembered address has its device's presence and health set to its `begin` result |
| Devices.DeviceManager.InitializeSoilSensors | DeviceManager.cpp:203-218 | soil sensors are present and healthy iff the raw reading lies in (100, 3995) |
| Devices.DeviceManager.Begin | DeviceManager.cpp:19-47 | scan, initialise the found devices and the soil sensors, send the door to its neutral angle (which arrives as 1), mark initialised |
| Devices.DeviceManager.RediscoverDevices | DeviceManager.cpp:386-412 | the configuration becomes `Rediscovered` of the old one |
| Devices.DeviceManager.ReadBME280 | DeviceManager.cpp:275-294 | with all three values present they are stored and the counter resets; otherwise readings stay, the counter increments and health clears iff it exceeds 5 |
| Devices.DeviceManager.ReadBH1750 | DeviceManager.cpp:296-311 | a lux value is accepted iff present and in [0, 65535]; otherwise the same reset/increment/above-5 rule |
| Devices.DeviceManager.ReadSoilSensors | DeviceManager.cpp:313-338 | raw moisture accepted iff in (100, 3995), stored as the clamped mapped percentage; failures increment the counter, health clears above 10; a bad soil temperature never touches the counter |
| Devices.DeviceManager.ReadOrRecoverBME280 | DeviceManager.cpp:246-251 | a present, healthy BME280 is read; a present, unhealthy one is not read and takes one `begin` result as its flag |
| Devices.DeviceManager.ReadOrRecoverBH1750 | DeviceManager.cpp:254-259 | the same for the BH1750 |
| Devices.DeviceManager.ReadSoilIfHealthy | DeviceManager.cpp:262-264 | the soil sensors are read only while present and healthy |
| Devices.DeviceManager.ReadLightAndSoil | DeviceManager.cpp:254-264 | the BH1750 step followed by the soil step |
| Devices.DeviceManager.ReadEachDevice | DeviceManager.cpp:244-264 | the three device steps in order; readings equal `ReadingsCycle` of the old state |
| Devices.DeviceManager.ReadAllSensors | DeviceManager.cpp:244-273 | each device's counter and flag follow its cycle function; readings become `SensorCycle` of the old state; system health is the AND of the three flags afterwards |
| Devices.DeviceManager.CheckEachDevice | DeviceManager.cpp:340-370 | each probe clears only its own flag; a rediscovery is requested iff a BME280 or BH1750 probe failed |
| Devices.DeviceManager.CheckDeviceHealth | DeviceManager.cpp:340-384 | rediscovery happens iff an I2C probe failed and more than 300000 ms passed (32-bit unsigned); then `now` is recorded; system health is the AND of the three flags |
| Devices.DeviceManager.ControlPump | DeviceManager.cpp:414-427 | the pump state becomes the argument; auto-stop is armed with start `now` and the duration iff the pump goes on with a duration above 0; the default duration 0 never arms it |
| Devices.DeviceManager.ControlFan | DeviceManager.cpp:429-433 | sets exactly the fan flag |
| Devices.DeviceManager.ControlHeater | DeviceManager.cpp:435-439 | sets exactly the heater flag |
| Devices.DeviceManager.ControlLight | DeviceManager.cpp:441-454 | sets exactly the light flag |
| Devices.DeviceManager.ControlDoor | DeviceManager.cpp:456-461 | the servo is sent 0 or 1 degree, whatever angle the caller meant |
| Devices.DeviceManager.StopAllDevices | DeviceManager.cpp:463-469 | pump, fan, heater and light off, auto-stop disarmed |
| Devices.DeviceManager.CalibrateSoilSensor | DeviceManager.cpp:471-481 | the raw reading becomes the water or the air calibration value, and nothing else changes |
| AutomationRules.TemperatureEffect | Automation.cpp:15-35 | the temperature rule votes fan on / heater off above the band, the reverse below it, both off inside it, and nothing for a missing reading |
| AutomationRules.HumidityEffect | Automation.cpp:37-51 | the humidity rule votes the fan on above the band and off below it, and changes nothing inside it or for a missing reading |
| AutomationRules.SoilEffect | Automation.cpp:53-67 | the soil rule only ever switches the pump on, exactly when watering is due |
| AutomationRules.VentilationEffect | Automation.cpp:80-87 | the ventilation rule only ever switches the fan on, exactly when t > 28 and h > 70 are both present |
| AutomationRules.ProcessEffect | Automation.cpp:5-13 | the final fan follows ventilation, else humidity, else temperature; the heater only the temperature rule; the pump only goes on; the light follows the schedule; no reading changes |
| AutomationRules.DisabledCommandsNothing | Automation.cpp:5-6 | with automation disabled, process issues no command |
| AutomationRules.PumpOnlyStarts | Automation.cpp:53-67 | the only pump command is "on for 5000 ms", issued iff automation is on and watering is due |
| AutomationRules.MissingMoistureNeverWaters | Automation.cpp:54 | a missing moisture reading never waters |
| AutomationRules.NoRepeatWatering | Automation.cpp:61-64 | a second call at the instant of the last watering never waters again |
| AutomationRules.InvertedScheduleKeepsLightOff | Automation.cpp:69-78 | with offHour <= onHour the light is commanded off at every hour |
| AutomationRules.DryAirOverridesHeat | Automation.cpp:8-12 | air below the humidity band leaves the fan off even when the temperature rule switched it on |
| AutomationRules.Automation.constructor | Automation.cpp:53-67 | a fresh automation has never watered and keeps the given cooldown |
| AutomationRules.Automation.Process | Automation.cpp:5-13 | the commands issued and the new actuator state are exactly those of the five rules in order; `lastPumpRun` and the pump timer change iff watering was due |
| AutomationRules.Automation.ControlClimate | Automation.cpp:8-9 | the temperature rule then the humidity rule |
| AutomationRules.Automation.ControlRest | Automation.cpp:10-12 | the soil, lighting and ventilation rules in order |
| AutomationRules.Automation.ControlDaylightAndAir | Automation.cpp:11-12 | the lighting rule then the ventilation rule |
| AutomationRules.Automation.ControlTemperature | Automation.cpp:15-35 | issues exactly the temperature rule's commands |
| AutomationRules.Automation.ControlHumidity | Automation.cpp:37-51 | issues exactly the humidity rule's commands |
| AutomationRules.Automation.ControlSoilMoisture | Automation.cpp:53-67 | waters for 5000 ms iff moisture is present, below setpoint - 5, and more than the cooldown has passed (32-bit unsigned); then records `now` and arms the auto-stop |
| AutomationRules.Automation.ControlLighting | Automation.cpp:69-78 | the light goes on iff lightOnHour <= hour < lightOffHour |
| AutomationRules.Automation.ControlVentilation | Automation.cpp:80-87 | issues exactly the ventilation rule's commands |
| Storage.ValidateSettings | EEPROMManager.cpp:51-74 | valid iff version 3, temperature in [10, 40], humidity in [20, 90], soil in [10, 90], both hours in [0, 23] |
| Storage.DefaultSettingsValid | Config.h:11-23 | the default settings pass every check |
| Storage.OldVersionsInvalid | EEPROMManager.cpp:52-54 | a record of any other version never validates |
| Storage.MigrationRepairsVersion | EEPROMManager.cpp:76-89 | migrating an in-range version 1 or 2 record yields a valid one |
| Storage.EepromManager.constructor | EEPROMManager.cpp:5-8 | the manager starts with what the EEPROM holds |
| Storage.EepromManager.LoadSettings | EEPROMManager.cpp:10-31 | true iff the stored record is valid; the out-parameter holds the stored record either way; the migration branch is unreachable and storage is never rewritten |
| Storage.EepromManager.SaveSettings | EEPROMManager.cpp:33-49 | invalid settings: false, storage unchanged; valid ones: stored, and the commit outcome returned |
| Storage.EepromManager.ResetToDefaults | EEPROMManager.cpp:98-102 | storage holds the defaults |
| Storage.EepromManager.MigrateSettings | EEPROMManager.cpp:76-96 | version 1 falls through to version 2 (brightness 7, 24-hour format, soil 50, version 3); version 2 sets only soil 50 and version 3; any other version leaves the record and resets storage to defaults |
| Storage.EepromManager.SaveThenLoad | EEPROMManager.cpp:10-49 | a save of valid settings followed by a load answers true and returns them, whatever the commit answered |
| Web.CString | WebInterface.cpp:164-172 | the C string is the prefix ending at the first NUL: a NUL-free prefix followed by a NUL or the end, the whole string when it has none |
| Web.Strlcpy | WebInterface.cpp:164-172 | `strlcpy` keeps the whole C string when it has fewer than `size` characters, and exactly its first `size - 1` otherwise |
| Web.ValidateControlCommand | WebInterface.cpp:595-603 | accepted iff pump, fan, heater or light with either state, or door with state false |
| Web.AcceptedCommands | WebInterface.cpp:595-616 | every accepted device has a command; the door is never accepted opening, an accepted door command sends 0 degrees, and the opening command would send 1 |
| Web.MergeKeepsUnmentioned | WebInterface.cpp:133-173 | a document without recognised keys changes nothing; version, brightness and clock format are never touched |
| Web.PostedSetpointUnchecked | WebInterface.cpp:134-158 | every posted setpoint is stored as sent and every posted hour truncated toward zero, for any document, without a range check |
| Web.PostCanInvalidateSettings | WebInterface.cpp:133-179 | a POST the handler accepts (a temperature setpoint of 100, or an hour of 24) leaves settings that `validateSettings` rejects, starting from any valid settings |
| Web.PostedCredentialsTruncated | WebInterface.cpp:164-172 | the stored SSID and password are exactly the first min(len, 31) characters of the posted C strings |
| Web.WifiResetKeepsRest | WebInterface.cpp:245-248 | a wifi reset (`Web.ResetSettings`) empties the credentials and keeps every other field |
| Web.KeysPresent | WebInterface.cpp:133-173 | some recognised key is present iff one of the eight key tests succeeds |
| Web.WebInterface.constructor | WebInterface.h:10 | the interface holds the given settings and device manager |
| Web.WebInterface.ApplyControlCommand | WebInterface.cpp:605-616 | exactly one command for a known device and none otherwise; the pump is switched without arming its auto-stop; the door gets 1 or 0 degrees |
| Web.WebInterface.HandleControl | WebInterface.cpp:183-215 | 400 and no command or state change for a body that does not parse, a missing key or a failed validation; otherwise 200, the one command and its effect on the actuator flags; auto-stop disarmed by an accepted pump command and otherwise kept; pump timer untouched |
| Web.WebInterface.HandleSettingsPost | WebInterface.cpp:118-180 | 400 and no change for an unparsable body; otherwise every recognised key overwrites its own field, and the answer is 200 iff one was present |
| Web.WebInterface.CopySetpoints | WebInterface.cpp:133-163 | the six numeric and boolean keys are copied; `updated` iff one was present |
| Web.WebInterface.CopyCredentials | WebInterface.cpp:164-173 | the two credentials are copied through `strlcpy`; `updated` iff one was present |
| Web.WebInterface.HandleReset | WebInterface.cpp:237-252 | `settings` restores every default, `wifi` empties only the credentials, anything else answers 400 and changes nothing (the choice `Web.ResetSettings` states) |
| Web.WebInterface.HandleCalibrate | WebInterface.cpp:222-235 | `air` and `water` set their calibration value from the reading; anything else answers 400 and changes nothing |
| AltDevices.SoilMoistureInRange | DisplayManager.cpp:109-112 | `AltDevices.SoilMoisture`, i.e. `map(raw, 0, 4095, 0, 100)`, lies in [0, 100] for every raw value in [0, 4095] |
| AltDevices.SoilMoistureOutsideRange | DisplayManager.cpp:109-112 | outside the ADC range the map leaves [0, 100], so the soil check is vacuous only because of the hardware |
| AltDevices.DeviceManager.constructor | DisplayManager.cpp:4-7 | the records and the servo start as given; the display shows temperature first and has shown nothing |
| AltDevices.DeviceManager.Begin | DisplayManager.cpp:9-36 | success and system health equal BME280 ok AND BH1750 ok; display and LED strip are healthy |
| AltDevices.DeviceManager.ReadBME280 | DisplayManager.cpp:83-89 | readings are overwritten, unchecked and with pressure in hPa, only while the BME280 is healthy |
| AltDevices.DeviceManager.ReadBH1750 | DisplayManager.cpp:91-95 | the light level is overwritten only while the BH1750 is healthy |
| AltDevices.DeviceManager.ReadSoilSensors | DisplayManager.cpp:97-107 | moisture (`AltDevices.SoilMoisture`) and soil temperature (`AltDevices.SoilTemperature`) are stored; soil health is whether the moisture is in [0, 100], hence true for every ADC value |
| AltDevices.DeviceManager.ReadAllSensors | DisplayManager.cpp:69-81 | temperature, humidity and pressure (in hPa) are overwritten only while the BME280 is healthy, light only while the BH1750 is; soil moisture and temperature always; system health is the AND of the three flags; the update time is `now`; actuator flags untouched |
| AltDevices.DeviceManager.CheckDeviceHealth | DisplayManager.cpp:168-183 | the `begin` results become the I2C flags, the soil flag is recomputed, system health is their AND, and equals the I2C AND for every ADC value |
| AltDevices.DeviceManager.SetHeater | DisplayManager.cpp:114-117 | sets exactly the heater flag |
| AltDevices.DeviceManager.SetLight | DisplayManager.cpp:119-122 | sets exactly the light flag |
| AltDevices.DeviceManager.SetVentilation | DisplayManager.cpp:124-127 | sets exactly the ventilation flag |
| AltDevices.DeviceManager.SetWaterPump | DisplayManager.cpp:129-132 | sets exactly the water pump flag |
| AltDevices.DeviceManager.SetServo | DisplayManager.cpp:134-136 | the servo angle is `constrain(angle, 0, 180)` |
| AltDevices.DeviceManager.UpdateDisplay | DisplayManager.cpp:138-155 | a healthy display shows the temperature; more than 2000 ms after the last change it then shows the value `showTemp` selected before the flip (the temperature again while `showTemp` is set, otherwise the humidity), flips the flag and records `now`; otherwise the flag and time stay |

## Left out

- Hardware access is not modelled: `Wire`, the sensor drivers, `analogRead`/`digitalRead`/`digitalWrite`, `Servo`, `FastLED`, the TM1637 display, `delay`. Their results are method inputs, and their effects are the ghost command log (`issued`, `shown`).
- Logging through `Serial`, `getDeviceSummary`, `printSettings` and `identifyUnknownDevice` are left out. They only build and print text.
- `initializePins` and `initializeLEDMatrix` are left out. They only configure pins and play an LED test pattern.
- `isSystemHealthy` in both managers is left out. It only returns the `systemHealthy` field, which the model exposes directly.
- `setLedColor` of the alternate manager is left out. It only writes LED colours.
- The HTTP routing, HTML/JSON payloads, response sending and ArduinoJson parsing are left out. A parsed body is given as a map. `AsReal`, `AsInt`, `AsBool` and `AsText` are this model's reading of the library's conversions.
- Web.Strlcpy: the limit of 31 counts characters, while `strlcpy` counts bytes. A non-ASCII SSID or password is cut later in the model than in the firmware, and the firmware can split a UTF-8 sequence; strings have no byte encoding here.
- Web.MergeCredentials: a `wifiSSID` or `wifiPassword` value that is not a string makes the firmware pass a null pointer to `strlcpy`, which is undefined behaviour. The model stores the empty string (through `Web.AsText`).
- Web.AsInt: a posted hour is truncated into an unbounded integer. The firmware's conversion into a C `int` has no such value for an out-of-range number, and that case is not modelled.
- The EEPROM byte layout and `EEPROM.begin`/`get`/`put` are left out. Storage is one record cell, and `commit()`'s answer is an input.
- Floating point is modelled as `real`, with NaN as `None`. No other IEEE corner case is modelled. In particular, a NaN setpoint that the firmware's comparisons would let through `validateSettings` is not represented.
- `checkDeviceHealth` calls `millis()` twice, once for the test and once for the update. Both calls are modelled as the same instant `now`, and so are the two in the alternate `updateDisplay`.
- `PUMP_COOLDOWN` and `lastPumpRun` are used by Automation.cpp, but Automation.h declares neither. The cooldown is a constructor parameter. `lastPumpRun` starts at 0 (AutomationRules.Automation.constructor), so the first watering waits until `now` exceeds the cooldown; the source gives no initial value.
- The current hour is a parameter of `Process`; the firmware fixes it at 12.
- `Automation.Process` reads its snapshot `datum` as a separate value. The firmware passes `sensorData` itself, which none of the rules' commands modify.
- `controlPump` reads `millis()`; here the caller passes it as `now`. Nothing in the repository's sources reads the auto-stop fields after `controlPump` writes them, so nothing switches the pump off when the duration runs out.
- AltDevices.DeviceManager.constructor: DisplayManager.cpp includes DeviceManager.h, whose class declares no `display`, `pins`, `sensorData` or `deviceHealth` members, so the defaults of the alternate manager's records are nowhere in the source; they are parameters.
- The alternate manager records `lastUpdate` as `now`. The soil temperature is converted on reals rather than in `float`.

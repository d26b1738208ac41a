/** DeviceManager.h and DeviceManager.cpp: sensor health tracking, I2C
    discovery and actuator commands.  Every hardware call (Wire
    transactions, driver `begin`/`read`, `analogRead`, `digitalRead`,
    `millis()`) is an input of the method that makes it. */
module Devices {
  import opened Config

  const BME280_ERROR_LIMIT: nat := 5
  const BH1750_ERROR_LIMIT: nat := 5
  const SOIL_ERROR_LIMIT: nat := 10
  /** Minimum time between two rediscoveries, in ms. */
  const REDISCOVERY_INTERVAL: U32 := 300000
  /** Raw soil ADC values within this margin of either end of the range are rejected. */
  const SOIL_RAW_MARGIN: int := 100
  const LUX_MAX: real := 65535.0
  /** The angle `begin` asks the door servo for. */
  const DOOR_NEUTRAL: int := 90
  /** The scan probes the addresses FIRST_I2C_ADDRESS up to, not including, I2C_ADDRESS_END. */
  const FIRST_I2C_ADDRESS: int := 1
  const I2C_ADDRESS_END: int := 127

  // ===== Known I2C devices =====

  datatype KnownDevice = KnownDevice(address: U8, name: string)

  const KNOWN_DEVICES: seq<KnownDevice> := [
    KnownDevice(0x23, "BH1750"),
    KnownDevice(0x27, "LCD1602"),
    KnownDevice(0x3C, "OLED"),
    KnownDevice(0x3D, "OLED"),
    KnownDevice(0x40, "SHT30"),
    KnownDevice(0x48, "ADS1115"),
    KnownDevice(0x4E, "PCF8574"),
    KnownDevice(0x50, "EEPROM"),
    KnownDevice(0x68, "DS3231"),
    KnownDevice(0x70, "PCA9685"),
    KnownDevice(0x76, "BME280"),
    KnownDevice(0x77, "BME280")]

  /** The table names a BME280 exactly at 0x76 and 0x77 and a BH1750 exactly at 0x23. */
  lemma KnownDeviceNames(k: int)
    requires 0 <= k < |KNOWN_DEVICES|
    ensures KNOWN_DEVICES[k].name == "BME280" <==> KNOWN_DEVICES[k].address in {0x76, 0x77}
    ensures KNOWN_DEVICES[k].name == "BH1750" <==> KNOWN_DEVICES[k].address == 0x23
  {
    if k < 6 {
      assert k in {0, 1, 2, 3, 4, 5};
    } else {
      assert k in {6, 7, 8, 9, 10, 11};
    }
  }

  /** The responders among the scanned addresses below `upto`. */
  function Responding(responders: set<int>, upto: int): set<int>
  {
    set a | FIRST_I2C_ADDRESS <= a < upto && a in responders
  }

  /** The BME280 address after scanning the addresses below `upto`: the later
      responder of 0x76 and 0x77, or the address remembered before. */
  function ScannedBme(responders: set<int>, upto: int, prev: U8): U8
  {
    if 0x77 < upto && 0x77 in responders then 0x77
    else if 0x76 < upto && 0x76 in responders then 0x76
    else prev
  }

  /** The BH1750 address after scanning the addresses below `upto`. */
  function ScannedBh(responders: set<int>, upto: int, prev: U8): U8
  {
    if 0x23 < upto && 0x23 in responders then 0x23 else prev
  }

  /** The configuration after a full scan. */
  function Scanned(c: DeviceConfig, responders: set<int>): DeviceConfig
  {
    c.(bme280Address := ScannedBme(responders, I2C_ADDRESS_END, c.bme280Address),
       bh1750Address := ScannedBh(responders, I2C_ADDRESS_END, c.bh1750Address))
  }

  // ===== Commands issued to the actuators =====

  /** One call of controlPump, controlFan, controlHeater, controlLight or
      controlDoor; for the door, the angle actually written to the servo. */
  datatype Command =
    | PumpCmd(on: bool, duration: U32)
    | FanCmd(on: bool)
    | HeaterCmd(on: bool)
    | LightCmd(on: bool)
    | DoorCmd(degrees: int)

  /** What a command does to the actuator flags of `sensorData`; a door
      command changes none of them. */
  function Apply(d: SensorData, c: Command): SensorData
  {
    d.(pumpState := if c.PumpCmd? then c.on else d.pumpState,
       fanState := if c.FanCmd? then c.on else d.fanState,
       heaterState := if c.HeaterCmd? then c.on else d.heaterState,
       lightState := if c.LightCmd? then c.on else d.lightState)
  }

  /** The commands applied in order: a later command wins. */
  function ApplyAll(d: SensorData, cs: seq<Command>): SensorData
    decreases |cs|
  {
    if cs == [] then d else ApplyAll(Apply(d, cs[0]), cs[1..])
  }

  /** Applying two batches in turn is applying their concatenation. */
  lemma {:induction false} ApplyAllAppend(d: SensorData, a: seq<Command>, b: seq<Command>)
    ensures ApplyAll(d, a + b) == ApplyAll(ApplyAll(d, a), b)
    decreases |a|
  {
    if a == [] {
      assert a + b == b;
    } else {
      assert (a + b)[0] == a[0];
      assert (a + b)[1..] == a[1..] + b;
      ApplyAllAppend(Apply(d, a[0]), a[1..], b);
    }
  }

  /** The actuator flags of `sensorData`. */
  datatype Actuators = Actuators(pump: bool, fan: bool, heater: bool, light: bool)

  function ActuatorsOf(d: SensorData): Actuators
  {
    Actuators(d.pumpState, d.fanState, d.heaterState, d.lightState)
  }

  /** Everything in `sensorData` but the actuator flags. */
  datatype Readings = Readings(
    airTemperature: Option<real>, airHumidity: Option<real>, soilMoisture: Option<real>,
    soilTemperature: Option<real>, lightLevel: Option<real>, pressure: Option<real>,
    doorState: bool, systemHealthy: bool)

  function ReadingsOf(d: SensorData): Readings
  {
    Readings(d.airTemperature, d.airHumidity, d.soilMoisture, d.soilTemperature,
             d.lightLevel, d.pressure, d.doorState, d.systemHealthy)
  }

  /** A record is its readings together with its actuator flags. */
  lemma SensorDataSplit(d: SensorData, e: SensorData)
    requires ReadingsOf(d) == ReadingsOf(e) && ActuatorsOf(d) == ActuatorsOf(e)
    ensures d == e
  {
  }

  lemma ApplyKeepsReadings(d: SensorData, c: Command)
    ensures ReadingsOf(Apply(d, c)) == ReadingsOf(d)
  {
  }

  /** Commands never touch a reading, the door sensor or the health flag. */
  lemma {:induction false} ApplyAllKeepsReadings(d: SensorData, cs: seq<Command>)
    decreases |cs|
    ensures ReadingsOf(ApplyAll(d, cs)) == ReadingsOf(d)
  {
    if cs != [] {
      ApplyKeepsReadings(d, cs[0]);
      ApplyAllKeepsReadings(Apply(d, cs[0]), cs[1..]);
    }
  }

  // ===== Health tracking =====

  /** A device's consecutive-error counter and its health flag.  The counter
      lives in DeviceManager, the flag in `deviceConfig`. */
  datatype Health = Health(errors: U16, healthy: bool)

  /** One read outcome: success clears the counter; failure increments it
      (as a `uint16_t`) and clears the flag once it exceeds `limit`. */
  function Track(h: Health, ok: bool, limit: nat): Health
  {
    var e := if ok then 0 else U16Inc(h.errors);
    Health(e, h.healthy && (ok || e <= limit))
  }

  /** `k` failed reads in a row. */
  function Failures(h: Health, k: nat, limit: nat): Health
  {
    if k == 0 then h else Track(Failures(h, k - 1, limit), false, limit)
  }

  /** Below the wrap-around, k failures add k to the counter, and the flag
      survives exactly while the counter stays at or below the limit. */
  lemma {:induction false} ConsecutiveFailures(h: Health, k: nat, limit: nat)
    requires h.errors + k < 0x1_0000
    ensures Failures(h, k, limit) == Health(h.errors + k, h.healthy && (k == 0 || h.errors + k <= limit))
  {
    if k > 0 {
      ConsecutiveFailures(h, k - 1, limit);
    }
  }

  /** From a clean start, the health flag clears on the (limit+1)-th failure
      in a row and not before: the sixth for BME280 and BH1750, the eleventh
      for the soil sensors. */
  lemma UnhealthyOnFailureAfterLimit(limit: nat)
    requires limit < 0xFFFF
    ensures Failures(Health(0, true), limit, limit).healthy
    ensures !Failures(Health(0, true), limit + 1, limit).healthy
  {
    ConsecutiveFailures(Health(0, true), limit, limit);
    ConsecutiveFailures(Health(0, true), limit + 1, limit);
  }

  /** A re-initialisation sets the flag but leaves the counter above the
      limit, so the very next failed read clears the flag again. */
  lemma RecoveredDeviceFailsFast(h: Health, limit: nat)
    requires limit < h.errors < 0xFFFF
    ensures !Track(h.(healthy := true), false, limit).healthy
  {
  }

  /** Only a successful read resets the counter, and no read ever sets the
      flag; after 65536 failures in a row the counter wraps to 0 while the
      flag stays cleared. */
  lemma TrackNeverHeals(h: Health, ok: bool, limit: nat)
    ensures Track(h, ok, limit).healthy ==> h.healthy
    ensures Track(h, ok, limit).errors == 0 <==> ok || h.errors == 0xFFFF
  {
  }

  // ===== Readings =====

  /** The raw soil window of readSoilSensors and initializeSoilSensors. */
  predicate SoilRawValid(raw: int)
  {
    raw > SOIL_RAW_MARGIN && raw < SOIL_ADC_MAX - SOIL_RAW_MARGIN
  }

  /** The test checkDeviceHealth applies: its window includes both bounds. */
  predicate SoilCheckFails(raw: int)
  {
    raw < SOIL_RAW_MARGIN || raw > SOIL_ADC_MAX - SOIL_RAW_MARGIN
  }

  /** The window (100, 3995) is non-empty and inside the 12-bit ADC range;
      the health check rejects a subset of what a read rejects, and the two
      boundary values pass the check but fail the read. */
  lemma SoilWindows()
    ensures SoilRawValid(101) && SoilRawValid(3994)
    ensures forall raw :: SoilRawValid(raw) ==> 0 <= raw <= SOIL_ADC_MAX
    ensures forall raw :: SoilCheckFails(raw) ==> !SoilRawValid(raw)
    ensures !SoilRawValid(100) && !SoilCheckFails(100)
    ensures !SoilRawValid(3995) && !SoilCheckFails(3995)
  {
  }

  predicate LuxValid(lux: Option<real>)
  {
    lux.Some? && lux.value >= 0.0 && lux.value <= LUX_MAX
  }

  predicate EnvValid(t: Option<real>, h: Option<real>, p: Option<real>)
  {
    t.Some? && h.Some? && p.Some?
  }

  /** Moisture in percent: `map(raw, air, water, 0, 100)` clamped to [0, 100]. */
  function SoilMoistureFromRaw(raw: int, air: int, water: int): (m: int)
    ensures 0 <= m <= 100
  {
    Constrain(ArduinoMap(raw, air, water, 0, 100), 0, 100)
  }

  /** With the air value above the water value, moisture never rises with the raw value. */
  lemma MoistureNonIncreasing(r1: int, r2: int, air: int, water: int)
    requires r1 <= r2 && air > water
    ensures SoilMoistureFromRaw(r2, air, water) <= SoilMoistureFromRaw(r1, air, water)
  {
    MapNonIncreasing(r1, r2, air, water, 0, 100);
    ConstrainMonotone(ArduinoMap(r2, air, water, 0, 100), ArduinoMap(r1, air, water, 0, 100), 0, 100);
  }

  /** The default calibration (air 2800, water 1200) is such a falling range. */
  lemma DefaultCalibrationNonIncreasing(r1: int, r2: int)
    requires r1 <= r2
    ensures var c := DefaultDeviceConfig();
      c.soilAirValue > c.soilWaterValue &&
      SoilMoistureFromRaw(r2, c.soilAirValue, c.soilWaterValue) <= SoilMoistureFromRaw(r1, c.soilAirValue, c.soilWaterValue)
  {
    MoistureNonIncreasing(r1, r2, 2800, 1200);
  }

  predicate SystemHealthy(c: DeviceConfig)
  {
    c.bme280Healthy && c.bh1750Healthy && c.soilSensorsHealthy
  }

  /** A default DeviceConfig knows no address and no healthy device. */
  lemma DefaultConfigUnhealthy()
    ensures var c := DefaultDeviceConfig();
      c.bme280Address == 0 && c.bh1750Address == 0 &&
      !c.bme280Healthy && !c.bh1750Healthy && !c.soilSensorsHealthy && !SystemHealthy(c)
  {
  }

  predicate BmeReadable(c: DeviceConfig) { c.hasBME280 && c.bme280Healthy }
  predicate BhReadable(c: DeviceConfig) { c.hasBH1750 && c.bh1750Healthy }
  predicate SoilReadable(c: DeviceConfig) { c.hasSoilSensors && c.soilSensorsHealthy }

  /** The BME280's three values are stored, when `ok`, together. */
  function StoreEnvironment(d: SensorData, ok: bool, t: Option<real>, h: Option<real>, p: Option<real>): SensorData
  {
    d.(airTemperature := if ok then t else d.airTemperature,
       airHumidity := if ok then h else d.airHumidity,
       pressure := if ok then p else d.pressure)
  }

  function StoreLight(d: SensorData, ok: bool, lux: Option<real>): SensorData
  {
    d.(lightLevel := if ok then lux else d.lightLevel)
  }

  /** Soil temperature in degrees Celsius: `(raw / 4095 * 6.27 - 0.5) * 100`
      (on reals; the firmware computes in `float`). */
  function SoilTemperatureFromRaw(raw: int): real
  {
    ((raw as real / SOIL_ADC_MAX as real * SOIL_TEMP_CONVERSION) - 0.5) * 100.0
  }

  /** The conversion rises strictly with the raw value, and a raw value in
      the accepted window gives a temperature between about -35 and 562 degrees. */
  lemma SoilTemperatureIncreasing(r1: int, r2: int)
    requires r1 < r2
    ensures SoilTemperatureFromRaw(r1) < SoilTemperatureFromRaw(r2)
    ensures SoilRawValid(r1) ==> SoilTemperatureFromRaw(r1) > -35.0
    ensures SoilRawValid(r2) ==> SoilTemperatureFromRaw(r2) < 562.0
  {
  }

  /** readSoilSensors, when `enabled`: each of the two values is stored
      only when its raw reading lies inside the window. */
  function StoreSoil(d: SensorData, enabled: bool, air: int, water: int, moistRaw: int, tempRaw: int): SensorData
  {
    d.(soilMoisture := if enabled && SoilRawValid(moistRaw)
         then Some(SoilMoistureFromRaw(moistRaw, air, water) as real)
         else d.soilMoisture,
       soilTemperature := if enabled && SoilRawValid(tempRaw)
         then Some(SoilTemperatureFromRaw(tempRaw))
         else d.soilTemperature)
  }

  /** What the hardware answers during one readAllSensors call. */
  datatype CycleInputs = CycleInputs(
    temperature: Option<real>, humidity: Option<real>, pressure: Option<real>,
    bmeBegin: bool,
    lux: Option<real>,
    bhBegin: bool,
    soilRaw: int, soilTempRaw: int,
    doorPinLow: bool)

  /** The readings and the door state after one readAllSensors call: each
      device is read only while present and healthy, and a value is kept
      only when valid. */
  function ReadingsCycle(d: SensorData, c: DeviceConfig, i: CycleInputs): SensorData
  {
    var d1 := StoreEnvironment(d, BmeReadable(c) && EnvValid(i.temperature, i.humidity, i.pressure),
                               i.temperature, i.humidity, i.pressure);
    var d2 := StoreLight(d1, BhReadable(c) && LuxValid(i.lux), i.lux);
    StoreSoil(d2, SoilReadable(c), c.soilAirValue, c.soilWaterValue, i.soilRaw, i.soilTempRaw)
  }

  function SensorCycle(d: SensorData, c: DeviceConfig, i: CycleInputs): SensorData
  {
    ReadingsCycle(d, c, i).(doorState := i.doorPinLow)
  }

  /** Reading never switches an actuator. */
  lemma CycleKeepsActuators(d: SensorData, c: DeviceConfig, i: CycleInputs)
    ensures ActuatorsOf(SensorCycle(d, c, i)) == ActuatorsOf(d)
  {
  }

  /** With no device present and healthy, a read cycle only samples the door. */
  lemma CycleWithoutDevices(d: SensorData, c: DeviceConfig, i: CycleInputs)
    requires !BmeReadable(c) && !BhReadable(c) && !SoilReadable(c)
    ensures SensorCycle(d, c, i) == d.(doorState := i.doorPinLow)
  {
  }

  /** Soil moisture changes exactly when the soil sensors were readable and
      the raw value lay strictly inside (100, 3995), and then to a
      percentage in [0, 100]. */
  lemma CycleSoil(d: SensorData, c: DeviceConfig, i: CycleInputs)
    ensures var r := SensorCycle(d, c, i);
      if SoilReadable(c) && SoilRawValid(i.soilRaw)
      then r.soilMoisture.Some? && 0.0 <= r.soilMoisture.value <= 100.0
      else r.soilMoisture == d.soilMoisture
  {
  }

  /** The BME280's counter and flag after one readAllSensors call, for a
      device that is `present` or not: a read while healthy, otherwise one
      `begin` while present, whose result becomes the flag and which leaves
      the counter alone. */
  function BmeAfterCycle(h: Health, present: bool, i: CycleInputs): Health
  {
    var read := Track(h, EnvValid(i.temperature, i.humidity, i.pressure), BME280_ERROR_LIMIT);
    Health(if present && h.healthy then read.errors else h.errors,
           if present && h.healthy then read.healthy else if present then i.bmeBegin else h.healthy)
  }

  function BhAfterCycle(h: Health, present: bool, i: CycleInputs): Health
  {
    var read := Track(h, LuxValid(i.lux), BH1750_ERROR_LIMIT);
    Health(if present && h.healthy then read.errors else h.errors,
           if present && h.healthy then read.healthy else if present then i.bhBegin else h.healthy)
  }

  /** Unhealthy soil sensors are never retried by a read. */
  function SoilAfterCycle(h: Health, present: bool, i: CycleInputs): Health
  {
    var read := Track(h, SoilRawValid(i.soilRaw), SOIL_ERROR_LIMIT);
    Health(if present && h.healthy then read.errors else h.errors,
           if present && h.healthy then read.healthy else h.healthy)
  }

  /** Once the soil sensors are unhealthy no read cycle makes them healthy
      again (only a rediscovery can), while a present but unhealthy BME280
      is healthy again as soon as one `begin` succeeds, its counter kept. */
  lemma RecoveryAsymmetry(h: Health, present: bool, i: CycleInputs)
    requires !h.healthy
    ensures !SoilAfterCycle(h, present, i).healthy
    ensures present ==> BmeAfterCycle(h, present, i) == Health(h.errors, i.bmeBegin)
  {
  }

  // ===== Health check and rediscovery =====

  /** What the hardware answers during a rediscovery (or `begin`). */
  datatype BusProbe = BusProbe(responders: set<int>, bmeBegin: bool, bhBegin: bool, soilRaw: int)

  /** initializeDetectedDevices: a remembered address is (re)initialised. */
  function InitDetected(c: DeviceConfig, bmeBegin: bool, bhBegin: bool): DeviceConfig
  {
    var bme, bh := c.bme280Address != 0, c.bh1750Address != 0;
    c.(hasBME280 := if bme then bmeBegin else c.hasBME280,
       bme280Healthy := if bme then bmeBegin else c.bme280Healthy,
       hasBH1750 := if bh then bhBegin else c.hasBH1750,
       bh1750Healthy := if bh then bhBegin else c.bh1750Healthy)
  }

  /** initializeSoilSensors. */
  function InitSoil(c: DeviceConfig, raw: int): DeviceConfig
  {
    c.(hasSoilSensors := SoilRawValid(raw), soilSensorsHealthy := SoilRawValid(raw))
  }

  /** rediscoverDevices: forget the I2C devices, scan, re-initialise. */
  function Rediscovered(c: DeviceConfig, p: BusProbe): DeviceConfig
  {
    var reset := c.(hasBME280 := false, hasBH1750 := false, bme280Healthy := false, bh1750Healthy := false);
    InitSoil(InitDetected(Scanned(reset, p.responders), p.bmeBegin, p.bhBegin), p.soilRaw)
  }

  /** After a rediscovery every device is healthy exactly when present, a
      present I2C device has a known address whose `begin` succeeded, and an
      address is only ever replaced by a responding one, never cleared. */
  lemma RediscoveryOutcome(c: DeviceConfig, p: BusProbe)
    ensures var r := Rediscovered(c, p);
      && r.bme280Healthy == r.hasBME280 && r.bh1750Healthy == r.hasBH1750
      && r.soilSensorsHealthy == r.hasSoilSensors == SoilRawValid(p.soilRaw)
      && (r.hasBME280 <==> r.bme280Address != 0 && p.bmeBegin)
      && (r.hasBH1750 <==> r.bh1750Address != 0 && p.bhBegin)
      && (r.bme280Address == c.bme280Address || r.bme280Address in p.responders * {0x76, 0x77})
      && (r.bh1750Address == c.bh1750Address || (r.bh1750Address == 0x23 && 0x23 in p.responders))
      && r.soilAirValue == c.soilAirValue && r.soilWaterValue == c.soilWaterValue
  {
  }

  predicate BmeCheckFails(c: DeviceConfig, testTemp: Option<real>) { BmeReadable(c) && testTemp.None? }
  predicate BhCheckFails(c: DeviceConfig, testLux: Option<real>) { BhReadable(c) && testLux.None? }

  /** The health flags after the three checks of checkDeviceHealth. */
  function HealthChecked(c: DeviceConfig, testTemp: Option<real>, testLux: Option<real>, soilRaw: int): DeviceConfig
  {
    c.(bme280Healthy := c.bme280Healthy && !BmeCheckFails(c, testTemp),
       bh1750Healthy := c.bh1750Healthy && !BhCheckFails(c, testLux),
       soilSensorsHealthy := c.soilSensorsHealthy && !(SoilReadable(c) && SoilCheckFails(soilRaw)))
  }

  /** Rediscovery runs when an I2C check failed and more than 300000 ms
      (as an unsigned 32-bit difference) passed since the last one. */
  predicate RediscoveryDue(c: DeviceConfig, testTemp: Option<real>, testLux: Option<real>, now: U32, last: U32)
  {
    (BmeCheckFails(c, testTemp) || BhCheckFails(c, testLux)) && U32Sub(now, last) > REDISCOVERY_INTERVAL
  }

  /** A rediscovery at `now` blocks another at the same instant, whatever
      fails; and a failing soil check alone never triggers one. */
  lemma RediscoveryRateLimited(c: DeviceConfig, c': DeviceConfig, testTemp: Option<real>, testLux: Option<real>, now: U32)
    ensures !RediscoveryDue(c', testTemp, testLux, now, now)
    ensures !BmeCheckFails(c, testTemp) && !BhCheckFails(c, testLux) ==>
      forall last: U32 :: !RediscoveryDue(c, testTemp, testLux, now, last)
  {
  }

  // ===== The device manager =====

  class DeviceManager {
    // fields declared in DeviceManager.h
    var devicesInitialized: bool
    var pumpStartTime: U32
    var pumpDuration: U32
    var pumpAutoStop: bool
    var bme280ErrorCount: U16
    var bh1750ErrorCount: U16
    var soilSensorErrorCount: U16
    // the globals `deviceConfig` and `sensorData` that the methods update
    var config: DeviceConfig
    var data: SensorData
    // the static local `lastRediscovery` of checkDeviceHealth
    var lastRediscovery: U32
    // every actuator command issued so far, in order
    ghost var issued: seq<Command>

    function BmeHealth(): Health reads this { Health(bme280ErrorCount, config.bme280Healthy) }
    function BhHealth(): Health reads this { Health(bh1750ErrorCount, config.bh1750Healthy) }
    function SoilHealth(): Health reads this { Health(soilSensorErrorCount, config.soilSensorsHealthy) }

    constructor()
      ensures !devicesInitialized && pumpStartTime == 0 && pumpDuration == 0 && !pumpAutoStop
      ensures bme280ErrorCount == 0 && bh1750ErrorCount == 0 && soilSensorErrorCount == 0
      ensures config == DefaultDeviceConfig() && data == DefaultSensorData()
      ensures lastRediscovery == 0 && issued == []
    {
      devicesInitialized := false;
      pumpStartTime, pumpDuration, pumpAutoStop := 0, 0, false;
      bme280ErrorCount, bh1750ErrorCount, soilSensorErrorCount := 0, 0, 0;
      config := DefaultDeviceConfig();
      data := DefaultSensorData();
      lastRediscovery := 0;
      issued := [];
    }

    // ----- discovery and initialisation -----

    /** Scan the addresses 1..126; `responders` are those whose transmission
        is acknowledged.  Returns the number found. */
    method DiscoverI2CDevices(responders: set<int>) returns (foundCount: int)
      modifies this`config
      ensures foundCount == |Responding(responders, I2C_ADDRESS_END)|
      ensures config == Scanned(old(config), responders)
    {
      // the two remembered addresses, written back to `deviceConfig` after the scan
      var bmeAddress, bhAddress := config.bme280Address, config.bh1750Address;
      foundCount := 0;
      var address: U8 := FIRST_I2C_ADDRESS;
      while address < I2C_ADDRESS_END
        invariant FIRST_I2C_ADDRESS <= address <= I2C_ADDRESS_END
        invariant config == old(config)
        invariant foundCount == |Responding(responders, address)|
        invariant bmeAddress == ScannedBme(responders, address, old(config.bme280Address))
        invariant bhAddress == ScannedBh(responders, address, old(config.bh1750Address))
      {
        if address in responders {
          ghost var bme0, bh0 := bmeAddress, bhAddress;
          var known := false;
          var j := 0;
          while j < |KNOWN_DEVICES| && !known
            invariant 0 <= j <= |KNOWN_DEVICES|
            invariant config == old(config)
            invariant !known ==> bmeAddress == bme0 && bhAddress == bh0
            invariant !known ==> forall k :: 0 <= k < j ==> KNOWN_DEVICES[k].address != address
            invariant known ==> bmeAddress == (if address in {0x76, 0x77} then address else bme0)
            invariant known ==> bhAddress == (if address == 0x23 then address else bh0)
          {
            var device := KNOWN_DEVICES[j];
            if device.address == address {
              KnownDeviceNames(j);
              if device.name == "BME280" {
                bmeAddress := address;
              } else if device.name == "BH1750" {
                bhAddress := address;
              }
              known := true;
            }
            j := j + 1;
          }
          if !known {
            // an unknown device: only probed and logged
            assert address != KNOWN_DEVICES[0].address;
            assert address != KNOWN_DEVICES[10].address && address != KNOWN_DEVICES[11].address;
          }
          assert Responding(responders, address + 1) == Responding(responders, address) + {address as int};
          foundCount := foundCount + 1;
        } else {
          assert Responding(responders, address + 1) == Responding(responders, address);
        }
        address := address + 1;
      }
      config := config.(bme280Address := bmeAddress, bh1750Address := bhAddress);
    }

    method InitializeDetectedDevices(bmeBegin: bool, bhBegin: bool)
      modifies this`config
      ensures config == InitDetected(old(config), bmeBegin, bhBegin)
    {
      var c := config;
      if c.bme280Address != 0 {
        c := c.(hasBME280 := bmeBegin);
        c := c.(bme280Healthy := c.hasBME280);
      }
      if c.bh1750Address != 0 {
        c := c.(hasBH1750 := bhBegin);
        c := c.(bh1750Healthy := c.hasBH1750);
      }
      config := c;
    }

    /** `raw` is the `analogRead` of the soil moisture pin. */
    method InitializeSoilSensors(raw: int) returns (present: bool)
      modifies this`config
      ensures present == SoilRawValid(raw)
      ensures config == InitSoil(old(config), raw)
    {
      var c := config;
      c := c.(hasSoilSensors := raw > SOIL_RAW_MARGIN && raw < SOIL_ADC_MAX - SOIL_RAW_MARGIN);
      c := c.(soilSensorsHealthy := c.hasSoilSensors);
      config := c;
      present := c.hasSoilSensors;
    }

    method Begin(p: BusProbe)
      modifies this`config, this`devicesInitialized, this`issued
      ensures config == InitSoil(InitDetected(Scanned(old(config), p.responders), p.bmeBegin, p.bhBegin), p.soilRaw)
      ensures devicesInitialized
      ensures issued == old(issued) + [DoorCmd(1)]
    {
      var _ := DiscoverI2CDevices(p.responders);
      InitializeDetectedDevices(p.bmeBegin, p.bhBegin);
      var _ := InitializeSoilSensors(p.soilRaw);
      ControlDoor(IntToBool(DOOR_NEUTRAL));
      devicesInitialized := true;
    }

    method RediscoverDevices(p: BusProbe)
      modifies this`config
      ensures config == Rediscovered(old(config), p)
    {
      config := config.(hasBME280 := false, hasBH1750 := false, bme280Healthy := false, bh1750Healthy := false);
      var _ := DiscoverI2CDevices(p.responders);
      // the source repeats the body of initializeDetectedDevices here, minus the logging
      InitializeDetectedDevices(p.bmeBegin, p.bhBegin);
      var _ := InitializeSoilSensors(p.soilRaw);
    }

    // ----- reading -----

    /** `t`, `h` and `p` are the three driver readings, `None` for NaN. */
    method ReadBME280(t: Option<real>, h: Option<real>, p: Option<real>)
      modifies this`data, this`bme280ErrorCount, this`config
      ensures var after := Track(old(BmeHealth()), EnvValid(t, h, p), BME280_ERROR_LIMIT);
        bme280ErrorCount == after.errors && config == old(config).(bme280Healthy := after.healthy)
      ensures data == StoreEnvironment(old(data), EnvValid(t, h, p), t, h, p)
    {
      var d, c, errors := data, config, bme280ErrorCount;
      if t.Some? && h.Some? && p.Some? {
        d := d.(airTemperature := t, airHumidity := h, pressure := p);
        errors := 0;
      } else {
        errors := U16Inc(errors);
        if errors > BME280_ERROR_LIMIT {
          c := c.(bme280Healthy := false);
        }
      }
      data, config, bme280ErrorCount := d, c, errors;
    }

    /** `lux` is the driver reading, `None` for NaN. */
    method ReadBH1750(lux: Option<real>)
      modifies this`data, this`bh1750ErrorCount, this`config
      ensures var after := Track(old(BhHealth()), LuxValid(lux), BH1750_ERROR_LIMIT);
        bh1750ErrorCount == after.errors && config == old(config).(bh1750Healthy := after.healthy)
      ensures data == StoreLight(old(data), LuxValid(lux), lux)
    {
      var d, c, errors := data, config, bh1750ErrorCount;
      if lux.Some? && lux.value >= 0.0 && lux.value <= LUX_MAX {
        d := d.(lightLevel := lux);
        errors := 0;
      } else {
        errors := U16Inc(errors);
        if errors > BH1750_ERROR_LIMIT {
          c := c.(bh1750Healthy := false);
        }
      }
      data, config, bh1750ErrorCount := d, c, errors;
    }

    /** `moistRaw` and `tempRaw` are the two `analogRead` results.  Only the
        moisture reading counts toward the error counter; a bad soil
        temperature is silently dropped. */
    method ReadSoilSensors(moistRaw: int, tempRaw: int)
      modifies this`data, this`soilSensorErrorCount, this`config
      ensures var after := Track(old(SoilHealth()), SoilRawValid(moistRaw), SOIL_ERROR_LIMIT);
        soilSensorErrorCount == after.errors && config == old(config).(soilSensorsHealthy := after.healthy)
      ensures data == StoreSoil(old(data), true, old(config.soilAirValue), old(config.soilWaterValue), moistRaw, tempRaw)
    {
      var d, c, errors := data, config, soilSensorErrorCount;
      if moistRaw > SOIL_RAW_MARGIN && moistRaw < SOIL_ADC_MAX - SOIL_RAW_MARGIN {
        var moisture := SoilMoistureFromRaw(moistRaw, c.soilAirValue, c.soilWaterValue);
        d := d.(soilMoisture := Some(moisture as real));
        errors := 0;
      } else {
        errors := U16Inc(errors);
      }
      if tempRaw > SOIL_RAW_MARGIN && tempRaw < SOIL_ADC_MAX - SOIL_RAW_MARGIN {
        d := d.(soilTemperature := Some(SoilTemperatureFromRaw(tempRaw)));
      }
      if errors > SOIL_ERROR_LIMIT {
        c := c.(soilSensorsHealthy := false);
      }
      data, config, soilSensorErrorCount := d, c, errors;
    }

    /** The BME280 part of readAllSensors: a read while healthy, otherwise
        one `begin` while present. */
    method ReadOrRecoverBME280(i: CycleInputs)
      modifies this`data, this`config, this`bme280ErrorCount
      ensures var after := BmeAfterCycle(old(BmeHealth()), old(config.hasBME280), i);
        bme280ErrorCount == after.errors && config == old(config).(bme280Healthy := after.healthy)
      ensures data == StoreEnvironment(old(data), old(BmeReadable(config)) && EnvValid(i.temperature, i.humidity, i.pressure),
                                       i.temperature, i.humidity, i.pressure)
    {
      if config.hasBME280 && config.bme280Healthy {
        ReadBME280(i.temperature, i.humidity, i.pressure);
      } else if config.hasBME280 {
        config := config.(bme280Healthy := i.bmeBegin);
      }
    }

    /** The BH1750 part of readAllSensors. */
    method ReadOrRecoverBH1750(i: CycleInputs)
      modifies this`data, this`config, this`bh1750ErrorCount
      ensures var after := BhAfterCycle(old(BhHealth()), old(config.hasBH1750), i);
        bh1750ErrorCount == after.errors && config == old(config).(bh1750Healthy := after.healthy)
      ensures data == StoreLight(old(data), old(BhReadable(config)) && LuxValid(i.lux), i.lux)
    {
      if config.hasBH1750 && config.bh1750Healthy {
        ReadBH1750(i.lux);
      } else if config.hasBH1750 {
        config := config.(bh1750Healthy := i.bhBegin);
      }
    }

    /** The soil part of readAllSensors: unhealthy soil sensors are skipped. */
    method ReadSoilIfHealthy(i: CycleInputs)
      modifies this`data, this`config, this`soilSensorErrorCount
      ensures var after := SoilAfterCycle(old(SoilHealth()), old(config.hasSoilSensors), i);
        soilSensorErrorCount == after.errors && config == old(config).(soilSensorsHealthy := after.healthy)
      ensures data == StoreSoil(old(data), old(SoilReadable(config)), old(config.soilAirValue), old(config.soilWaterValue), i.soilRaw, i.soilTempRaw)
    {
      if config.hasSoilSensors && config.soilSensorsHealthy {
        ReadSoilSensors(i.soilRaw, i.soilTempRaw);
      }
    }

    /** readAllSensors after the BME280: the BH1750, then the soil sensors. */
    method ReadLightAndSoil(i: CycleInputs)
      modifies this`data, this`config, this`bh1750ErrorCount, this`soilSensorErrorCount
      ensures BhHealth() == BhAfterCycle(old(BhHealth()), old(config.hasBH1750), i)
      ensures SoilHealth() == SoilAfterCycle(old(SoilHealth()), old(config.hasSoilSensors), i)
      ensures config == old(config).(bh1750Healthy := config.bh1750Healthy, soilSensorsHealthy := config.soilSensorsHealthy)
      ensures data == StoreSoil(StoreLight(old(data), old(BhReadable(config)) && LuxValid(i.lux), i.lux),
                                old(SoilReadable(config)), old(config.soilAirValue), old(config.soilWaterValue),
                                i.soilRaw, i.soilTempRaw)
    {
      ReadOrRecoverBH1750(i);
      ReadSoilIfHealthy(i);
    }

    /** The three device reads of readAllSensors, in the firmware's order. */
    method ReadEachDevice(i: CycleInputs)
      modifies this`data, this`config, this`bme280ErrorCount, this`bh1750ErrorCount, this`soilSensorErrorCount
      ensures BmeHealth() == BmeAfterCycle(old(BmeHealth()), old(config.hasBME280), i)
      ensures BhHealth() == BhAfterCycle(old(BhHealth()), old(config.hasBH1750), i)
      ensures SoilHealth() == SoilAfterCycle(old(SoilHealth()), old(config.hasSoilSensors), i)
      ensures config == old(config).(bme280Healthy := config.bme280Healthy,
        bh1750Healthy := config.bh1750Healthy, soilSensorsHealthy := config.soilSensorsHealthy)
      ensures data == ReadingsCycle(old(data), old(config), i)
    {
      ReadOrRecoverBME280(i);
      ReadLightAndSoil(i);
    }

    method ReadAllSensors(i: CycleInputs)
      modifies this`data, this`config, this`bme280ErrorCount, this`bh1750ErrorCount, this`soilSensorErrorCount
      ensures BmeHealth() == BmeAfterCycle(old(BmeHealth()), old(config.hasBME280), i)
      ensures BhHealth() == BhAfterCycle(old(BhHealth()), old(config.hasBH1750), i)
      ensures SoilHealth() == SoilAfterCycle(old(SoilHealth()), old(config.hasSoilSensors), i)
      ensures config == old(config).(bme280Healthy := config.bme280Healthy,
        bh1750Healthy := config.bh1750Healthy, soilSensorsHealthy := config.soilSensorsHealthy)
      ensures data == SensorCycle(old(data), old(config), i).(systemHealthy := SystemHealthy(config))
    {
      ReadEachDevice(i);
      var d, c := data, config;
      d := d.(doorState := i.doorPinLow);
      d := d.(systemHealthy := c.bme280Healthy && c.bh1750Healthy && c.soilSensorsHealthy);
      data := d;
    }

    /** `testTemp`, `testLux` and `soilRaw` are the probe readings; `probe` is
        what a rediscovery would see; `now` is `millis()`. */
    method CheckDeviceHealth(testTemp: Option<real>, testLux: Option<real>, soilRaw: int, now: U32, probe: BusProbe)
      modifies this`data, this`config, this`lastRediscovery
      ensures var checked := HealthChecked(old(config), testTemp, testLux, soilRaw);
        config == if RediscoveryDue(old(config), testTemp, testLux, now, old(lastRediscovery))
                  then Rediscovered(checked, probe) else checked
      ensures lastRediscovery ==
        if RediscoveryDue(old(config), testTemp, testLux, now, old(lastRediscovery)) then now else old(lastRediscovery)
      ensures data == old(data).(systemHealthy := SystemHealthy(config))
    {
      var needsRediscovery := CheckEachDevice(testTemp, testLux, soilRaw);
      if needsRediscovery && U32Sub(now, lastRediscovery) > REDISCOVERY_INTERVAL {
        RediscoverDevices(probe);
        lastRediscovery := now;
      }
      var c := config;
      data := data.(systemHealthy := c.bme280Healthy && c.bh1750Healthy && c.soilSensorsHealthy);
    }

    /** The three probes of checkDeviceHealth; only a failing I2C probe asks
        for a rediscovery. */
    method CheckEachDevice(testTemp: Option<real>, testLux: Option<real>, soilRaw: int) returns (needsRediscovery: bool)
      modifies this`config
      ensures config == HealthChecked(old(config), testTemp, testLux, soilRaw)
      ensures needsRediscovery == (BmeCheckFails(old(config), testTemp) || BhCheckFails(old(config), testLux))
    {
      var c := config;
      needsRediscovery := false;
      if c.hasBME280 && c.bme280Healthy {
        if testTemp.None? {
          c := c.(bme280Healthy := false);
          needsRediscovery := true;
        }
      }
      if c.hasBH1750 && c.bh1750Healthy {
        if testLux.None? {
          c := c.(bh1750Healthy := false);
          needsRediscovery := true;
        }
      }
      if c.hasSoilSensors && c.soilSensorsHealthy {
        if soilRaw < SOIL_RAW_MARGIN || soilRaw > SOIL_ADC_MAX - SOIL_RAW_MARGIN {
          c := c.(soilSensorsHealthy := false);
        }
      }
      config := c;
    }

    // ----- actuators -----

    /** `duration` defaults to 0, so a call without it never arms the auto-stop. */
    method ControlPump(now: U32, state: bool, duration: U32 := 0)
      modifies this`data, this`pumpAutoStop, this`pumpStartTime, this`pumpDuration, this`issued
      ensures data == old(data).(pumpState := state)
      ensures pumpAutoStop == (state && duration > 0)
      ensures pumpAutoStop ==> pumpStartTime == now && pumpDuration == duration
      ensures !pumpAutoStop ==> pumpStartTime == old(pumpStartTime) && pumpDuration == old(pumpDuration)
      ensures issued == old(issued) + [PumpCmd(state, duration)]
    {
      data := data.(pumpState := state);
      if state && duration > 0 {
        pumpAutoStop := true;
        pumpStartTime := now;
        pumpDuration := duration;
      } else {
        pumpAutoStop := false;
      }
      issued := issued + [PumpCmd(state, duration)];
    }

    method ControlFan(state: bool)
      modifies this`data, this`issued
      ensures data == old(data).(fanState := state)
      ensures issued == old(issued) + [FanCmd(state)]
    {
      data := data.(fanState := state);
      issued := issued + [FanCmd(state)];
    }

    method ControlHeater(state: bool)
      modifies this`data, this`issued
      ensures data == old(data).(heaterState := state)
      ensures issued == old(issued) + [HeaterCmd(state)]
    {
      data := data.(heaterState := state);
      issued := issued + [HeaterCmd(state)];
    }

    method ControlLight(state: bool)
      modifies this`data, this`issued
      ensures data == old(data).(lightState := state)
      ensures issued == old(issued) + [LightCmd(state)]
    {
      data := data.(lightState := state);
      issued := issued + [LightCmd(state)];
    }

    /** The parameter is a `bool`: `constrain` and the servo see 0 or 1,
        so whatever angle a caller meant, the servo is sent 0 or 1 degree. */
    method ControlDoor(angle: bool)
      modifies this`issued
      ensures issued == old(issued) + [DoorCmd(BoolToInt(angle))]
      ensures issued[|issued| - 1].degrees in {0, 1}
    {
      var constrained := IntToBool(Constrain(BoolToInt(angle), 0, 180));
      issued := issued + [DoorCmd(BoolToInt(constrained))];
    }

    method StopAllDevices()
      modifies this`data, this`pumpAutoStop, this`pumpStartTime, this`pumpDuration, this`issued
      ensures data == old(data).(pumpState := false, fanState := false, heaterState := false, lightState := false)
      ensures !pumpAutoStop && pumpStartTime == old(pumpStartTime) && pumpDuration == old(pumpDuration)
      ensures issued == old(issued) + [PumpCmd(false, 0), FanCmd(false), HeaterCmd(false), LightCmd(false)]
    {
      // the pump is switched off, so controlPump does not read the clock
      ControlPump(0, false);
      ControlFan(false);
      ControlHeater(false);
      ControlLight(false);
    }

    /** `raw` is the `analogRead` of the soil moisture pin. */
    method CalibrateSoilSensor(inWater: bool, raw: int)
      modifies this`config
      ensures config == if inWater then old(config).(soilWaterValue := raw) else old(config).(soilAirValue := raw)
    {
      var c := config;
      if inWater {
        c := c.(soilWaterValue := raw);
      } else {
        c := c.(soilAirValue := raw);
      }
      config := c;
    }
  }
}

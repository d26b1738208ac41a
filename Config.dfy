/** The records, defaults and constants of Config.h, and the C and Arduino
    arithmetic the firmware applies to them: fixed-width unsigned integers,
    truncating division, `map`, `constrain` and `millis()` differences. */
module Config {

  datatype Option<T> = None | Some(value: T)

  // ===== C integer widths =====

  type U8 = x: int | 0 <= x < 0x100
  type U16 = x: int | 0 <= x < 0x1_0000
  type U32 = x: int | 0 <= x < 0x1_0000_0000

  /** `a - b` on `unsigned long` (32 bits on the ESP32): the elapsed time
      between two `millis()` readings, correct across one wrap-around. */
  function U32Sub(a: U32, b: U32): (r: U32)
    ensures r == if a >= b then a - b else a - b + 0x1_0000_0000
  {
    (a - b) % 0x1_0000_0000
  }

  /** `x++` on a `uint16_t`, which wraps from 65535 to 0. */
  function U16Inc(x: U16): (r: U16)
    ensures r == if x < 0xFFFF then x + 1 else 0
  {
    (x + 1) % 0x1_0000
  }

  /** C++'s implicit conversion of an integer to `bool`. */
  function IntToBool(x: int): bool
  {
    x != 0
  }

  /** C++'s promotion of a `bool` to an integer. */
  function BoolToInt(b: bool): (r: int)
    ensures IntToBool(r) == b
  {
    if b then 1 else 0
  }

  function Abs(x: int): nat
  {
    if x < 0 then -x else x
  }

  /** C's `/` on integers: the quotient truncated toward zero.  Dafny's own
      `/` is Euclidean, so the two differ on negative operands. */
  function TruncDiv(n: int, d: int): int
    requires d != 0
  {
    if d > 0 then (if n >= 0 then n / d else -((-n) / d))
    else (if n >= 0 then -(n / -d) else (-n) / (-d))
  }

  /** `static_cast<int>` of a floating-point value: truncation toward zero. */
  function TruncReal(x: real): (r: int)
    ensures Abs(r) as real <= (if x < 0.0 then -x else x) < Abs(r) as real + 1.0
    ensures r > 0 ==> x > 0.0
    ensures r < 0 ==> x < 0.0
  {
    if x >= 0.0 then x.Floor else -((-x).Floor)
  }

  /** Arduino's `map(x, inMin, inMax, outMin, outMax)` on `long`, as the ESP32
      core defines it: an empty input range yields -1 instead of dividing by zero. */
  function ArduinoMap(x: int, inMin: int, inMax: int, outMin: int, outMax: int): int
  {
    var run := inMax - inMin;
    if run == 0 then -1 else TruncDiv((x - inMin) * (outMax - outMin), run) + outMin
  }

  /** Arduino's `constrain(x, lo, hi)`: `x < lo ? lo : (x > hi ? hi : x)`. */
  function Constrain(x: int, lo: int, hi: int): (r: int)
    ensures lo <= hi ==> lo <= r <= hi
    ensures lo <= x <= hi ==> r == x
    ensures x < lo ==> r == lo
    ensures lo <= x && x > hi ==> r == hi
  {
    if x < lo then lo else if x > hi then hi else x
  }

  // ===== Constants =====

  const CONFIG_VERSION: U8 := 3
  const EEPROM_SIZE: nat := 512
  const NUM_LEDS: nat := 64
  const SOIL_ADC_MAX: int := 4095
  /** Volts per full-scale soil temperature reading, as Config.h states it. */
  const SOIL_TEMP_CONVERSION: real := 6.27
  const SERVO_DELAY: U32 := 1000
  const PUMP_DURATION: U32 := 5000
  /** `sizeof` of `wifiSSID` and of `wifiPassword`: 31 characters and the NUL. */
  const WIFI_FIELD_SIZE: nat := 32

  // ===== Records =====

  datatype SystemSettings = SystemSettings(
    version: U8,
    wifiSSID: string,
    wifiPassword: string,
    tempSetpoint: real,
    humSetpoint: real,
    soilMoistureSetpoint: real,
    lightOnHour: int,
    lightOffHour: int,
    automationEnabled: bool,
    displayBrightness: U8,
    use24HourFormat: bool)

  /** A reading is `None` where the firmware holds NaN.  Config.h declares
      neither `pressure`, `heaterState` nor `systemHealthy`, yet
      DeviceManager.cpp writes all three; they are added here, defaulting
      to a missing reading and `false`. */
  datatype SensorData = SensorData(
    airTemperature: Option<real>,
    airHumidity: Option<real>,
    soilMoisture: Option<real>,
    soilTemperature: Option<real>,
    lightLevel: Option<real>,
    pressure: Option<real>,
    pumpState: bool,
    fanState: bool,
    lightState: bool,
    doorState: bool,
    heaterState: bool,
    systemHealthy: bool)

  /** The calibration values are `float` in Config.h, but every value ever
      stored in them is an integer (the defaults, or an `analogRead` result),
      and `map` converts them to `long` anyway; they are integers here. */
  datatype DeviceConfig = DeviceConfig(
    bme280Address: U8,
    bh1750Address: U8,
    hasBME280: bool,
    hasBH1750: bool,
    hasTM1637: bool,
    hasSoilSensors: bool,
    hasRelays: bool,
    soilAirValue: int,
    soilWaterValue: int,
    bme280Healthy: bool,
    bh1750Healthy: bool,
    soilSensorsHealthy: bool)

  // ===== Default member initialisers =====

  function DefaultSettings(): SystemSettings
  {
    SystemSettings(CONFIG_VERSION, "", "", 25.0, 60.0, 50.0, 8, 20, true, 7, true)
  }

  function DefaultSensorData(): SensorData
  {
    SensorData(None, None, None, None, None, None, false, false, false, false, false, false)
  }

  function DefaultDeviceConfig(): DeviceConfig
  {
    DeviceConfig(0, 0, false, false, true, false, true, 2800, 1200, false, false, false)
  }

  /** A default `SensorData` holds no reading and every actuator is off. */
  lemma DefaultSensorDataEmpty()
    ensures var d := DefaultSensorData();
      && d.airTemperature.None? && d.airHumidity.None? && d.soilMoisture.None?
      && d.soilTemperature.None? && d.lightLevel.None? && d.pressure.None?
      && !d.pumpState && !d.fanState && !d.lightState && !d.doorState && !d.heaterState
  {
  }

  // ===== Arithmetic facts =====

  lemma DivMonotone(a: int, b: int, d: int)
    requires 0 <= a <= b && d > 0
    ensures a / d <= b / d
  {
    var qa, qb := a / d, b / d;
    assert d * qa <= a by {
      assert a == d * qa + a % d;
    }
    assert b < d * (qb + 1) by {
      assert b == d * qb + b % d;
    }
    MulCancel(d, qa, qb + 1);
  }

  lemma DivNonneg(a: int, d: int)
    requires a >= 0 && d > 0
    ensures a / d >= 0
  {
  }

  lemma MulMonotone(d: nat, x: int, y: int)
    requires x <= y
    ensures d * x <= d * y
  {
    assert d * y - d * x == d * (y - x);
  }

  lemma MulCancel(d: nat, x: int, y: int)
    requires d > 0 && d * x < d * y
    ensures x < y
  {
    if x >= y {
      MulMonotone(d, y, x);
    }
  }

  /** Truncating division by a positive divisor preserves the order of numerators. */
  lemma TruncDivMonotonePos(n1: int, n2: int, d: int)
    requires n1 <= n2 && d > 0
    ensures TruncDiv(n1, d) <= TruncDiv(n2, d)
  {
    if n1 >= 0 {
      DivMonotone(n1, n2, d);
    } else if n2 < 0 {
      DivMonotone(-n2, -n1, d);
    } else {
      DivNonneg(-n1, d);
      DivNonneg(n2, d);
    }
  }

  /** Truncating division by a negative divisor reverses the order of numerators. */
  lemma TruncDivMonotoneNeg(n1: int, n2: int, d: int)
    requires n1 <= n2 && d < 0
    ensures TruncDiv(n1, d) >= TruncDiv(n2, d)
  {
    if n1 >= 0 {
      DivMonotone(n1, n2, -d);
    } else if n2 < 0 {
      DivMonotone(-n2, -n1, -d);
    } else {
      DivNonneg(-n1, -d);
      DivNonneg(n2, -d);
    }
  }

  /** With a falling input range (inMin > inMax) and a rising output range,
      `map` never increases as its argument rises. */
  lemma {:induction false} MapNonIncreasing(x1: int, x2: int, inMin: int, inMax: int, outMin: int, outMax: int)
    requires x1 <= x2 && inMin > inMax && outMin <= outMax
    ensures ArduinoMap(x2, inMin, inMax, outMin, outMax) <= ArduinoMap(x1, inMin, inMax, outMin, outMax)
  {
    var rise := outMax - outMin;
    MulMonotone(rise, x1 - inMin, x2 - inMin);
    assert (x1 - inMin) * rise <= (x2 - inMin) * rise;
    TruncDivMonotoneNeg((x1 - inMin) * rise, (x2 - inMin) * rise, inMax - inMin);
  }

  /** `constrain` preserves order. */
  lemma ConstrainMonotone(x1: int, x2: int, lo: int, hi: int)
    requires x1 <= x2 && lo <= hi
    ensures Constrain(x1, lo, hi) <= Constrain(x2, lo, hi)
  {
  }
}

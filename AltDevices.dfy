/** The second `DeviceManager`, defined in DisplayManager.cpp.  That file
    includes DeviceManager.h, whose class declares no `display`, `pins`,
    `sensorData` or `deviceHealth` members, so its records are its own: a `sensorData` with ventilation and water pump flags
    and an update time, and a `deviceHealth` record of six flags.  It never
    validates a reading, and its soil health check cannot fail for any value
    the ADC can produce. */
module AltDevices {
  import opened Config

  const DISPLAY_PERIOD: U32 := 2000
  const SERVO_MAX: int := 180
  /** Volts per full-scale ADC reading in readSoilTemperature. */
  const ADC_VOLTS: real := 3.3

  datatype AltSensorData = AltSensorData(
    airTemperature: Option<real>,
    airHumidity: Option<real>,
    pressure: Option<real>,
    lightLevel: Option<real>,
    soilMoisture: Option<real>,
    soilTemperature: Option<real>,
    heaterState: bool,
    lightState: bool,
    ventilationState: bool,
    waterPumpState: bool,
    systemHealthy: bool,
    lastUpdate: U32)

  datatype DeviceHealth = DeviceHealth(
    bme280Healthy: bool,
    bh1750Healthy: bool,
    soilSensorHealthy: bool,
    displayHealthy: bool,
    ledStripHealthy: bool,
    lastUpdateSuccess: bool)

  /** readSoilMoisture: `map(raw, 0, 4095, 0, 100)`, with no clamp. */
  function SoilMoisture(raw: int): int
  {
    ArduinoMap(raw, 0, SOIL_ADC_MAX, 0, 100)
  }

  /** Every value the 12-bit ADC can produce maps into [0, 100], so the soil
      health test `moisture >= 0 && moisture <= 100` always passes. */
  lemma SoilMoistureInRange(raw: int)
    requires 0 <= raw <= SOIL_ADC_MAX
    ensures 0 <= SoilMoisture(raw) <= 100
  {
  }

  /** Outside the ADC's range the map leaves [0, 100]: the check is only
      vacuous because the hardware cannot produce such values. */
  lemma SoilMoistureOutsideRange()
    ensures SoilMoisture(SOIL_ADC_MAX + 41) > 100 && SoilMoisture(-41) < 0
  {
  }

  function SoilHealthy(raw: int): bool
  {
    var m := SoilMoisture(raw);
    0 <= m && m <= 100
  }

  /** readSoilTemperature. */
  function SoilTemperature(raw: int): real
  {
    (raw as real * (ADC_VOLTS / SOIL_ADC_MAX as real) - 0.5) * 100.0
  }

  class DeviceManager {
    var data: AltSensorData
    var health: DeviceHealth
    /** The angle last written to the window servo. */
    var servoAngle: int
    /** The static locals of updateDisplay. */
    var lastDisplayChange: U32
    var showTemp: bool
    /** Every number sent to the TM1637 display, in order. */
    ghost var shown: seq<int>

    /** The header holding the two records' defaults is not part of this
        model, so they are parameters; the servo position before the first
        write is unknown too. */
    constructor(initialData: AltSensorData, initialHealth: DeviceHealth, initialServo: int)
      ensures data == initialData && health == initialHealth && servoAngle == initialServo
      ensures lastDisplayChange == 0 && showTemp && shown == []
    {
      data, health, servoAngle := initialData, initialHealth, initialServo;
      lastDisplayChange, showTemp := 0, true;
      shown := [];
    }

    /** begin: every init runs (`&=` does not short-circuit); the display,
        LED strip and servo inits always succeed, so success is the two
        sensors' `begin` results. */
    method Begin(bmeBegin: bool, bhBegin: bool) returns (success: bool)
      modifies this`data, this`health
      ensures success == (bmeBegin && bhBegin)
      ensures health == old(health).(bme280Healthy := bmeBegin, bh1750Healthy := bhBegin,
        displayHealthy := true, ledStripHealthy := true, lastUpdateSuccess := success)
      ensures data == old(data).(systemHealthy := success)
    {
      var h := health;
      success := true;
      h := h.(bme280Healthy := bmeBegin);
      success := success && h.bme280Healthy;
      h := h.(bh1750Healthy := bhBegin);
      success := success && h.bh1750Healthy;
      h := h.(displayHealthy := true);
      success := success && true;
      h := h.(ledStripHealthy := true);
      success := success && true;
      // initializeServo
      success := success && true;
      health := h.(lastUpdateSuccess := success);
      data := data.(systemHealthy := success);
    }

    /** readBME280: a healthy sensor's readings are stored unchecked, a
        missing one included; pressure is converted from Pa to hPa. */
    method ReadBME280(temperature: Option<real>, humidity: Option<real>, pressurePa: Option<real>)
      modifies this`data
      ensures health.bme280Healthy ==> data == old(data).(airTemperature := temperature, airHumidity := humidity,
        pressure := if pressurePa.Some? then Some(pressurePa.value / 100.0) else None)
      ensures !health.bme280Healthy ==> data == old(data)
    {
      if health.bme280Healthy {
        var d := data;
        d := d.(airTemperature := temperature, airHumidity := humidity);
        d := d.(pressure := if pressurePa.Some? then Some(pressurePa.value / 100.0) else None);
        data := d;
      }
    }

    method ReadBH1750(lux: Option<real>)
      modifies this`data
      ensures data == if health.bh1750Healthy then old(data).(lightLevel := lux) else old(data)
    {
      if health.bh1750Healthy {
        data := data.(lightLevel := lux);
      }
    }

    /** readSoilSensors: the moisture is always a number, and soil health is
        whether it lies in [0, 100]. */
    method ReadSoilSensors(moistRaw: int, tempRaw: int)
      modifies this`data, this`health
      ensures data == old(data).(soilMoisture := Some(SoilMoisture(moistRaw) as real),
        soilTemperature := Some(SoilTemperature(tempRaw)))
      ensures health == old(health).(soilSensorHealthy := SoilHealthy(moistRaw))
      ensures 0 <= moistRaw <= SOIL_ADC_MAX ==> health.soilSensorHealthy
    {
      var moisture := SoilMoisture(moistRaw);
      data := data.(soilMoisture := Some(moisture as real), soilTemperature := Some(SoilTemperature(tempRaw)));
      health := health.(soilSensorHealthy := 0 <= moisture && moisture <= 100);
      if 0 <= moistRaw <= SOIL_ADC_MAX {
        SoilMoistureInRange(moistRaw);
      }
    }

    /** readAllSensors; `now` is `millis()`. */
    method ReadAllSensors(temperature: Option<real>, humidity: Option<real>, pressurePa: Option<real>,
                          lux: Option<real>, moistRaw: int, tempRaw: int, now: U32)
      modifies this`data, this`health
      ensures health == old(health).(soilSensorHealthy := SoilHealthy(moistRaw), lastUpdateSuccess := true)
      ensures data.systemHealthy == (health.bme280Healthy && health.bh1750Healthy && health.soilSensorHealthy)
      ensures data.lastUpdate == now
      ensures data.airTemperature == (if old(health.bme280Healthy) then temperature else old(data.airTemperature))
      ensures data.airHumidity == (if old(health.bme280Healthy) then humidity else old(data.airHumidity))
      ensures data.lightLevel == (if old(health.bh1750Healthy) then lux else old(data.lightLevel))
      ensures data.pressure == (if old(health.bme280Healthy)
        then (if pressurePa.Some? then Some(pressurePa.value / 100.0) else None) else old(data.pressure))
      ensures data.soilMoisture == Some(SoilMoisture(moistRaw) as real)
      ensures data.soilTemperature == Some(SoilTemperature(tempRaw))
      ensures data.heaterState == old(data.heaterState) && data.lightState == old(data.lightState)
        && data.ventilationState == old(data.ventilationState) && data.waterPumpState == old(data.waterPumpState)
    {
      ReadBME280(temperature, humidity, pressurePa);
      ReadBH1750(lux);
      ReadSoilSensors(moistRaw, tempRaw);
      var h := health;
      data := data.(systemHealthy := h.bme280Healthy && h.bh1750Healthy && h.soilSensorHealthy, lastUpdate := now);
      health := h.(lastUpdateSuccess := true);
    }

    /** checkDeviceHealth: the two `begin` results become the I2C flags,
        and the soil flag is recomputed from a fresh moisture reading. */
    method CheckDeviceHealth(bmeBegin: bool, bhBegin: bool, moistRaw: int)
      modifies this`data, this`health
      ensures health == old(health).(bme280Healthy := bmeBegin, bh1750Healthy := bhBegin,
        soilSensorHealthy := SoilHealthy(moistRaw))
      ensures data == old(data).(systemHealthy := bmeBegin && bhBegin && SoilHealthy(moistRaw))
      ensures 0 <= moistRaw <= SOIL_ADC_MAX ==> data.systemHealthy == (bmeBegin && bhBegin)
    {
      var moisture := SoilMoisture(moistRaw);
      var h := health.(bme280Healthy := bmeBegin, bh1750Healthy := bhBegin);
      h := h.(soilSensorHealthy := 0 <= moisture && moisture <= 100);
      health := h;
      data := data.(systemHealthy := h.bme280Healthy && h.bh1750Healthy && h.soilSensorHealthy);
      if 0 <= moistRaw <= SOIL_ADC_MAX {
        SoilMoistureInRange(moistRaw);
      }
    }

    method SetHeater(state: bool)
      modifies this`data
      ensures data == old(data).(heaterState := state)
    {
      data := data.(heaterState := state);
    }

    method SetLight(state: bool)
      modifies this`data
      ensures data == old(data).(lightState := state)
    {
      data := data.(lightState := state);
    }

    method SetVentilation(state: bool)
      modifies this`data
      ensures data == old(data).(ventilationState := state)
    {
      data := data.(ventilationState := state);
    }

    method SetWaterPump(state: bool)
      modifies this`data
      ensures data == old(data).(waterPumpState := state)
    {
      data := data.(waterPumpState := state);
    }

    /** setServo writes `constrain(angle, 0, 180)`. */
    method SetServo(angle: int)
      modifies this`servoAngle
      ensures 0 <= servoAngle <= SERVO_MAX
      ensures 0 <= angle <= SERVO_MAX ==> servoAngle == angle
      ensures angle < 0 ==> servoAngle == 0
      ensures angle > SERVO_MAX ==> servoAngle == SERVO_MAX
    {
      servoAngle := Constrain(angle, 0, SERVO_MAX);
    }

    /** updateDisplay: a healthy display shows the temperature, and every
        period of more than 2000 ms (unsigned 32-bit difference) it shows
        one more value, alternating temperature and humidity, and records
        `now`.  Both `millis()` calls read `now`. */
    method UpdateDisplay(temperature: real, humidity: real, now: U32)
      modifies this`lastDisplayChange, this`showTemp, this`shown
      ensures var due := health.displayHealthy && U32Sub(now, old(lastDisplayChange)) > DISPLAY_PERIOD;
        && showTemp == (if due then !old(showTemp) else old(showTemp))
        && lastDisplayChange == (if due then now else old(lastDisplayChange))
        && shown == old(shown)
             + (if health.displayHealthy then [TruncReal(temperature)] else [])
             + (if due then [TruncReal(if old(showTemp) then temperature else humidity)] else [])
    {
      if health.displayHealthy {
        shown := shown + [TruncReal(temperature)];
        if U32Sub(now, lastDisplayChange) > DISPLAY_PERIOD {
          if showTemp {
            shown := shown + [TruncReal(temperature)];
          } else {
            shown := shown + [TruncReal(humidity)];
          }
          showTemp := !showTemp;
          lastDisplayChange := now;
        }
      }
    }
  }
}

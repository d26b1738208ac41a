/** Automation.cpp: five rules, run in a fixed order over one snapshot of
    `sensorData`, each switching actuators through the DeviceManager.  The fan
    is written by three of them, so the rule order decides its final state. */
module AutomationRules {
  import opened Config
  import opened Devices

  const TEMP_HYSTERESIS: real := 1.0
  const HUM_HYSTERESIS: real := 5.0
  /** Watering starts this far below the soil moisture setpoint. */
  const SOIL_MARGIN: real := 5.0
  const WATERING_MS: U32 := 5000
  const VENT_TEMP: real := 28.0
  const VENT_HUM: real := 70.0

  // ===== What each rule commands =====

  /** controlTemperature: above the band the fan runs and the heater stops,
      below it the reverse; inside it both are commanded off. */
  function TemperatureCommands(t: Option<real>, setpoint: real): seq<Command>
  {
    if t.None? then []
    else if t.value > setpoint + TEMP_HYSTERESIS then [FanCmd(true), HeaterCmd(false)]
    else if t.value < setpoint - TEMP_HYSTERESIS then [HeaterCmd(true), FanCmd(false)]
    else [FanCmd(false), HeaterCmd(false)]
  }

  /** controlHumidity: only outside the band does it command the fan. */
  function HumidityCommands(h: Option<real>, setpoint: real): seq<Command>
  {
    if h.None? then []
    else if h.value > setpoint + HUM_HYSTERESIS then [FanCmd(true)]
    else if h.value < setpoint - HUM_HYSTERESIS then [FanCmd(false)]
    else []
  }

  /** controlSoilMoisture waters when the soil is more than 5 points too dry
      and more than `cooldown` ms (unsigned 32-bit difference) have passed. */
  predicate WateringDue(m: Option<real>, setpoint: real, now: U32, lastPumpRun: U32, cooldown: U32)
  {
    m.Some? && m.value < setpoint - SOIL_MARGIN && U32Sub(now, lastPumpRun) > cooldown
  }

  function SoilCommands(m: Option<real>, setpoint: real, now: U32, lastPumpRun: U32, cooldown: U32): seq<Command>
  {
    if WateringDue(m, setpoint, now, lastPumpRun, cooldown) then [PumpCmd(true, WATERING_MS)] else []
  }

  /** controlLighting: one command, on exactly inside the schedule. */
  function LightingCommands(hour: int, onHour: int, offHour: int): seq<Command>
  {
    [LightCmd(onHour <= hour && hour < offHour)]
  }

  /** controlVentilation: hot and humid air switches the fan on. */
  function VentilationCommands(t: Option<real>, h: Option<real>): seq<Command>
  {
    if t.Some? && h.Some? && t.value > VENT_TEMP && h.value > VENT_HUM then [FanCmd(true)] else []
  }

  /** Everything one call of process commands, in order, when `datum` is the
      snapshot and `hour` the current hour. */
  function ProcessCommands(datum: SensorData, s: SystemSettings, hour: int, now: U32,
                           lastPumpRun: U32, cooldown: U32): seq<Command>
  {
    if !s.automationEnabled then []
    else
      TemperatureCommands(datum.airTemperature, s.tempSetpoint)
      + HumidityCommands(datum.airHumidity, s.humSetpoint)
      + SoilCommands(datum.soilMoisture, s.soilMoistureSetpoint, now, lastPumpRun, cooldown)
      + LightingCommands(hour, s.lightOnHour, s.lightOffHour)
      + VentilationCommands(datum.airTemperature, datum.airHumidity)
  }

  // ===== How each rule votes, stated independently of the commands =====

  /** The fan state the temperature rule asks for, if any. */
  function TemperatureFanVote(t: Option<real>, setpoint: real): Option<bool>
  {
    if t.None? then None else Some(t.value > setpoint + TEMP_HYSTERESIS)
  }

  /** The heater state the temperature rule asks for, if any. */
  function HeaterVote(t: Option<real>, setpoint: real): Option<bool>
  {
    if t.None? then None else Some(t.value < setpoint - TEMP_HYSTERESIS)
  }

  /** The fan state the humidity rule asks for, if any. */
  function HumidityFanVote(h: Option<real>, setpoint: real): Option<bool>
  {
    if h.Some? && h.value > setpoint + HUM_HYSTERESIS then Some(true)
    else if h.Some? && h.value < setpoint - HUM_HYSTERESIS then Some(false)
    else None
  }

  predicate VentilationFires(t: Option<real>, h: Option<real>)
  {
    t.Some? && h.Some? && t.value > VENT_TEMP && h.value > VENT_HUM
  }

  function Vote(v: Option<bool>, otherwise: bool): bool
  {
    if v.Some? then v.value else otherwise
  }

  // ===== Properties of the rules =====

  lemma ApplyOne(d: SensorData, c: Command)
    ensures ApplyAll(d, [c]) == Apply(d, c)
  {
    assert [c][1..] == [];
  }

  lemma ApplyTwo(d: SensorData, c: Command, c': Command)
    ensures ApplyAll(d, [c, c']) == Apply(Apply(d, c), c')
  {
    assert [c, c'][1..] == [c'];
    ApplyOne(Apply(d, c), c');
  }

  /** The temperature rule on its own. */
  lemma TemperatureEffect(d: SensorData, t: Option<real>, setpoint: real)
    ensures var r := ApplyAll(d, TemperatureCommands(t, setpoint));
      && r.fanState == Vote(TemperatureFanVote(t, setpoint), d.fanState)
      && r.heaterState == Vote(HeaterVote(t, setpoint), d.heaterState)
      && r.pumpState == d.pumpState && r.lightState == d.lightState
      && ReadingsOf(r) == ReadingsOf(d)
  {
    var cs := TemperatureCommands(t, setpoint);
    if |cs| == 2 {
      ApplyTwo(d, cs[0], cs[1]);
      assert cs == [cs[0], cs[1]];
    }
  }

  /** The humidity rule on its own. */
  lemma HumidityEffect(d: SensorData, h: Option<real>, setpoint: real)
    ensures ApplyAll(d, HumidityCommands(h, setpoint)) == d.(fanState := Vote(HumidityFanVote(h, setpoint), d.fanState))
  {
    var cs := HumidityCommands(h, setpoint);
    if cs != [] {
      ApplyOne(d, cs[0]);
      assert cs == [cs[0]];
    }
  }

  lemma SoilEffect(d: SensorData, m: Option<real>, setpoint: real, now: U32, last: U32, cooldown: U32)
    ensures ApplyAll(d, SoilCommands(m, setpoint, now, last, cooldown))
      == d.(pumpState := d.pumpState || WateringDue(m, setpoint, now, last, cooldown))
  {
    if WateringDue(m, setpoint, now, last, cooldown) {
      ApplyOne(d, PumpCmd(true, WATERING_MS));
    }
  }

  lemma VentilationEffect(d: SensorData, t: Option<real>, h: Option<real>)
    ensures ApplyAll(d, VentilationCommands(t, h)) == d.(fanState := d.fanState || VentilationFires(t, h))
  {
    if VentilationFires(t, h) {
      ApplyOne(d, FanCmd(true));
    }
  }

  /** The actuator flags after one process call: the fan follows the last
      rule that voted (ventilation, then humidity, then temperature), the
      heater only the temperature rule, the pump is only ever switched on,
      and the light follows the schedule; no reading changes. */
  lemma {:induction false} ProcessEffect(d: SensorData, datum: SensorData, s: SystemSettings, hour: int,
                                         now: U32, last: U32, cooldown: U32)
    requires s.automationEnabled
    ensures var r := ApplyAll(d, ProcessCommands(datum, s, hour, now, last, cooldown));
      var t, h := datum.airTemperature, datum.airHumidity;
      && r.fanState == (VentilationFires(t, h) ||
           Vote(HumidityFanVote(h, s.humSetpoint), Vote(TemperatureFanVote(t, s.tempSetpoint), d.fanState)))
      && r.heaterState == Vote(HeaterVote(t, s.tempSetpoint), d.heaterState)
      && r.pumpState == (d.pumpState || WateringDue(datum.soilMoisture, s.soilMoistureSetpoint, now, last, cooldown))
      && r.lightState == (s.lightOnHour <= hour < s.lightOffHour)
      && ReadingsOf(r) == ReadingsOf(d)
  {
    var t, h := datum.airTemperature, datum.airHumidity;
    var ct := TemperatureCommands(t, s.tempSetpoint);
    var ch := HumidityCommands(h, s.humSetpoint);
    var cs := SoilCommands(datum.soilMoisture, s.soilMoistureSetpoint, now, last, cooldown);
    var cl := LightingCommands(hour, s.lightOnHour, s.lightOffHour);
    var cv := VentilationCommands(t, h);
    ApplyAllAppend(d, ct, ch);
    ApplyAllAppend(d, ct + ch, cs);
    ApplyAllAppend(d, ct + ch + cs, cl);
    ApplyAllAppend(d, ct + ch + cs + cl, cv);
    var d1 := ApplyAll(d, ct);
    TemperatureEffect(d, t, s.tempSetpoint);
    HumidityEffect(d1, h, s.humSetpoint);
    var d2 := ApplyAll(d1, ch);
    SoilEffect(d2, datum.soilMoisture, s.soilMoistureSetpoint, now, last, cooldown);
    var d3 := ApplyAll(d2, cs);
    ApplyOne(d3, cl[0]);
    var d4 := ApplyAll(d3, cl);
    VentilationEffect(d4, t, h);
  }

  /** With automation disabled, process commands nothing. */
  lemma DisabledCommandsNothing(datum: SensorData, s: SystemSettings, hour: int, now: U32, last: U32, cooldown: U32)
    requires !s.automationEnabled
    ensures ProcessCommands(datum, s, hour, now, last, cooldown) == []
  {
  }

  /** The only pump command process ever issues switches the pump on for
      5000 ms, and it is issued exactly when watering is due. */
  lemma {:induction false} PumpOnlyStarts(datum: SensorData, s: SystemSettings, hour: int, now: U32, last: U32, cooldown: U32)
    ensures var cmds := ProcessCommands(datum, s, hour, now, last, cooldown);
      && (forall k :: 0 <= k < |cmds| && cmds[k].PumpCmd? ==> cmds[k] == PumpCmd(true, WATERING_MS))
      && ((exists k :: 0 <= k < |cmds| && cmds[k].PumpCmd?) <==>
          s.automationEnabled && WateringDue(datum.soilMoisture, s.soilMoistureSetpoint, now, last, cooldown))
  {
    var cmds := ProcessCommands(datum, s, hour, now, last, cooldown);
    if s.automationEnabled {
      var t, h := datum.airTemperature, datum.airHumidity;
      var ct := TemperatureCommands(t, s.tempSetpoint);
      var ch := HumidityCommands(h, s.humSetpoint);
      var cs := SoilCommands(datum.soilMoisture, s.soilMoistureSetpoint, now, last, cooldown);
      var pre: seq<Command> := ct + ch;
      var rest: seq<Command> := LightingCommands(hour, s.lightOnHour, s.lightOffHour) + VentilationCommands(t, h);
      assert cmds == pre + cs + rest;
      assert forall k :: 0 <= k < |pre| ==> !pre[k].PumpCmd?;
      assert forall k :: 0 <= k < |rest| ==> !rest[k].PumpCmd?;
      if WateringDue(datum.soilMoisture, s.soilMoistureSetpoint, now, last, cooldown) {
        assert cmds[|pre|] == PumpCmd(true, WATERING_MS);
      }
    }
  }

  /** A missing moisture reading never waters. */
  lemma MissingMoistureNeverWaters(s: SystemSettings, now: U32, last: U32, cooldown: U32)
    ensures !WateringDue(None, s.soilMoistureSetpoint, now, last, cooldown)
  {
  }

  /** Once watering has recorded `now`, a second call at the same instant
      does not water again, whatever the cooldown. */
  lemma NoRepeatWatering(m: Option<real>, setpoint: real, now: U32, cooldown: U32)
    ensures !WateringDue(m, setpoint, now, now, cooldown)
  {
  }

  /** An empty or inverted schedule keeps the light off at every hour. */
  lemma InvertedScheduleKeepsLightOff(hour: int, onHour: int, offHour: int)
    requires offHour <= onHour
    ensures LightingCommands(hour, onHour, offHour) == [LightCmd(false)]
  {
  }

  /** Humidity below its band overrides a hot reading: the fan ends off even
      though the temperature rule switched it on. */
  lemma {:induction false} DryAirOverridesHeat(d: SensorData, datum: SensorData, s: SystemSettings, hour: int,
                                              now: U32, last: U32, cooldown: U32)
    requires s.automationEnabled && !VentilationFires(datum.airTemperature, datum.airHumidity)
    requires datum.airHumidity.Some? && datum.airHumidity.value < s.humSetpoint - HUM_HYSTERESIS
    ensures TemperatureFanVote(datum.airTemperature, s.tempSetpoint) != Some(true)
      || !ApplyAll(d, ProcessCommands(datum, s, hour, now, last, cooldown)).fanState
  {
    ProcessEffect(d, datum, s, hour, now, last, cooldown);
  }

  // ===== The rules as the firmware runs them =====

  class Automation {
    /** `millis()` at the last automated watering. */
    var lastPumpRun: U32
    /** PUMP_COOLDOWN: Automation.cpp uses it, and `lastPumpRun`, but
        Automation.h declares neither, so the cooldown is a parameter. */
    const pumpCooldown: U32

    constructor(cooldown: U32)
      ensures lastPumpRun == 0 && pumpCooldown == cooldown
    {
      lastPumpRun := 0;
      pumpCooldown := cooldown;
    }

    /** `datum` is the snapshot the rules read, `hour` the current hour
        (the firmware fixes it at 12) and `now` is `millis()`. */
    method Process(datum: SensorData, s: SystemSettings, devices: DeviceManager, hour: int, now: U32)
      modifies this`lastPumpRun, devices`data, devices`issued,
        devices`pumpAutoStop, devices`pumpStartTime, devices`pumpDuration
      ensures var cmds := ProcessCommands(datum, s, hour, now, old(lastPumpRun), pumpCooldown);
        devices.issued == old(devices.issued) + cmds && devices.data == ApplyAll(old(devices.data), cmds)
      ensures var watered := s.automationEnabled
          && WateringDue(datum.soilMoisture, s.soilMoistureSetpoint, now, old(lastPumpRun), pumpCooldown);
        && lastPumpRun == (if watered then now else old(lastPumpRun))
        && (watered ==> devices.pumpAutoStop && devices.pumpStartTime == now && devices.pumpDuration == WATERING_MS)
        && (!watered ==> unchanged(devices`pumpAutoStop, devices`pumpStartTime, devices`pumpDuration))
    {
      if !s.automationEnabled {
        return;
      }
      ghost var d0 := devices.data;
      ControlClimate(datum, s, devices);
      ControlRest(datum, s, devices, hour, now);
      ApplyAllAppend(d0, TemperatureCommands(datum.airTemperature, s.tempSetpoint)
        + HumidityCommands(datum.airHumidity, s.humSetpoint),
        SoilCommands(datum.soilMoisture, s.soilMoistureSetpoint, now, old(lastPumpRun), pumpCooldown)
        + LightingCommands(hour, s.lightOnHour, s.lightOffHour)
        + VentilationCommands(datum.airTemperature, datum.airHumidity));
      assert ProcessCommands(datum, s, hour, now, old(lastPumpRun), pumpCooldown)
        == (TemperatureCommands(datum.airTemperature, s.tempSetpoint)
            + HumidityCommands(datum.airHumidity, s.humSetpoint))
        + (SoilCommands(datum.soilMoisture, s.soilMoistureSetpoint, now, old(lastPumpRun), pumpCooldown)
            + LightingCommands(hour, s.lightOnHour, s.lightOffHour)
            + VentilationCommands(datum.airTemperature, datum.airHumidity));
    }

    /** The two rules on air temperature and humidity, in order. */
    method ControlClimate(datum: SensorData, s: SystemSettings, devices: DeviceManager)
      modifies devices`data, devices`issued
      ensures var cmds := TemperatureCommands(datum.airTemperature, s.tempSetpoint)
          + HumidityCommands(datum.airHumidity, s.humSetpoint);
        devices.issued == old(devices.issued) + cmds && devices.data == ApplyAll(old(devices.data), cmds)
    {
      ghost var d0 := devices.data;
      ControlTemperature(datum, s, devices);
      ControlHumidity(datum, s, devices);
      ApplyAllAppend(d0, TemperatureCommands(datum.airTemperature, s.tempSetpoint),
        HumidityCommands(datum.airHumidity, s.humSetpoint));
    }

    /** The soil, lighting and ventilation rules, in order. */
    method ControlRest(datum: SensorData, s: SystemSettings, devices: DeviceManager, hour: int, now: U32)
      modifies this`lastPumpRun, devices`data, devices`issued,
        devices`pumpAutoStop, devices`pumpStartTime, devices`pumpDuration
      ensures var cmds := SoilCommands(datum.soilMoisture, s.soilMoistureSetpoint, now, old(lastPumpRun), pumpCooldown)
          + LightingCommands(hour, s.lightOnHour, s.lightOffHour)
          + VentilationCommands(datum.airTemperature, datum.airHumidity);
        devices.issued == old(devices.issued) + cmds && devices.data == ApplyAll(old(devices.data), cmds)
      ensures var watered := WateringDue(datum.soilMoisture, s.soilMoistureSetpoint, now, old(lastPumpRun), pumpCooldown);
        && lastPumpRun == (if watered then now else old(lastPumpRun))
        && (watered ==> devices.pumpAutoStop && devices.pumpStartTime == now && devices.pumpDuration == WATERING_MS)
        && (!watered ==> unchanged(devices`pumpAutoStop, devices`pumpStartTime, devices`pumpDuration))
    {
      ghost var d0 := devices.data;
      ControlSoilMoisture(datum, s, devices, now);
      ControlDaylightAndAir(datum, s, devices, hour);
      ApplyAllAppend(d0, SoilCommands(datum.soilMoisture, s.soilMoistureSetpoint, now, old(lastPumpRun), pumpCooldown),
        LightingCommands(hour, s.lightOnHour, s.lightOffHour) + VentilationCommands(datum.airTemperature, datum.airHumidity));
      assert SoilCommands(datum.soilMoisture, s.soilMoistureSetpoint, now, old(lastPumpRun), pumpCooldown)
          + LightingCommands(hour, s.lightOnHour, s.lightOffHour)
          + VentilationCommands(datum.airTemperature, datum.airHumidity)
        == SoilCommands(datum.soilMoisture, s.soilMoistureSetpoint, now, old(lastPumpRun), pumpCooldown)
          + (LightingCommands(hour, s.lightOnHour, s.lightOffHour)
          + VentilationCommands(datum.airTemperature, datum.airHumidity));
    }

    /** The lighting and ventilation rules, in order. */
    method ControlDaylightAndAir(datum: SensorData, s: SystemSettings, devices: DeviceManager, hour: int)
      modifies devices`data, devices`issued
      ensures var cmds := LightingCommands(hour, s.lightOnHour, s.lightOffHour)
          + VentilationCommands(datum.airTemperature, datum.airHumidity);
        devices.issued == old(devices.issued) + cmds && devices.data == ApplyAll(old(devices.data), cmds)
    {
      ghost var d0 := devices.data;
      ControlLighting(s, devices, hour);
      ControlVentilation(datum, devices);
      ApplyAllAppend(d0, LightingCommands(hour, s.lightOnHour, s.lightOffHour),
        VentilationCommands(datum.airTemperature, datum.airHumidity));
    }

    method ControlTemperature(datum: SensorData, s: SystemSettings, devices: DeviceManager)
      modifies devices`data, devices`issued
      ensures var cmds := TemperatureCommands(datum.airTemperature, s.tempSetpoint);
        devices.issued == old(devices.issued) + cmds && devices.data == ApplyAll(old(devices.data), cmds)
    {
      if datum.airTemperature.None? {
        return;
      }
      var temp, setpoint := datum.airTemperature.value, s.tempSetpoint;
      ghost var d0 := devices.data;
      if temp > setpoint + TEMP_HYSTERESIS {
        devices.ControlFan(true);
        devices.ControlHeater(false);
        ApplyTwo(d0, FanCmd(true), HeaterCmd(false));
      } else if temp < setpoint - TEMP_HYSTERESIS {
        devices.ControlHeater(true);
        devices.ControlFan(false);
        ApplyTwo(d0, HeaterCmd(true), FanCmd(false));
      } else {
        devices.ControlFan(false);
        devices.ControlHeater(false);
        ApplyTwo(d0, FanCmd(false), HeaterCmd(false));
      }
    }

    method ControlHumidity(datum: SensorData, s: SystemSettings, devices: DeviceManager)
      modifies devices`data, devices`issued
      ensures var cmds := HumidityCommands(datum.airHumidity, s.humSetpoint);
        devices.issued == old(devices.issued) + cmds && devices.data == ApplyAll(old(devices.data), cmds)
    {
      if datum.airHumidity.None? {
        return;
      }
      var humidity, setpoint := datum.airHumidity.value, s.humSetpoint;
      ghost var d0 := devices.data;
      if humidity > setpoint + HUM_HYSTERESIS {
        devices.ControlFan(true);
        ApplyOne(d0, FanCmd(true));
      } else if humidity < setpoint - HUM_HYSTERESIS {
        devices.ControlFan(false);
        ApplyOne(d0, FanCmd(false));
      }
    }

    method ControlSoilMoisture(datum: SensorData, s: SystemSettings, devices: DeviceManager, now: U32)
      modifies this`lastPumpRun, devices`data, devices`issued,
        devices`pumpAutoStop, devices`pumpStartTime, devices`pumpDuration
      ensures var cmds := SoilCommands(datum.soilMoisture, s.soilMoistureSetpoint, now, old(lastPumpRun), pumpCooldown);
        devices.issued == old(devices.issued) + cmds && devices.data == ApplyAll(old(devices.data), cmds)
      ensures var watered := WateringDue(datum.soilMoisture, s.soilMoistureSetpoint, now, old(lastPumpRun), pumpCooldown);
        && lastPumpRun == (if watered then now else old(lastPumpRun))
        && (watered ==> devices.pumpAutoStop && devices.pumpStartTime == now && devices.pumpDuration == WATERING_MS)
        && (!watered ==> unchanged(devices`pumpAutoStop, devices`pumpStartTime, devices`pumpDuration))
    {
      if datum.soilMoisture.None? {
        return;
      }
      var moisture, setpoint := datum.soilMoisture.value, s.soilMoistureSetpoint;
      if moisture < setpoint - SOIL_MARGIN && U32Sub(now, lastPumpRun) > pumpCooldown {
        ghost var d0 := devices.data;
        devices.ControlPump(now, true, WATERING_MS);
        ApplyOne(d0, PumpCmd(true, WATERING_MS));
        lastPumpRun := now;
      }
    }

    /** controlLighting reads no sensor, only the schedule. */
    method ControlLighting(s: SystemSettings, devices: DeviceManager, hour: int)
      modifies devices`data, devices`issued
      ensures var cmds := LightingCommands(hour, s.lightOnHour, s.lightOffHour);
        devices.issued == old(devices.issued) + cmds && devices.data == ApplyAll(old(devices.data), cmds)
    {
      ghost var d0 := devices.data;
      if hour >= s.lightOnHour && hour < s.lightOffHour {
        devices.ControlLight(true);
        ApplyOne(d0, LightCmd(true));
      } else {
        devices.ControlLight(false);
        ApplyOne(d0, LightCmd(false));
      }
    }

    method ControlVentilation(datum: SensorData, devices: DeviceManager)
      modifies devices`data, devices`issued
      ensures var cmds := VentilationCommands(datum.airTemperature, datum.airHumidity);
        devices.issued == old(devices.issued) + cmds && devices.data == ApplyAll(old(devices.data), cmds)
    {
      if datum.airTemperature.Some? && datum.airHumidity.Some? {
        if datum.airTemperature.value > VENT_TEMP && datum.airHumidity.value > VENT_HUM {
          ghost var d0 := devices.data;
          devices.ControlFan(true);
          ApplyOne(d0, FanCmd(true));
        }
      }
    }
  }
}

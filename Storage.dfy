/** EEPROMManager.cpp: validation, version migration and the load/save
    protocol.  The EEPROM is one cell holding a settings record at
    SETTINGS_ADDRESS; `EEPROM.put` replaces it and `EEPROM.commit` answers
    with a boolean the caller passes in. */
module Storage {
  import opened Config

  const TEMP_SETPOINT_MIN: real := 10.0
  const TEMP_SETPOINT_MAX: real := 40.0
  const HUM_SETPOINT_MIN: real := 20.0
  const HUM_SETPOINT_MAX: real := 90.0
  const SOIL_SETPOINT_MIN: real := 10.0
  const SOIL_SETPOINT_MAX: real := 90.0
  const HOUR_MAX: int := 23

  /** validateSettings, with its early returns. */
  function ValidateSettings(s: SystemSettings): (ok: bool)
    ensures ok <==>
      && s.version == CONFIG_VERSION
      && TEMP_SETPOINT_MIN <= s.tempSetpoint <= TEMP_SETPOINT_MAX
      && HUM_SETPOINT_MIN <= s.humSetpoint <= HUM_SETPOINT_MAX
      && SOIL_SETPOINT_MIN <= s.soilMoistureSetpoint <= SOIL_SETPOINT_MAX
      && 0 <= s.lightOnHour <= HOUR_MAX && 0 <= s.lightOffHour <= HOUR_MAX
  {
    if s.version != CONFIG_VERSION then false
    else if s.tempSetpoint < TEMP_SETPOINT_MIN || s.tempSetpoint > TEMP_SETPOINT_MAX then false
    else if s.humSetpoint < HUM_SETPOINT_MIN || s.humSetpoint > HUM_SETPOINT_MAX then false
    else if s.soilMoistureSetpoint < SOIL_SETPOINT_MIN || s.soilMoistureSetpoint > SOIL_SETPOINT_MAX then false
    else if s.lightOnHour < 0 || s.lightOnHour > HOUR_MAX || s.lightOffHour < 0 || s.lightOffHour > HOUR_MAX then false
    else true
  }

  /** The default settings pass every check. */
  lemma DefaultSettingsValid()
    ensures ValidateSettings(DefaultSettings())
  {
  }

  /** A record of an older version never validates, so loadSettings can
      never reach its migration branch. */
  lemma OldVersionsInvalid(s: SystemSettings)
    requires s.version != CONFIG_VERSION
    ensures !ValidateSettings(s)
  {
  }

  /** Migrating a version 1 or 2 record that is otherwise in range, with the
      soil setpoint reset to 50, yields a valid record. */
  lemma MigrationRepairsVersion(s: SystemSettings, fromVersion: U8)
    requires fromVersion == 1 || fromVersion == 2
    requires TEMP_SETPOINT_MIN <= s.tempSetpoint <= TEMP_SETPOINT_MAX
    requires HUM_SETPOINT_MIN <= s.humSetpoint <= HUM_SETPOINT_MAX
    requires 0 <= s.lightOnHour <= HOUR_MAX && 0 <= s.lightOffHour <= HOUR_MAX
    ensures ValidateSettings(s.(soilMoistureSetpoint := 50.0, version := CONFIG_VERSION))
    ensures fromVersion == 1 ==> ValidateSettings(s.(displayBrightness := 7, use24HourFormat := true,
      soilMoistureSetpoint := 50.0, version := CONFIG_VERSION))
  {
  }

  class EepromManager {
    /** The settings record in the EEPROM. */
    var stored: SystemSettings

    /** `initial` is what the EEPROM holds at power-up. */
    constructor(initial: SystemSettings)
      ensures stored == initial
    {
      stored := initial;
    }

    /** loadSettings: `settings` is the out-parameter, which holds the
        stored record whether or not it validates. */
    method LoadSettings() returns (ok: bool, settings: SystemSettings)
      ensures settings == stored
      ensures ok <==> ValidateSettings(stored)
      ensures ok ==> settings.version == CONFIG_VERSION
    {
      settings := stored;
      if !ValidateSettings(settings) {
        return false, settings;
      }
      if settings.version != CONFIG_VERSION {
        // migrateSettings and saveSettings: unreachable, validation demands the current version
        assert false;
      }
      return true, settings;
    }

    /** saveSettings: `commit` is what `EEPROM.commit()` answers. */
    method SaveSettings(settings: SystemSettings, commit: bool) returns (ok: bool)
      modifies this`stored
      ensures ValidateSettings(settings) ==> stored == settings && ok == commit
      ensures !ValidateSettings(settings) ==> stored == old(stored) && !ok
    {
      if !ValidateSettings(settings) {
        return false;
      }
      stored := settings;
      ok := commit;
    }

    method ResetToDefaults(commit: bool)
      modifies this`stored
      ensures stored == DefaultSettings()
    {
      DefaultSettingsValid();
      var _ := SaveSettings(DefaultSettings(), commit);
    }

    /** migrateSettings: the `switch` falls through from version 1 into
        version 2; any other version resets the EEPROM and leaves the record
        as it was.  The record is a reference parameter in the firmware; here
        it goes in and comes back. */
    method MigrateSettings(settings: SystemSettings, fromVersion: U8, commit: bool) returns (r: SystemSettings)
      modifies this`stored
      ensures fromVersion == 1 ==> r == settings.(displayBrightness := 7, use24HourFormat := true,
        soilMoistureSetpoint := 50.0, version := CONFIG_VERSION)
      ensures fromVersion == 2 ==> r == settings.(soilMoistureSetpoint := 50.0, version := CONFIG_VERSION)
      ensures fromVersion in {1, 2} ==> stored == old(stored)
      ensures fromVersion !in {1, 2} ==> r == settings && stored == DefaultSettings()
    {
      r := settings;
      if fromVersion == 1 {
        r := r.(displayBrightness := 7, use24HourFormat := true, version := 2);
      }
      if fromVersion == 1 || fromVersion == 2 {
        r := r.(soilMoistureSetpoint := 50.0, version := 3);
      } else {
        ResetToDefaults(commit);
      }
    }

    /** A save of valid settings followed by a load gives them back, whether
        or not the commit succeeded: the load reads the cell `put` wrote. */
    method SaveThenLoad(settings: SystemSettings, commit: bool) returns (saved: bool, loaded: bool, back: SystemSettings)
      modifies this`stored
      ensures ValidateSettings(settings) ==> saved == commit && loaded && back == settings
      ensures !ValidateSettings(settings) ==> !saved && back == old(stored) && loaded == ValidateSettings(old(stored))
    {
      saved := SaveSettings(settings, commit);
      loaded, back := LoadSettings();
    }
  }
}

/** Bounds and default values for each device type. */
module Constants {
  import opened Values

  // Water heater target temperature range (Celsius)
  const MIN_WATER_TEMP: int := 49
  const MAX_WATER_TEMP: int := 60
  // Air conditioner temperature range (Celsius)
  const MIN_AC_TEMP: int := 16
  const MAX_AC_TEMP: int := 30
  // Brightness range of a dimmable light
  const MIN_BRIGHTNESS: int := 0
  const MAX_BRIGHTNESS: int := 100

  // Water heater defaults
  const DEFAULT_WATER_TEMP: int := 60
  const DEFAULT_TIMER_ENABLED: bool := false
  const DEFAULT_START_TIME: string := "06:30"
  const DEFAULT_STOP_TIME: string := "08:00"

  // Air conditioner defaults
  const DEFAULT_AC_TEMP: int := 24
  const DEFAULT_AC_MODE: string := "cool"
  const DEFAULT_AC_FAN: string := "low"
  const DEFAULT_AC_SWING: string := "off"

  // Light defaults
  const DEFAULT_DIMMABLE: bool := false
  const DEFAULT_BRIGHTNESS: int := 80
  const DEFAULT_DYNAMIC_COLOR: bool := false
  const DEFAULT_LIGHT_COLOR: string := "#FFFFFF"

  // Door lock defaults
  const DEFAULT_AUTO_LOCK_ENABLED: bool := false
  const DEFAULT_BATTERY: int := 100

  // Curtain default
  const DEFAULT_POSITION: int := 100

  /** Every range is non-empty. */
  lemma RangesNonEmpty()
    ensures MIN_WATER_TEMP <= MAX_WATER_TEMP
    ensures MIN_AC_TEMP <= MAX_AC_TEMP
    ensures MIN_BRIGHTNESS <= MAX_BRIGHTNESS
  {
  }

  /** Each numeric default lies in its range; the water heater's sits at the top. */
  lemma DefaultsInRange()
    ensures MIN_WATER_TEMP <= DEFAULT_WATER_TEMP <= MAX_WATER_TEMP
    ensures DEFAULT_WATER_TEMP == MAX_WATER_TEMP
    ensures MIN_AC_TEMP <= DEFAULT_AC_TEMP <= MAX_AC_TEMP
    ensures MIN_BRIGHTNESS <= DEFAULT_BRIGHTNESS <= MAX_BRIGHTNESS
  {
  }
}

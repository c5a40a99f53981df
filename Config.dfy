/** Fixed-width integer types and the build-time constants of the chiller firmware.
    Temperatures are in tenths of a degree Celsius, flows in deciliters per minute.
    The floating-point constant expressions of the firmware are replaced by the
    integers they evaluate to. */
module Config {

  /** uint8_t */
  type Uint8 = x: int | 0 <= x < 0x100
  /** int16_t, the width of `deciliter_t` and of the raw sensor value */
  type Int16 = x: int | -0x8000 <= x < 0x8000
  /** int32_t, the width of `temp_tens_t` */
  type Int32 = x: int | -0x8000_0000 <= x < 0x8000_0000

  // Thermostat band: 16.0 C .. 18.0 C.
  const ControlLowTemp: Int32 := 160
  const ControlHighTemp: Int32 := ControlLowTemp + 20

  // Temperature alarm band: the alarm trips above 25.0 C and clears below 20.0 C.
  const AlarmTemp: Int32 := 250
  const AlarmClearTemp: Int32 := ControlHighTemp + 20

  /** Sentinel temperature (-99.9 C) reported when the sensor could not be read. */
  const ErrorTemp: Int32 := -999

  /** Number of cycles the pump and fan keep running after cooling stops. */
  const FanPumpDelay: Uint8 := 120
  /** Number of alarm-free cycles after which the flow is considered stable. */
  const StartupFlowTimeSlots: Uint8 := 16

  /** Minimum flow for 400 W at 2.0 C rise: 60 * 400 / (20 * 41.9) = 28.6, truncated. */
  const MinLiterPerMinute: Int16 := 28
  /** Flow below this (half the minimum) after startup is taken to be a leak. */
  const LeakThreshold: Int16 := MinLiterPerMinute / 2

  /** The flow-alarm clear threshold as the firmware computes it: `0.5L` is a plain
      long-double literal, so `28 + 0.5` truncates back to 28. */
  const ClearFlowAlarmAsWritten: Int16 := 28
  /** The clear threshold the hysteresis evidently intends: minimum plus 0.5 l/min. */
  const ClearFlowAlarmIntended: Int16 := MinLiterPerMinute + 5

  // Output bits on port D.
  const OutAlarm: bv8 := 1 << 4
  const OutInternalPump: bv8 := 1 << 5
  const OutWaterOff: bv8 := 1 << 6
  const OutCompressor: bv8 := 1 << 7

  /** The build-time check that the alarm can clear below where it trips. */
  lemma AlarmBandOrdered()
    ensures ControlHighTemp < AlarmClearTemp < AlarmTemp
    ensures ControlLowTemp < ControlHighTemp
    ensures 0 < LeakThreshold < MinLiterPerMinute <= ClearFlowAlarmAsWritten < ClearFlowAlarmIntended
  {
  }
}

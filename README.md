# Laser chiller controller: a verified model of its decision logic

This project models in Dafny the per-cycle decision logic of the ice-maker laser
chiller firmware (`firmware/main.cc`). Each cycle the firmware:

1. takes a sensor sample: the temperature in tenths of a degree, or the error
   sentinel -99.9 C, and the coolant flow in deciliters per minute;
2. updates its persistent `ControlOutput` in place (`ModifyControlOutput`). This
   step covers the thermostat and temperature-alarm hysteresis, the fail-safe
   counting of failed readings, the flow-alarm hysteresis, the startup debounce
   countdown, the one-way leak latch and the pump/fan afterrun counter;
3. writes the four output lines on port D (`SetActuators`).

Modules:

- `Config`: the fixed-width integer types and the build-time constants. Each
  constant is the integer the firmware's constant expression evaluates to
  (thermostat 160..180, alarm 250/200, sentinel -999, minimum flow 28, leak
  threshold 14, afterrun 120 cycles, startup 16 cycles), plus the port bits 4..7.
- `Sensors`: `ReadTemp` and the temperature choice in `ReadSensors`. The driver's
  status codes and raw value (1/16 C) are inputs. C's truncating division is
  written out, because Dafny's `/` is Euclidean.
- `Control`: the transition function `Next`, written as the firmware's stages in
  their order. Also `Run` over a sequence of samples, the invariant
  `SafetyInvariant` of every reachable state, and the class `Controller`. The
  class holds the `ControlOutput` fields and the function-static
  `broken_temp_reading_count`. Its `ModifyControlOutput` updates these fields in
  place, one stage method after another in the firmware's order. Each stage
  method is proved against its stage function, so the whole cycle is proved
  equal to `Next`.
- `ControlProperties`: lemmas for single cycles and for whole runs. They cover
  hysteresis and the dead band, failure handling, the startup countdown, the
  latch and its absorbing behaviour, and the afterrun countdown. Concrete
  scenarios show:
  - the compressor switching on across 18.0 C and holding at 17.9 C;
  - zero flow from boot never tripping the latch;
  - sixteen good-flow cycles ending startup;
  - one low-flow cycle after a stable start latching the leak for good.
- `Actuators`: the port-D mask, specified bit by bit.
- `MainLoop`: a bounded form of `main`'s loop. From the boot defaults it reads,
  controls and actuates over a finite sequence of acquisition windows, and
  returns the bytes written.

The firmware computes the flow-alarm clear threshold as 28 (see Findings). The
model takes that threshold as a parameter `clearFlowAlarm` whenever it is
`>= MinLiterPerMinute`. Every property proved for such a threshold holds for both
the as-written value 28 and the intended value 33.

Facts about `firmware/main.cc` that the model keeps exactly as the code has them:

- The startup countdown restarts when the flow alarm is raised after this
  cycle's flow update (main.cc:205-213), not on the alarm's value before it.
- While cooling stays off, the afterrun counter stays at 0 once it reaches 0
  (main.cc:233-236); a cooling cycle sets it back to 120.
- The failure counter is a `uint8_t`, so it wraps modulo 256 (main.cc:188, 199).
  The model proves that this wrap-around never clears a forced alarm.
- The transition updates `ControlOutput` in place and keeps its failure counter
  in a function-static variable (main.cc:187-188). So the next state depends on
  the previous outputs and on that counter.

## Model

| member | source | states |
|---|---|---|
| `Config.AlarmBandOrdered` | firmware/main.cc:59-81 | The thermostat band lies below the alarm-clear threshold, which lies below the alarm trip point. The leak threshold is below the minimum flow, which is at most the clear threshold. |
| `Sensors.ScaleRaw` | firmware/main.cc:153 | The tenths-of-degree value is the raw 1/16 C value times 10/16, rounded toward zero. For either sign, the result and the exact value have the same sign and differ by less than one unit. |
| `Sensors.ReadTemp` | firmware/main.cc:148-154 | A nonzero read status gives the sentinel -999. Status 0 gives the raw value scaled with truncation toward zero. |
| `Sensors.ReadSensors` | firmware/main.cc:175-185 | The flow passes through unchanged. A failed conversion start or a failed read gives the sentinel; otherwise the result is the scaled value. The temperature equals the sentinel exactly when the driver failed or the raw value is -1599. |
| `Sensors.SentinelCollision` | firmware/main.cc:148-154 | A raw value scales onto -999 exactly when it is -1599. |
| `Control.BootState` | firmware/main.cc:133-143 | No contract of its own: the boot defaults (no cooling, afterrun 0, both alarms raised, countdown 16, latch clear) and the static counter at 0. Described by `Control.BootSatisfiesInvariant` and `Control.Controller.constructor`. |
| `Control.TemperatureStage` | firmware/main.cc:188-201 | No contract of its own: the temperature stage. Described by `ControlProperties.TemperatureHysteresis`, `ControlProperties.SensorFailure` and `Control.Controller.UpdateTemperature`. |
| `Control.FlowAlarmStage` | firmware/main.cc:205-207 | No contract of its own: the flow-alarm hysteresis stage. Described by `ControlProperties.FlowAlarmHysteresis` and `Control.Controller.UpdateFlowAlarm`. |
| `Control.StartupStage` | firmware/main.cc:211-217 | No contract of its own: the startup debounce stage. Described by `ControlProperties.StartupCountdown` and `Control.Controller.UpdateStartup`. |
| `Control.LeakStage` | firmware/main.cc:222-230 | No contract of its own: the leak latch and its compressor override. Described by `ControlProperties.LeakLatch` and `Control.Controller.UpdateLeakLatch`. |
| `Control.AfterrunStage` | firmware/main.cc:233-237 | No contract of its own: the pump/fan afterrun stage. Described by `ControlProperties.PumpFanAfterrun` and `Control.Controller.UpdateAfterrun`. |
| `Control.Next` | firmware/main.cc:187-238 | No contract of its own: the five stages composed in the firmware's order. Described by `Control.NextPreservesInvariant`, the single-cycle lemmas of `ControlProperties`, and `Control.Controller.ModifyControlOutput`, which is proved equal to it. |
| `Control.Run` | firmware/main.cc:317-319 | No contract of its own: `Next` applied to each sample in turn. Described by `Control.RunStep`, `Control.RunPreservesInvariant`, `ControlProperties.RunAppend`, the run lemmas of `ControlProperties` and `MainLoop.RunLoop`. |
| `Control.BootSatisfiesInvariant` | firmware/main.cc:133-143 | The boot defaults satisfy the safety invariant. |
| `Control.NextPreservesInvariant` | firmware/main.cc:187-238 | One cycle preserves the invariant: startup countdown <= 16, afterrun <= 120, latch implies compressor off and startup over, cooling implies afterrun full, a partly elapsed countdown implies no flow alarm, and a failure count >= 2 implies the temperature alarm. |
| `Control.RunPreservesInvariant` | firmware/main.cc:187-238 | Any number of cycles from a safe state ends in a safe state. |
| `Control.RunStep` | firmware/main.cc:317-319 | One more loop iteration applies one more transition to the state reached so far. |
| `Control.Controller.constructor` | firmware/main.cc:133-143 | A fresh controller has the boot defaults: no cooling, afterrun 0, both alarms raised, startup countdown 16, latch clear, failure counter 0. |
| `Control.Controller.ModifyControlOutput` | firmware/main.cc:187-238 | The in-place update leaves the fields equal to `Next` of their old values, and it keeps the invariant. |
| `Control.Controller.UpdateTemperature` | firmware/main.cc:188-201 | The in-place temperature stage. A valid reading applies both hysteresis rules and zeroes the counter. The sentinel increments the counter modulo 256 and OR-s in `count >= 2`. |
| `Control.Controller.UpdateFlowAlarm` | firmware/main.cc:205-207 | The in-place flow-alarm hysteresis stage. Nothing else changes. |
| `Control.Controller.UpdateStartup` | firmware/main.cc:211-217 | The in-place startup stage: a nonzero countdown restarts at 16 under the flow alarm and otherwise drops by one. |
| `Control.Controller.UpdateLeakLatch` | firmware/main.cc:222-230 | The in-place latch stage: the latch is set when startup is over and the flow is below 14, and a set latch turns the compressor off. |
| `Control.Controller.UpdateAfterrun` | firmware/main.cc:233-237 | The in-place afterrun stage: cooling sets the counter to 120; otherwise a positive counter drops by one. |
| `ControlProperties.TemperatureHysteresis` | firmware/main.cc:189-197 | With a valid reading, the new alarm is `t > 200` if the alarm was raised and `t > 250` otherwise. The new compressor state is `t > 160` if it was on and `t > 180` otherwise, unless the latch is set. The counter resets. Between 16.1 C and 18.0 C the compressor keeps its state. |
| `ControlProperties.SensorFailure` | firmware/main.cc:198-201 | On the sentinel, the counter increments modulo 256 and the alarm becomes `old alarm or count >= 2`, so it is never cleared. The compressor keeps its decision unless the latch is set. |
| `ControlProperties.TwoFailuresForceAlarm` | firmware/main.cc:188-201 | From any reachable state, two consecutive failed readings leave the temperature alarm raised. |
| `ControlProperties.OneFailureDoesNotForceAlarm` | firmware/main.cc:188-201 | A single failed reading right after a valid one leaves the temperature alarm as it was. |
| `ControlProperties.PersistentFailureKeepsAlarm` | firmware/main.cc:188-201 | From any safe (so any reachable) state, any run of two or more failed readings ends with the alarm raised, including runs longer than 256 cycles, after the counter has wrapped. |
| `ControlProperties.FlowAlarmHysteresis` | firmware/main.cc:205-207 | The new flow alarm is `flow < clear` if it was raised and `flow < 28` otherwise. A flow below 28 always leaves it raised. |
| `ControlProperties.StartupCountdown` | firmware/main.cc:211-217 | The countdown stays within 0..16. A nonzero countdown restarts at 16 when the updated flow alarm is raised and drops by one otherwise. Once it is 0 it stays 0. |
| `ControlProperties.LeakLatch` | firmware/main.cc:222-230 | The new latch equals the old latch, or the updated countdown being 0 with a flow below 14. The latch cannot change while the countdown is nonzero. A set latch means the compressor is off. |
| `ControlProperties.PumpFanAfterrun` | firmware/main.cc:233-237 | Cooling means the afterrun counter is 120. Without cooling, the counter drops by one if positive and stays 0 otherwise. It never exceeds 120 if it started at or below 120. |
| `ControlProperties.RunAppend` | firmware/main.cc:317-323 | Running two sample sequences one after the other is the same as running their concatenation. |
| `ControlProperties.ReachableStatesAreSafe` | firmware/main.cc:133-238 | Every state reached from the boot defaults satisfies the invariant: latch implies no cooling, afterrun <= 120, and startup countdown <= 16. |
| `ControlProperties.LatchPersists` | firmware/main.cc:222-230 | Once set, the latch stays set and the compressor stays off over any later samples. |
| `ControlProperties.StartupDoneStaysDone` | firmware/main.cc:211-217 | A countdown at 0 stays 0 over any later samples. |
| `ControlProperties.DeadBandHoldsCooling` | firmware/main.cc:189-196 | From any safe (so any reachable) state: suppose every sample's temperature is in (16.0 C, 18.0 C] or failed, and its flow is at least 14. Then over the whole run neither the compressor nor the latch changes state. |
| `ControlProperties.AfterrunCountsDown` | firmware/main.cc:233-237 | If no cycle of a run ends with the compressor on, the afterrun counter ends at `max(0, start - cycles)`. |
| `ControlProperties.PumpStopsExactlyAfterDelay` | firmware/main.cc:233-237 | After a cycle with cooling, and with no cooling afterwards, the pump/fan counter is 0 exactly when at least 120 cycles have passed. |
| `ControlProperties.LeakRunsPumpDown` | firmware/main.cc:222-237 | After the latch is set, the afterrun counter drops by one per cycle down to 0. |
| `ControlProperties.LowFlowHoldsStartup` | firmware/main.cc:205-224 | While the flow stays below 28 during startup, the countdown stays at 16 after each cycle and the latch does not change. |
| `ControlProperties.GoodFlowEndsStartup` | firmware/main.cc:205-217 | While the flow stays at or above the clear threshold, the countdown ends at `max(0, start - cycles)`. |
| `ControlProperties.StartupFallsAtMostOnePerCycle` | firmware/main.cc:211-217 | The countdown falls by at most one per cycle and stays at most 16. |
| `ControlProperties.CoolingScenario` | firmware/main.cc:194-196 | From boot, the temperatures 15.0, 18.5 and 17.9 C give cooling off, then on, then on, whatever the flows. |
| `ControlProperties.NoFlowFromBootNeverLatches` | firmware/main.cc:205-224 | From boot, any number of zero-flow cycles leaves the latch clear and the countdown at 16. |
| `ControlProperties.SixteenGoodCyclesEndStartup` | firmware/main.cc:211-217 | From boot with good flow, startup is over exactly when at least 16 cycles have passed. |
| `ControlProperties.LeakScenario` | firmware/main.cc:211-230 | Sixteen or more cycles of good flow from boot, then one cycle below 14, set the latch. The latch stays set, with the compressor off, whatever follows. |
| `ControlProperties.AsWrittenFlowAlarmHasNoHysteresis` | firmware/main.cc:62 | With the threshold as written (28), the new flow alarm is exactly `flow < 28` whatever its previous value. The flows 27, 28, 27 toggle it on, off, on. |
| `ControlProperties.IntendedFlowAlarmHysteresis` | firmware/main.cc:62 | With the intended threshold 33, a flow in 28..32 keeps the flow alarm as it was. |
| `Actuators.PortMask` | firmware/main.cc:286-292 | Bit 4 is set iff a flow, temperature or leak alarm is raised. Bit 5 is set iff the afterrun counter is nonzero. Bit 7 is set iff cooling is on. Bit 6 is set iff the latch is set. Bits 0-3 are 0. |
| `Actuators.SafeStatesGiveSafeOutputs` | firmware/main.cc:286-292 | In a safe state, the port byte never shuts off the water while the compressor runs or the alarm is silent, and never runs the compressor without the pump. |
| `MainLoop.ControlAndActuate` | firmware/main.cc:319-320 | One control cycle, then the byte for the new state. That byte is safe. |
| `MainLoop.RunLoop` | firmware/main.cc:309-323 | From the boot defaults, the byte after cycle i is the mask of the state reached after samples 0..i, and every byte written is safe. |

## Left out

- Display rendering (`Display`, `strfmt`, fonts, the SH1106 and I2C drivers): output-only user interface over libraries that are not part of this model.
- The DS18B20 one-wire driver (`ds18b20convert`, `ds18b20read`) is not part of this model; its status codes and raw value are inputs (`Sensors.TempDriver`).
- The flow pulse counting is left out: `sFlowPulses`, the INT0 interrupt handler, `cli`/`sei` and the EICRA/EIMSK setup. It is interrupt concurrency and register I/O. This includes `ReadFlow` disabling interrupts without re-enabling them; the next `StartFlowSample` re-enables them.
- `ReadFlow`'s float conversion from pulses to deciliters per minute is floating point; the flow is taken as an arbitrary `int16_t` input.
- The float constant expressions that derive the thresholds (firmware/main.cc:52-66) are replaced by the integers they evaluate to.
- `WaitZeroCrossing`, `_delay_ms`/`_delay_us`, the watchdog and the data-direction register setup are hardware timing and reset behaviour. `main`'s infinite loop is bounded to a finite sequence of windows; its initial dummy `ReadSensors` does not touch the control state.
- Writing `OUTPUT_PORT` is the returned byte (`MainLoop.RunLoop`'s `ports`), not a register.

## Findings

| source | as written | input that shows it | evidently intended | confidence | as-written member | corrected member |
|---|---|---|---|---|---|---|
| firmware/main.cc:62 | `kClearFlowAlaram = kMinLiterPerMinute + 0.5L`: `0.5L` is a long-double literal, not the `_L` deciliter literal, so 28 + 0.5 truncates to 28 and the flow alarm has no hysteresis band | flows 27, 28, 27: the flow alarm goes on, off, on | `kMinLiterPerMinute + 0.5_L` = 33, so a raised alarm clears only at 3.3 l/min | high; not executed | `ControlProperties.AsWrittenFlowAlarmHasNoHysteresis` | `ControlProperties.IntendedFlowAlarmHysteresis` |

/** The actuator mapping of `SetActuators`: the port-D bit mask written for a
    `ControlOutput`. The zero-crossing wait before the write is hardware timing
    and not modelled. */
module Actuators {
  import opened Config
  import opened Control

  /** The output byte, built as the firmware does by OR-ing one bit per line. */
  function PortMask(c: ControlOutput): (port: bv8)
    ensures (port & OutAlarm != 0) <==> (c.alarmFlow || c.alarmTemp || c.alarmExtremeFlowLoss)
    ensures (port & OutInternalPump != 0) <==> c.pumpFan != 0
    ensures (port & OutCompressor != 0) <==> c.coolingOn
    ensures (port & OutWaterOff != 0) <==> c.alarmExtremeFlowLoss
    ensures port & 0x0F == 0
  {
    var port: bv8 := 0;
    var port := port | if c.alarmFlow || c.alarmTemp || c.alarmExtremeFlowLoss then OutAlarm else 0;
    var port := port | if c.pumpFan != 0 then OutInternalPump else 0;
    var port := port | if c.coolingOn then OutCompressor else 0;
    port | if c.alarmExtremeFlowLoss then OutWaterOff else 0
  }

  /** A port byte that never shuts off the water with the compressor running or
      without sounding the alarm, and never runs the compressor without the pump. */
  predicate SafePort(port: bv8)
  {
    (port & OutWaterOff != 0 ==> port & OutCompressor == 0 && port & OutAlarm != 0) &&
    (port & OutCompressor != 0 ==> port & OutInternalPump != 0)
  }

  /** Every safe state of the controller produces a safe port byte. */
  lemma SafeStatesGiveSafeOutputs(st: ControlState)
    requires SafetyInvariant(st)
    ensures SafePort(PortMask(st.out))
  {
  }
}

/** The per-cycle control state machine of the chiller (`ModifyControlOutput`).
    `Next` is the transition as a function of the previous state and one sample;
    `Controller` is the persistent `ControlOutput` record, updated in place field by
    field as the firmware does, together with the function-static counter of
    consecutive failed temperature readings. */
module Control {
  import opened Config
  import opened Sensors

  /** The controller's outputs, persistent across cycles. */
  datatype ControlOutput = ControlOutput(
    coolingOn: bool,              // compressor on
    pumpFan: Uint8,               // pump and fan run while nonzero
    alarmTemp: bool,              // temperature might compromise tube lifetime
    alarmFlow: bool,              // flow through the tube not sufficient
    flowInStartup: Uint8,         // countdown until the flow is considered solid
    alarmExtremeFlowLoss: bool)   // leak latch

  /** Everything one cycle reads and writes: the outputs and the failure counter. */
  datatype ControlState = ControlState(out: ControlOutput, brokenTempReadingCount: Uint8)

  /** Boot defaults: no cooling, both alarms raised, startup countdown full. */
  const BootState: ControlState :=
    ControlState(ControlOutput(false, 0, true, true, StartupFlowTimeSlots, false), 0)

  /** The temperature stage: two hysteresis loops on a valid reading, failure
      counting (with uint8_t wrap-around) on the sentinel. */
  function TemperatureStage(st: ControlState, temp: Int32): ControlState
  {
    var o := st.out;
    if temp != ErrorTemp then
      var alarmTemp := if o.alarmTemp then temp > AlarmClearTemp else temp > AlarmTemp;
      var coolingOn := if o.coolingOn then temp > ControlLowTemp else temp > ControlHighTemp;
      ControlState(o.(alarmTemp := alarmTemp, coolingOn := coolingOn), 0)
    else
      var count: Uint8 := (st.brokenTempReadingCount + 1) % 0x100;
      ControlState(o.(alarmTemp := o.alarmTemp || count >= 2), count)
  }

  /** The flow alarm, with hysteresis between the minimum and `clearFlowAlarm`. */
  function FlowAlarmStage(o: ControlOutput, flow: Int16, clearFlowAlarm: int): ControlOutput
  {
    o.(alarmFlow := if o.alarmFlow then flow < clearFlowAlarm else flow < MinLiterPerMinute)
  }

  /** The startup debounce: restart while the flow alarm is raised, else count down. */
  function StartupStage(o: ControlOutput): ControlOutput
  {
    if o.flowInStartup == 0 then o
    else if o.alarmFlow then o.(flowInStartup := StartupFlowTimeSlots)
    else o.(flowInStartup := o.flowInStartup - 1)
  }

  /** The leak latch, which once set also stops the compressor. */
  function LeakStage(o: ControlOutput, flow: Int16): ControlOutput
  {
    var leak := o.alarmExtremeFlowLoss || (o.flowInStartup == 0 && flow < LeakThreshold);
    o.(alarmExtremeFlowLoss := leak, coolingOn := if leak then false else o.coolingOn)
  }

  /** The pump and fan afterrun counter. */
  function AfterrunStage(o: ControlOutput): ControlOutput
  {
    o.(pumpFan := if o.coolingOn then FanPumpDelay else if o.pumpFan > 0 then o.pumpFan - 1 else 0)
  }

  /** The transition of `ModifyControlOutput`: the stages in the firmware's order,
      each seeing the fields the earlier ones updated. */
  function Next(st: ControlState, data: SensorData, clearFlowAlarm: int): ControlState
  {
    var t := TemperatureStage(st, data.temp);
    var flow := data.waterFlowPerMinute;
    var o := AfterrunStage(LeakStage(StartupStage(FlowAlarmStage(t.out, flow, clearFlowAlarm)), flow));
    ControlState(o, t.brokenTempReadingCount)
  }

  /** The state after the samples, in order; the main loop's state after |samples| cycles. */
  function Run(st: ControlState, samples: seq<SensorData>, clearFlowAlarm: int): ControlState
    decreases |samples|
  {
    if samples == [] then st
    else Next(Run(st, samples[..|samples| - 1], clearFlowAlarm), samples[|samples| - 1], clearFlowAlarm)
  }

  /** Running one more sample is one more transition. */
  lemma RunStep(st: ControlState, samples: seq<SensorData>, i: nat, clearFlowAlarm: int)
    requires i < |samples|
    ensures Run(st, samples[..i + 1], clearFlowAlarm) == Next(Run(st, samples[..i], clearFlowAlarm), samples[i], clearFlowAlarm)
  {
    assert samples[..i + 1][..i] == samples[..i];
  }

  /** The invariant of every reachable state. */
  predicate SafetyInvariant(st: ControlState)
  {
    var o := st.out;
    o.flowInStartup <= StartupFlowTimeSlots &&
    o.pumpFan <= FanPumpDelay &&
    (o.alarmExtremeFlowLoss ==> !o.coolingOn && o.flowInStartup == 0) &&
    (o.coolingOn ==> o.pumpFan == FanPumpDelay) &&
    (0 < o.flowInStartup < StartupFlowTimeSlots ==> !o.alarmFlow) &&
    (st.brokenTempReadingCount >= 2 ==> o.alarmTemp)
  }

  lemma BootSatisfiesInvariant()
    ensures SafetyInvariant(BootState)
  {
  }

  lemma NextPreservesInvariant(st: ControlState, data: SensorData, clearFlowAlarm: int)
    requires SafetyInvariant(st)
    ensures SafetyInvariant(Next(st, data, clearFlowAlarm))
  {
  }

  /** Every state reachable from a safe state is safe. */
  lemma {:induction false} RunPreservesInvariant(st: ControlState, samples: seq<SensorData>, clearFlowAlarm: int)
    requires SafetyInvariant(st)
    ensures SafetyInvariant(Run(st, samples, clearFlowAlarm))
    decreases |samples|
  {
    if samples != [] {
      var n := |samples| - 1;
      RunPreservesInvariant(st, samples[..n], clearFlowAlarm);
      NextPreservesInvariant(Run(st, samples[..n], clearFlowAlarm), samples[n], clearFlowAlarm);
    }
  }

  /** The persistent `ControlOutput` and the counter of consecutive failed
      temperature readings that `ModifyControlOutput` keeps in a function-static. */
  class Controller {
    var coolingOn: bool
    var pumpFan: Uint8
    var alarmTemp: bool
    var alarmFlow: bool
    var flowInStartup: Uint8
    var alarmExtremeFlowLoss: bool
    var brokenTempReadingCount: Uint8
    /** The flow at which a raised flow alarm clears. */
    const clearFlowAlarm: Int16

    function Output(): ControlOutput
      reads this
    {
      ControlOutput(coolingOn, pumpFan, alarmTemp, alarmFlow, flowInStartup, alarmExtremeFlowLoss)
    }

    function State(): ControlState
      reads this
    {
      ControlState(Output(), brokenTempReadingCount)
    }

    ghost predicate Valid()
      reads this
    {
      MinLiterPerMinute <= clearFlowAlarm && SafetyInvariant(State())
    }

    /** The boot defaults of `ControlOutput` and of the static counter. */
    constructor (clearFlowAlarm: Int16)
      requires MinLiterPerMinute <= clearFlowAlarm
      ensures Valid()
      ensures State() == BootState && this.clearFlowAlarm == clearFlowAlarm
    {
      coolingOn := false;
      pumpFan := 0;
      alarmTemp := true;
      alarmFlow := true;
      flowInStartup := StartupFlowTimeSlots;
      alarmExtremeFlowLoss := false;
      brokenTempReadingCount := 0;
      this.clearFlowAlarm := clearFlowAlarm;
    }

    /** One control cycle (`ModifyControlOutput`): the stages run in the firmware's
        order, each updating fields in place that the later ones read. */
    method ModifyControlOutput(data: SensorData)
      requires Valid()
      modifies this
      ensures Valid()
      ensures State() == Next(old(State()), data, clearFlowAlarm)
    {
      UpdateTemperature(data.temp);
      UpdateFlowAlarm(data.waterFlowPerMinute);
      UpdateStartup();
      UpdateLeakLatch(data.waterFlowPerMinute);
      UpdateAfterrun();
      NextPreservesInvariant(old(State()), data, clearFlowAlarm);
    }

    /** A step of `ModifyControlOutput` only: it is not meant to be called on its
        own, and `Valid()` holds again only once `UpdateAfterrun` has run. */
    method UpdateTemperature(temp: Int32)
      modifies this
      ensures State() == TemperatureStage(old(State()), temp)
    {
      if temp != ErrorTemp {
        alarmTemp := if alarmTemp then temp > AlarmClearTemp else temp > AlarmTemp;
        coolingOn := if coolingOn then temp > ControlLowTemp else temp > ControlHighTemp;
        brokenTempReadingCount := 0;
      } else {
        brokenTempReadingCount := (brokenTempReadingCount + 1) % 0x100;  // uint8_t wraps
        alarmTemp := alarmTemp || brokenTempReadingCount >= 2;
      }
    }

    /** A step of `ModifyControlOutput` only: it is not meant to be called on its
        own, and `Valid()` holds again only once `UpdateAfterrun` has run. */
    method UpdateFlowAlarm(flow: Int16)
      modifies this
      ensures Output() == FlowAlarmStage(old(Output()), flow, clearFlowAlarm)
      ensures brokenTempReadingCount == old(brokenTempReadingCount)
    {
      alarmFlow := if alarmFlow then flow < clearFlowAlarm else flow < MinLiterPerMinute;
    }

    /** A step of `ModifyControlOutput` only: it is not meant to be called on its
        own, and `Valid()` holds again only once `UpdateAfterrun` has run. */
    method UpdateStartup()
      modifies this
      ensures Output() == StartupStage(old(Output()))
      ensures brokenTempReadingCount == old(brokenTempReadingCount)
    {
      if flowInStartup != 0 {
        if alarmFlow {
          flowInStartup := StartupFlowTimeSlots;
        } else {
          flowInStartup := flowInStartup - 1;
        }
      }
    }

    /** A step of `ModifyControlOutput` only: it is not meant to be called on its
        own, and `Valid()` holds again only once `UpdateAfterrun` has run. */
    method UpdateLeakLatch(flow: Int16)
      modifies this
      ensures Output() == LeakStage(old(Output()), flow)
      ensures brokenTempReadingCount == old(brokenTempReadingCount)
    {
      if flowInStartup == 0 && flow < LeakThreshold {
        alarmExtremeFlowLoss := true;  // cleared only by a restart
      }
      if alarmExtremeFlowLoss {
        coolingOn := false;
      }
    }

    /** A step of `ModifyControlOutput` only: it is not meant to be called on its
        own, and `Valid()` holds again only once `UpdateAfterrun` has run. */
    method UpdateAfterrun()
      modifies this
      ensures Output() == AfterrunStage(old(Output()))
      ensures brokenTempReadingCount == old(brokenTempReadingCount)
    {
      if coolingOn {
        pumpFan := FanPumpDelay;
      } else if pumpFan > 0 {
        pumpFan := pumpFan - 1;
      }
    }
  }
}

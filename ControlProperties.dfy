/** Properties of the control state machine: what one cycle does to each output,
    and what holds over runs of many cycles. */
module ControlProperties {
  import opened Config
  import opened Sensors
  import opened Control

  /** A sample whose temperature read succeeded. */
  predicate ValidTemp(d: SensorData) { d.temp != ErrorTemp }

  // ---------------------------------------------------------------------------
  // One cycle
  // ---------------------------------------------------------------------------

  /** With a valid reading both temperature outputs follow their hysteresis rule
      (the compressor then overridden only by the leak latch), and the failure
      counter is reset. Inside the thermostat band the compressor keeps its state. */
  lemma TemperatureHysteresis(st: ControlState, d: SensorData, clearFlowAlarm: int)
    requires ValidTemp(d)
    ensures var st' := Next(st, d, clearFlowAlarm);
      && st'.out.alarmTemp == (if st.out.alarmTemp then d.temp > AlarmClearTemp else d.temp > AlarmTemp)
      && st'.out.coolingOn == (!st'.out.alarmExtremeFlowLoss &&
                               if st.out.coolingOn then d.temp > ControlLowTemp else d.temp > ControlHighTemp)
      && st'.brokenTempReadingCount == 0
    ensures var st' := Next(st, d, clearFlowAlarm);
      ControlLowTemp < d.temp <= ControlHighTemp && !st'.out.alarmExtremeFlowLoss ==>
        st'.out.coolingOn == st.out.coolingOn
  {
  }

  /** On a failed reading the compressor decision stands (short of the leak
      override), the counter counts modulo 256, and the temperature alarm is
      forced once the counter reaches 2 and never cleared. */
  lemma SensorFailure(st: ControlState, d: SensorData, clearFlowAlarm: int)
    requires !ValidTemp(d)
    ensures var st' := Next(st, d, clearFlowAlarm);
      && st'.brokenTempReadingCount == (st.brokenTempReadingCount + 1) % 0x100
      && st'.out.alarmTemp == (st.out.alarmTemp || st'.brokenTempReadingCount >= 2)
      && (st.out.alarmTemp ==> st'.out.alarmTemp)
      && st'.out.coolingOn == (st.out.coolingOn && !st'.out.alarmExtremeFlowLoss)
  {
  }

  /** Two consecutive failed readings force the temperature alarm. */
  lemma TwoFailuresForceAlarm(st: ControlState, d1: SensorData, d2: SensorData, clearFlowAlarm: int)
    requires SafetyInvariant(st)
    requires !ValidTemp(d1) && !ValidTemp(d2)
    ensures Next(Next(st, d1, clearFlowAlarm), d2, clearFlowAlarm).out.alarmTemp
  {
  }

  /** One failed reading right after a valid one does not touch the alarm. */
  lemma OneFailureDoesNotForceAlarm(st: ControlState, v: SensorData, e: SensorData, clearFlowAlarm: int)
    requires ValidTemp(v) && !ValidTemp(e)
    ensures var st1 := Next(st, v, clearFlowAlarm);
      Next(st1, e, clearFlowAlarm).out.alarmTemp == st1.out.alarmTemp
  {
  }

  /** The flow alarm follows its hysteresis rule; flow below the minimum always
      raises it when the clear threshold is at least the minimum. */
  lemma FlowAlarmHysteresis(st: ControlState, d: SensorData, clearFlowAlarm: int)
    ensures var st' := Next(st, d, clearFlowAlarm);
      st'.out.alarmFlow == (if st.out.alarmFlow then d.waterFlowPerMinute < clearFlowAlarm
                            else d.waterFlowPerMinute < MinLiterPerMinute)
    ensures MinLiterPerMinute <= clearFlowAlarm && d.waterFlowPerMinute < MinLiterPerMinute ==>
      Next(st, d, clearFlowAlarm).out.alarmFlow
  {
  }

  /** The startup countdown stays within 0..16, restarts while the updated flow
      alarm is raised, counts down otherwise, and once 0 stays 0. */
  lemma StartupCountdown(st: ControlState, d: SensorData, clearFlowAlarm: int)
    requires st.out.flowInStartup <= StartupFlowTimeSlots
    ensures var o' := Next(st, d, clearFlowAlarm).out;
      && o'.flowInStartup <= StartupFlowTimeSlots
      && (st.out.flowInStartup != 0 && o'.alarmFlow ==> o'.flowInStartup == StartupFlowTimeSlots)
      && (st.out.flowInStartup != 0 && !o'.alarmFlow ==> o'.flowInStartup == st.out.flowInStartup - 1)
      && (st.out.flowInStartup == 0 ==> o'.flowInStartup == 0)
  {
  }

  /** The leak latch is set exactly when it was set or the updated countdown is
      0 and the flow is below the leak threshold; it is inert during startup and
      forces the compressor off. */
  lemma LeakLatch(st: ControlState, d: SensorData, clearFlowAlarm: int)
    ensures var o' := Next(st, d, clearFlowAlarm).out;
      && o'.alarmExtremeFlowLoss ==
           (st.out.alarmExtremeFlowLoss || (o'.flowInStartup == 0 && d.waterFlowPerMinute < LeakThreshold))
      && (o'.flowInStartup != 0 ==> o'.alarmExtremeFlowLoss == st.out.alarmExtremeFlowLoss)
      && (o'.alarmExtremeFlowLoss ==> !o'.coolingOn)
  {
  }

  /** While cooling the afterrun counter is full; otherwise it counts down to 0. */
  lemma PumpFanAfterrun(st: ControlState, d: SensorData, clearFlowAlarm: int)
    ensures var o' := Next(st, d, clearFlowAlarm).out;
      && (o'.coolingOn ==> o'.pumpFan == FanPumpDelay)
      && (!o'.coolingOn ==> o'.pumpFan == if st.out.pumpFan > 0 then st.out.pumpFan - 1 else 0)
      && (st.out.pumpFan <= FanPumpDelay ==> o'.pumpFan <= FanPumpDelay)
  {
  }

  // ---------------------------------------------------------------------------
  // Runs of many cycles
  // ---------------------------------------------------------------------------

  lemma {:induction false} RunAppend(st: ControlState, a: seq<SensorData>, b: seq<SensorData>, clearFlowAlarm: int)
    ensures Run(st, a + b, clearFlowAlarm) == Run(Run(st, a, clearFlowAlarm), b, clearFlowAlarm)
    decreases |b|
  {
    if b != [] {
      var n := |b| - 1;
      assert (a + b)[..|a + b| - 1] == a + b[..n];
      assert (a + b)[|a + b| - 1] == b[n];
      RunAppend(st, a, b[..n], clearFlowAlarm);
    } else {
      assert a + b == a;
    }
  }

  /** Every state the firmware reaches from its boot defaults is safe. */
  lemma {:induction false} ReachableStatesAreSafe(samples: seq<SensorData>, clearFlowAlarm: int)
    ensures SafetyInvariant(Run(BootState, samples, clearFlowAlarm))
    ensures Run(BootState, samples, clearFlowAlarm).out.alarmExtremeFlowLoss ==>
      !Run(BootState, samples, clearFlowAlarm).out.coolingOn
    ensures Run(BootState, samples, clearFlowAlarm).out.pumpFan <= FanPumpDelay
    ensures Run(BootState, samples, clearFlowAlarm).out.flowInStartup <= StartupFlowTimeSlots
  {
    BootSatisfiesInvariant();
    RunPreservesInvariant(BootState, samples, clearFlowAlarm);
  }

  /** Once set, the leak latch stays set and the compressor stays off, whatever
      the later samples. */
  lemma {:induction false} LatchPersists(st: ControlState, samples: seq<SensorData>, clearFlowAlarm: int)
    requires st.out.alarmExtremeFlowLoss
    ensures Run(st, samples, clearFlowAlarm).out.alarmExtremeFlowLoss
    ensures !Run(st, samples, clearFlowAlarm).out.coolingOn || samples == []
    decreases |samples|
  {
    if samples != [] {
      LatchPersists(st, samples[..|samples| - 1], clearFlowAlarm);
    }
  }

  /** Once the startup countdown has reached 0, it stays 0. */
  lemma {:induction false} StartupDoneStaysDone(st: ControlState, samples: seq<SensorData>, clearFlowAlarm: int)
    requires st.out.flowInStartup == 0
    ensures Run(st, samples, clearFlowAlarm).out.flowInStartup == 0
    decreases |samples|
  {
    if samples != [] {
      StartupDoneStaysDone(st, samples[..|samples| - 1], clearFlowAlarm);
    }
  }

  /** A sample inside the thermostat dead band (or a failed reading) that cannot
      trip the leak latch. */
  predicate Quiet(d: SensorData)
  {
    (d.temp == ErrorTemp || ControlLowTemp < d.temp <= ControlHighTemp) &&
    d.waterFlowPerMinute >= LeakThreshold
  }

  /** Dead band: while every temperature stays within (16.0 C, 18.0 C] and no
      leak is detected, the compressor never changes state. */
  lemma {:induction false} DeadBandHoldsCooling(st: ControlState, samples: seq<SensorData>, clearFlowAlarm: int)
    requires SafetyInvariant(st)
    requires forall i :: 0 <= i < |samples| ==> Quiet(samples[i])
    ensures Run(st, samples, clearFlowAlarm).out.coolingOn == st.out.coolingOn
    ensures Run(st, samples, clearFlowAlarm).out.alarmExtremeFlowLoss == st.out.alarmExtremeFlowLoss
    decreases |samples|
  {
    if samples != [] {
      var n := |samples| - 1;
      DeadBandHoldsCooling(st, samples[..n], clearFlowAlarm);
      assert Quiet(samples[n]);
    }
  }

  /** No cycle of the run ends with the compressor on. */
  predicate NoCoolingDuring(st: ControlState, samples: seq<SensorData>, clearFlowAlarm: int)
  {
    forall k :: 1 <= k <= |samples| ==> !Run(st, samples[..k], clearFlowAlarm).out.coolingOn
  }

  function Max0(x: int): nat { if x > 0 then x else 0 }

  /** Without cooling, the afterrun counter drops by one per cycle down to 0. */
  lemma {:induction false} AfterrunCountsDown(st: ControlState, samples: seq<SensorData>, clearFlowAlarm: int)
    requires NoCoolingDuring(st, samples, clearFlowAlarm)
    ensures Run(st, samples, clearFlowAlarm).out.pumpFan == Max0(st.out.pumpFan - |samples|)
    decreases |samples|
  {
    if samples != [] {
      var n := |samples| - 1;
      assert NoCoolingDuring(st, samples[..n], clearFlowAlarm) by {
        forall k | 1 <= k <= n
          ensures !Run(st, samples[..n][..k], clearFlowAlarm).out.coolingOn
        {
          assert samples[..n][..k] == samples[..k];
        }
      }
      AfterrunCountsDown(st, samples[..n], clearFlowAlarm);
      assert samples[..|samples|] == samples;
    }
  }

  /** From a cycle with the compressor on, the pump and fan stop after exactly
      120 further cycles without cooling. */
  lemma PumpStopsExactlyAfterDelay(st: ControlState, samples: seq<SensorData>, clearFlowAlarm: int)
    requires SafetyInvariant(st) && st.out.coolingOn
    requires NoCoolingDuring(st, samples, clearFlowAlarm)
    ensures Run(st, samples, clearFlowAlarm).out.pumpFan == 0 <==> |samples| >= FanPumpDelay
  {
    AfterrunCountsDown(st, samples, clearFlowAlarm);
  }

  /** After a leak, cooling never resumes, so the pump and fan run down. */
  lemma LeakRunsPumpDown(st: ControlState, samples: seq<SensorData>, clearFlowAlarm: int)
    requires st.out.alarmExtremeFlowLoss
    ensures Run(st, samples, clearFlowAlarm).out.pumpFan == Max0(st.out.pumpFan - |samples|)
  {
    forall k | 1 <= k <= |samples|
      ensures !Run(st, samples[..k], clearFlowAlarm).out.coolingOn
    {
      LatchPersists(st, samples[..k], clearFlowAlarm);
    }
    AfterrunCountsDown(st, samples, clearFlowAlarm);
  }

  /** While the flow stays below the minimum during startup, the countdown keeps
      restarting and the leak latch cannot trip. */
  lemma {:induction false} LowFlowHoldsStartup(st: ControlState, samples: seq<SensorData>, clearFlowAlarm: int)
    requires MinLiterPerMinute <= clearFlowAlarm
    requires st.out.flowInStartup != 0
    requires forall i :: 0 <= i < |samples| ==> samples[i].waterFlowPerMinute < MinLiterPerMinute
    ensures samples != [] ==> Run(st, samples, clearFlowAlarm).out.flowInStartup == StartupFlowTimeSlots
    ensures Run(st, samples, clearFlowAlarm).out.flowInStartup != 0
    ensures Run(st, samples, clearFlowAlarm).out.alarmExtremeFlowLoss == st.out.alarmExtremeFlowLoss
    decreases |samples|
  {
    if samples != [] {
      var n := |samples| - 1;
      LowFlowHoldsStartup(st, samples[..n], clearFlowAlarm);
      assert samples[n].waterFlowPerMinute < MinLiterPerMinute;
    }
  }

  /** While the flow stays at or above the clear threshold, the countdown drops by
      one per cycle. */
  lemma {:induction false} GoodFlowEndsStartup(st: ControlState, samples: seq<SensorData>, clearFlowAlarm: int)
    requires MinLiterPerMinute <= clearFlowAlarm
    requires forall i :: 0 <= i < |samples| ==> samples[i].waterFlowPerMinute >= clearFlowAlarm
    ensures Run(st, samples, clearFlowAlarm).out.flowInStartup == Max0(st.out.flowInStartup - |samples|)
    decreases |samples|
  {
    if samples != [] {
      var n := |samples| - 1;
      GoodFlowEndsStartup(st, samples[..n], clearFlowAlarm);
      assert samples[n].waterFlowPerMinute >= clearFlowAlarm;
    }
  }

  /** The countdown falls by at most one per cycle, so leaving startup takes at
      least as many cycles as the count that remains. */
  lemma {:induction false} StartupFallsAtMostOnePerCycle(st: ControlState, samples: seq<SensorData>, clearFlowAlarm: int)
    requires st.out.flowInStartup <= StartupFlowTimeSlots
    ensures st.out.flowInStartup <= Run(st, samples, clearFlowAlarm).out.flowInStartup + |samples|
    ensures Run(st, samples, clearFlowAlarm).out.flowInStartup <= StartupFlowTimeSlots
    decreases |samples|
  {
    if samples != [] {
      var n := |samples| - 1;
      StartupFallsAtMostOnePerCycle(st, samples[..n], clearFlowAlarm);
    }
  }

  // ---------------------------------------------------------------------------
  // Scenarios
  // ---------------------------------------------------------------------------

  /** 15.0 C, 18.5 C, 17.9 C from boot: cooling off, on, on. */
  lemma CoolingScenario(f1: Int16, f2: Int16, f3: Int16, clearFlowAlarm: int)
    ensures var s1 := Next(BootState, SensorData(150, f1), clearFlowAlarm);
            var s2 := Next(s1, SensorData(185, f2), clearFlowAlarm);
            var s3 := Next(s2, SensorData(179, f3), clearFlowAlarm);
            !s1.out.coolingOn && s2.out.coolingOn && s3.out.coolingOn
  {
  }

  /** No flow at all from boot: the latch never trips and startup never ends. */
  lemma {:induction false} NoFlowFromBootNeverLatches(samples: seq<SensorData>, clearFlowAlarm: int)
    requires MinLiterPerMinute <= clearFlowAlarm
    requires forall i :: 0 <= i < |samples| ==> samples[i].waterFlowPerMinute == 0
    ensures !Run(BootState, samples, clearFlowAlarm).out.alarmExtremeFlowLoss
    ensures Run(BootState, samples, clearFlowAlarm).out.flowInStartup == StartupFlowTimeSlots
  {
    LowFlowHoldsStartup(BootState, samples, clearFlowAlarm);
  }

  /** Sixteen cycles of good flow from boot end startup, fifteen do not. */
  lemma SixteenGoodCyclesEndStartup(samples: seq<SensorData>, clearFlowAlarm: int)
    requires MinLiterPerMinute <= clearFlowAlarm
    requires forall i :: 0 <= i < |samples| ==> samples[i].waterFlowPerMinute >= clearFlowAlarm
    ensures Run(BootState, samples, clearFlowAlarm).out.flowInStartup == 0 <==> |samples| >= StartupFlowTimeSlots
  {
    GoodFlowEndsStartup(BootState, samples, clearFlowAlarm);
  }

  /** Stable flow for at least sixteen cycles, then one cycle below the leak
      threshold: the latch trips and stays tripped, with the compressor off,
      whatever follows. */
  lemma LeakScenario(stable: seq<SensorData>, leak: SensorData, later: seq<SensorData>, clearFlowAlarm: int)
    requires MinLiterPerMinute <= clearFlowAlarm
    requires |stable| >= StartupFlowTimeSlots
    requires forall i :: 0 <= i < |stable| ==> stable[i].waterFlowPerMinute >= clearFlowAlarm
    requires leak.waterFlowPerMinute < LeakThreshold
    ensures Run(BootState, stable + [leak], clearFlowAlarm).out.alarmExtremeFlowLoss
    ensures Run(BootState, stable + [leak] + later, clearFlowAlarm).out.alarmExtremeFlowLoss
    ensures !Run(BootState, stable + [leak] + later, clearFlowAlarm).out.coolingOn
  {
    GoodFlowEndsStartup(BootState, stable, clearFlowAlarm);
    var s := Run(BootState, stable, clearFlowAlarm);
    assert (stable + [leak])[..|stable|] == stable;
    assert Run(BootState, stable + [leak], clearFlowAlarm) == Next(s, leak, clearFlowAlarm);
    var t := Next(s, leak, clearFlowAlarm);
    RunAppend(BootState, stable + [leak], later, clearFlowAlarm);
    LatchPersists(t, later, clearFlowAlarm);
  }

  /** Any run of at least two failed readings ends with the temperature alarm
      raised, however long it lasts (the counter's wrap-around at 256 cannot
      clear it). */
  lemma {:induction false} PersistentFailureKeepsAlarm(st: ControlState, samples: seq<SensorData>, clearFlowAlarm: int)
    requires SafetyInvariant(st)
    requires |samples| >= 2
    requires forall i :: 0 <= i < |samples| ==> !ValidTemp(samples[i])
    ensures Run(st, samples, clearFlowAlarm).out.alarmTemp
    decreases |samples|
  {
    var n := |samples| - 1;
    if n == 1 {
      assert samples[..1][..0] == [] && samples[..1][0] == samples[0];
      assert Run(st, samples[..1], clearFlowAlarm) == Next(st, samples[0], clearFlowAlarm);
      TwoFailuresForceAlarm(st, samples[0], samples[1], clearFlowAlarm);
    } else {
      PersistentFailureKeepsAlarm(st, samples[..n], clearFlowAlarm);
      assert !ValidTemp(samples[n]);
    }
  }

  // ---------------------------------------------------------------------------
  // The flow-alarm clear threshold
  // ---------------------------------------------------------------------------

  /** As written, the clear threshold equals the minimum: the flow alarm has no
      hysteresis, and a flow alternating between 27 and 28 toggles it every cycle. */
  lemma AsWrittenFlowAlarmHasNoHysteresis(st: ControlState, d: SensorData)
    ensures Next(st, d, ClearFlowAlarmAsWritten).out.alarmFlow == (d.waterFlowPerMinute < MinLiterPerMinute)
    ensures var s1 := Next(st, SensorData(d.temp, 27), ClearFlowAlarmAsWritten);
            var s2 := Next(s1, SensorData(d.temp, 28), ClearFlowAlarmAsWritten);
            var s3 := Next(s2, SensorData(d.temp, 27), ClearFlowAlarmAsWritten);
            s1.out.alarmFlow && !s2.out.alarmFlow && s3.out.alarmFlow
  {
  }

  /** With the intended threshold, a flow between the minimum and minimum plus
      0.5 l/min keeps the alarm as it was: a raised alarm clears only at 3.3 l/min. */
  lemma IntendedFlowAlarmHysteresis(st: ControlState, d: SensorData)
    requires MinLiterPerMinute <= d.waterFlowPerMinute < ClearFlowAlarmIntended
    ensures Next(st, d, ClearFlowAlarmIntended).out.alarmFlow == st.out.alarmFlow
  {
  }
}

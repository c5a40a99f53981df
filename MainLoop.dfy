/** The main loop, bounded to a finite sequence of acquisition windows: read the
    sensors, run one control cycle, write the actuators. The display, the watchdog
    and the timing of the loop are not modelled. */
module MainLoop {
  import opened Config
  import opened Sensors
  import opened Control
  import opened Actuators

  /** What the hardware reports in one acquisition window. */
  datatype Window = Window(temp: TempDriver, flow: Int16)

  /** The samples the firmware derives from the windows. */
  function Samples(windows: seq<Window>): seq<SensorData>
  {
    seq(|windows|, i requires 0 <= i < |windows| => ReadSensors(windows[i].temp, windows[i].flow))
  }

  /** One pass of the loop body after the sensors are read: the control cycle,
      then the port byte `SetActuators` writes. */
  method ControlAndActuate(control: Controller, data: SensorData) returns (port: bv8)
    requires control.Valid()
    modifies control
    ensures control.Valid()
    ensures control.State() == Next(old(control.State()), data, control.clearFlowAlarm)
    ensures port == PortMask(control.Output()) && SafePort(port)
  {
    control.ModifyControlOutput(data);
    port := PortMask(control.Output());
    SafeStatesGiveSafeOutputs(control.State());
  }

  /** Each port byte is the mask of the state after its cycle, and is safe. */
  ghost predicate PortsFollowRun(ports: seq<bv8>, samples: seq<SensorData>, clearFlowAlarm: int)
  {
    |ports| <= |samples| &&
    (forall j :: 0 <= j < |ports| ==>
       ports[j] == PortMask(Run(BootState, samples[..j + 1], clearFlowAlarm).out)) &&
    (forall j :: 0 <= j < |ports| ==> SafePort(ports[j]))
  }

  lemma ExtendPorts(ports: seq<bv8>, port: bv8, samples: seq<SensorData>, clearFlowAlarm: int)
    requires PortsFollowRun(ports, samples, clearFlowAlarm) && |ports| < |samples|
    requires port == PortMask(Run(BootState, samples[..|ports| + 1], clearFlowAlarm).out)
    requires SafePort(port)
    ensures PortsFollowRun(ports + [port], samples, clearFlowAlarm)
  {
  }

  /** Runs the controller from its boot defaults over the windows and returns the
      port byte written after each cycle. */
  method RunLoop(windows: seq<Window>, clearFlowAlarm: Int16) returns (ports: seq<bv8>)
    requires MinLiterPerMinute <= clearFlowAlarm
    ensures |ports| == |windows|
    ensures forall i :: 0 <= i < |ports| ==>
      ports[i] == PortMask(Run(BootState, Samples(windows)[..i + 1], clearFlowAlarm).out)
    ensures forall i :: 0 <= i < |ports| ==> SafePort(ports[i])
  {
    ghost var samples := Samples(windows);
    var control := new Controller(clearFlowAlarm);
    ports := [];
    var i := 0;
    while i < |windows|
      invariant 0 <= i <= |windows|
      invariant control.Valid() && control.clearFlowAlarm == clearFlowAlarm
      invariant control.State() == Run(BootState, samples[..i], clearFlowAlarm)
      invariant |ports| == i
      invariant PortsFollowRun(ports, samples, clearFlowAlarm)
    {
      var data := ReadSensors(windows[i].temp, windows[i].flow);
      var port := ControlAndActuate(control, data);
      RunStep(BootState, samples, i, clearFlowAlarm);
      ExtendPorts(ports, port, samples, clearFlowAlarm);
      ports := ports + [port];
      i := i + 1;
    }
  }
}

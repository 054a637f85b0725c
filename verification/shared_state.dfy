/**
 * The record shared between the indicator (UI) process and the EC worker
 * process, the worker's polling loop, the UI's fan-mode command and the
 * menu-sensitivity rule.
 *
 * `Share` is the record as a value; `ShareInfo` is the record as the
 * mutable object the two processes update.  Each worker iteration is
 * specified by the function `Tick` and carried out by the method
 * `WorkerTick`, which writes fan duties through an `EcPorts`.
 */
module SharedState {
  import opened EcRegisters
  import opened FanCurve
  import opened EcPort

  /** SHARE_INFO as a value. */
  datatype Share = Share(
    exit: int,
    cpuTemp: int, gpuTemp: int,
    cpuFanDuty: int, cpuFanRpms: int,
    gpuFanDuty: int, gpuFanRpms: int,
    autoDuty: int,
    autoCpuDutyVal: int, autoGpuDutyVal: int,
    manualNextFanDuty: int, manualPrevFanDuty: int)

  /** main_init_share: auto mode on, everything else zero. */
  function InitialShare(): (s: Share)
    ensures s.exit == 0 && s.autoDuty == 1
    ensures ManualStep(s) == Step(s, [])
    ensures s.autoCpuDutyVal == 0 && s.autoGpuDutyVal == 0
  {
    Share(0, 0, 0, 0, 0, 0, 0, 1, 0, 0, 0, 0)
  }

  /** The two fan curves the auto mode follows. */
  datatype FanConfig = FanConfig(cpu: Table, gpu: Table)

  /** Curves adjust_fan_speed accepts; the built-in ones always are, and loading a file only appends. */
  predicate ValidConfig(cfg: FanConfig)
  {
    |cfg.cpu| >= 1 && |cfg.gpu| >= 1
  }

  function DefaultConfig(): (cfg: FanConfig)
    ensures ValidConfig(cfg)
  {
    FanConfig(DefaultCpuTable(), DefaultGpuTable())
  }

  /** The fields only the UI side writes: exit flag, mode, manual request and the CPU marker. */
  predicate SameControl(a: Share, b: Share)
  {
    a.exit == b.exit && a.autoDuty == b.autoDuty && a.autoCpuDutyVal == b.autoCpuDutyVal &&
    a.manualNextFanDuty == b.manualNextFanDuty
  }

  /** The sensor fields the worker refreshes from the EC register image. */
  predicate SameSensors(a: Share, b: Share)
  {
    a.cpuTemp == b.cpuTemp && a.gpuTemp == b.gpuTemp &&
    a.cpuFanDuty == b.cpuFanDuty && a.cpuFanRpms == b.cpuFanRpms &&
    a.gpuFanDuty == b.gpuFanDuty && a.gpuFanRpms == b.gpuFanRpms
  }

  /** A record after one part of a worker iteration, and the fan-duty writes that part sent. */
  datatype Step = Step(share: Share, writes: seq<FanCommand>)

  /** The two writes a duty request for both fans sends, CPU first. */
  function BothFans(duty: int): seq<FanCommand>
  {
    [FanDutyCommand(Cpu, duty), FanDutyCommand(Gpu, duty)]
  }

  /**
   * The manual part of a worker iteration: a pending request that differs
   * from the last one served is written to both fans and remembered.
   */
  function ManualStep(s: Share): (r: Step)
    ensures r.writes != [] <==> s.manualNextFanDuty != 0 && s.manualNextFanDuty != s.manualPrevFanDuty
    ensures r.writes != [] ==> r.writes == BothFans(s.manualNextFanDuty)
    ensures r.share == s.(manualPrevFanDuty := r.share.manualPrevFanDuty)
    ensures r.share.manualNextFanDuty == 0 || r.share.manualPrevFanDuty == r.share.manualNextFanDuty
    ensures r.writes == [] ==> r.share == s
  {
    var duty := s.manualNextFanDuty;
    if duty != 0 && duty != s.manualPrevFanDuty then
      Step(s.(manualPrevFanDuty := duty), BothFans(duty))
    else
      Step(s, [])
  }

  /** Serving a manual request once is enough: the step right after it sends nothing. */
  lemma ManualStepIdempotent(s: Share)
    ensures ManualStep(ManualStep(s).share) == Step(ManualStep(s).share, [])
  {
  }

  /**
   * The sensor part of a worker iteration: only a read of exactly 0x100
   * bytes changes the record, and then only its six sensor fields.
   */
  function Snapshot(s: Share, readLen: int, buf: seq<Byte>): (r: Share)
    requires |buf| == REG_SIZE
    ensures readLen != REG_SIZE ==> r == s
    ensures SameControl(r, s) && r.autoGpuDutyVal == s.autoGpuDutyVal && r.manualPrevFanDuty == s.manualPrevFanDuty
    ensures readLen == REG_SIZE ==>
              r.cpuTemp == buf[REG_CPU_TEMP] && r.gpuTemp == buf[REG_GPU_TEMP] &&
              0 <= r.cpuFanDuty <= 100 && 0 <= r.gpuFanDuty <= 100 &&
              0 <= r.cpuFanRpms <= RPM_DIVIDEND && 0 <= r.gpuFanRpms <= RPM_DIVIDEND
    ensures readLen == REG_SIZE ==>
              r.cpuFanDuty == FanDutyPercent(buf[REG_CPU_FAN_DUTY]) &&
              r.gpuFanDuty == FanDutyPercent(buf[REG_GPU_FAN_DUTY]) &&
              r.cpuFanRpms == FanRpms(buf[REG_CPU_FAN_RPMS_HI], buf[REG_CPU_FAN_RPMS_LO]) &&
              r.gpuFanRpms == FanRpms(buf[REG_GPU_FAN_RPMS_HI], buf[REG_GPU_FAN_RPMS_LO])
  {
    if readLen == REG_SIZE then
      FanRpmsInRange(buf[REG_CPU_FAN_RPMS_HI], buf[REG_CPU_FAN_RPMS_LO]);
      FanRpmsInRange(buf[REG_GPU_FAN_RPMS_HI], buf[REG_GPU_FAN_RPMS_LO]);
      s.(cpuTemp := buf[REG_CPU_TEMP], gpuTemp := buf[REG_GPU_TEMP],
         cpuFanDuty := FanDutyPercent(buf[REG_CPU_FAN_DUTY]),
         cpuFanRpms := FanRpms(buf[REG_CPU_FAN_RPMS_HI], buf[REG_CPU_FAN_RPMS_LO]),
         gpuFanDuty := FanDutyPercent(buf[REG_GPU_FAN_DUTY]),
         gpuFanRpms := FanRpms(buf[REG_GPU_FAN_RPMS_HI], buf[REG_GPU_FAN_RPMS_LO]))
    else
      s
  }

  /** A decoded speed, zero count included, lies in [0, RPM_DIVIDEND]. */
  lemma FanRpmsInRange(hi: Byte, lo: Byte)
    ensures 0 <= FanRpms(hi, lo) <= RPM_DIVIDEND
  {
    if RawRpm(hi, lo) > 0 {
      FanRpmsRange(hi, lo);
    }
  }

  /**
   * End to end from the register image: a full read with raw duty 200 at
   * 0xCE and tachometer bytes 0x08, 0x00 at 0xD0, 0xD1 shows the CPU fan at
   * 78% and 1052 RPM, and the CPU curve then sees exactly that duty.
   */
  lemma SnapshotDecodeExample(s: Share, cfg: FanConfig, buf: seq<Byte>)
    requires ValidConfig(cfg) && |buf| == REG_SIZE
    requires buf[REG_CPU_FAN_DUTY] == 200 && buf[REG_CPU_FAN_RPMS_HI] == 0x08 && buf[REG_CPU_FAN_RPMS_LO] == 0x00
    ensures var r := Snapshot(s, REG_SIZE, buf);
      r.cpuFanDuty == 78 && r.cpuFanRpms == 1052 &&
      CpuTarget(r, cfg) == TargetDuty(buf[REG_CPU_TEMP], 78, cfg.cpu)
  {
    DecodeExamples();
  }

  /** ec_auto_cpu_duty_adjust / ec_auto_gpu_duty_adjust: the curve's verdict for a zone's readings. */
  function CpuTarget(s: Share, cfg: FanConfig): (t: int)
    requires ValidConfig(cfg)
    ensures t != 0 ==> t != s.cpuFanDuty && exists i :: 0 <= i < |cfg.cpu| && cfg.cpu[i].duty == t
  {
    TargetIsBreakpointDuty(cfg.cpu, s.cpuTemp, s.cpuFanDuty);
    TargetDuty(s.cpuTemp, s.cpuFanDuty, cfg.cpu)
  }

  function GpuTarget(s: Share, cfg: FanConfig): (t: int)
    requires ValidConfig(cfg)
    ensures t != 0 ==> t != s.gpuFanDuty && exists i :: 0 <= i < |cfg.gpu| && cfg.gpu[i].duty == t
  {
    TargetIsBreakpointDuty(cfg.gpu, s.gpuTemp, s.gpuFanDuty);
    TargetDuty(s.gpuTemp, s.gpuFanDuty, cfg.gpu)
  }

  /** An auto target is sent when it is a change (nonzero) and differs from the zone's marker. */
  predicate Fires(target: int, marker: int)
  {
    target != 0 && target != marker
  }

  /**
   * The auto part of a worker iteration as the source writes it: both
   * targets are computed first; the CPU branch tests the CPU marker but
   * stores its target in the GPU marker, and the GPU branch then tests
   * that GPU marker.
   */
  function AutoStep(s: Share, cfg: FanConfig): (r: Step)
    requires ValidConfig(cfg)
    ensures s.autoDuty != 1 ==> r == Step(s, [])
    ensures r.share == s.(autoGpuDutyVal := r.share.autoGpuDutyVal)
    ensures s.autoDuty == 1 && Fires(CpuTarget(s, cfg), s.autoCpuDutyVal) ==>
              |r.writes| >= 1 && r.writes[0] == FanDutyCommand(Cpu, CpuTarget(s, cfg))
    ensures s.autoDuty == 1 && !Fires(CpuTarget(s, cfg), s.autoCpuDutyVal) ==>
              r.writes == (if Fires(GpuTarget(s, cfg), s.autoGpuDutyVal) then [FanDutyCommand(Gpu, GpuTarget(s, cfg))] else [])
    // line 476: after a CPU write the GPU branch compares its target with the CPU target
    ensures s.autoDuty == 1 && Fires(CpuTarget(s, cfg), s.autoCpuDutyVal) ==>
              r.writes == [FanDutyCommand(Cpu, CpuTarget(s, cfg))] +
                          (if Fires(GpuTarget(s, cfg), CpuTarget(s, cfg)) then [FanDutyCommand(Gpu, GpuTarget(s, cfg))] else [])
    // the GPU marker holds the target of the last write, whichever zone it was for
    ensures r.writes == [] ==> r.share == s
    ensures r.writes != [] ==>
              (r.writes[|r.writes| - 1] == FanDutyCommand(Gpu, GpuTarget(s, cfg)) && r.share.autoGpuDutyVal == GpuTarget(s, cfg)) ||
              (r.writes == [FanDutyCommand(Cpu, CpuTarget(s, cfg))] && r.share.autoGpuDutyVal == CpuTarget(s, cfg))
    ensures |r.writes| <= 2
  {
    if s.autoDuty != 1 then Step(s, [])
    else
      var nextCpu := CpuTarget(s, cfg);
      var nextGpu := GpuTarget(s, cfg);
      var c := if Fires(nextCpu, s.autoCpuDutyVal)
               then Step(s.(autoGpuDutyVal := nextCpu), [FanDutyCommand(Cpu, nextCpu)])
               else Step(s, []);
      if Fires(nextGpu, c.share.autoGpuDutyVal)
      then Step(c.share.(autoGpuDutyVal := nextGpu), c.writes + [FanDutyCommand(Gpu, nextGpu)])
      else c
  }

  /**
   * The auto part with each zone keeping its own marker: a zone is
   * written exactly when its target is a change that differs from its
   * own marker, whatever the other zone does.
   */
  function AutoStepIntended(s: Share, cfg: FanConfig): (r: Step)
    requires ValidConfig(cfg)
    ensures s.autoDuty != 1 ==> r == Step(s, [])
    ensures s.autoDuty == 1 ==>
              (FanDutyCommand(Cpu, CpuTarget(s, cfg)) in r.writes <==> Fires(CpuTarget(s, cfg), s.autoCpuDutyVal)) &&
              (FanDutyCommand(Gpu, GpuTarget(s, cfg)) in r.writes <==> Fires(GpuTarget(s, cfg), s.autoGpuDutyVal))
    ensures s.autoDuty == 1 ==>
              r.writes == (if Fires(CpuTarget(s, cfg), s.autoCpuDutyVal) then [FanDutyCommand(Cpu, CpuTarget(s, cfg))] else []) +
                          (if Fires(GpuTarget(s, cfg), s.autoGpuDutyVal) then [FanDutyCommand(Gpu, GpuTarget(s, cfg))] else [])
    // each zone's marker becomes its own target when that zone is written, and nothing else changes
    ensures s.autoDuty == 1 ==>
              r.share == s.(autoCpuDutyVal := if Fires(CpuTarget(s, cfg), s.autoCpuDutyVal) then CpuTarget(s, cfg) else s.autoCpuDutyVal,
                            autoGpuDutyVal := if Fires(GpuTarget(s, cfg), s.autoGpuDutyVal) then GpuTarget(s, cfg) else s.autoGpuDutyVal)
  {
    if s.autoDuty != 1 then Step(s, [])
    else
      var nextCpu := CpuTarget(s, cfg);
      var nextGpu := GpuTarget(s, cfg);
      var c := if Fires(nextCpu, s.autoCpuDutyVal)
               then Step(s.(autoCpuDutyVal := nextCpu), [FanDutyCommand(Cpu, nextCpu)])
               else Step(s, []);
      if Fires(nextGpu, c.share.autoGpuDutyVal)
      then Step(c.share.(autoGpuDutyVal := nextGpu), c.writes + [FanDutyCommand(Gpu, nextGpu)])
      else c
  }

  /** With per-zone markers, repeating the auto step on unchanged readings sends nothing. */
  lemma AutoIntendedDedup(s: Share, cfg: FanConfig)
    requires ValidConfig(cfg)
    ensures AutoStepIntended(AutoStepIntended(s, cfg).share, cfg).writes == []
  {
  }

  /** What the environment supplies to one worker iteration. */
  datatype TickInput = TickInput(
    parentAlive: bool,   // kill(parent_pid, 0) succeeded
    ioOpened: bool,      // open() of the EC register file succeeded
    readLen: int,        // what read() returned: -1, 0x100 or another count
    buf: seq<Byte>)      // the 0x100-byte buffer read() filled

  /** How an iteration ends: loop again, leave the loop, or end the process. */
  datatype Outcome = Continue | Quit | Failed

  datatype TickResult = TickResult(share: Share, writes: seq<FanCommand>, outcome: Outcome)

  predicate ValidInput(input: TickInput)
  {
    |input.buf| == REG_SIZE
  }

  /**
   * One iteration of main_ec_worker: leave when the exit flag is set or
   * the parent is gone; serve a manual request; give up when the register
   * file cannot be opened; decode a full read; run the auto step.
   */
  function Tick(s: Share, cfg: FanConfig, input: TickInput): (r: TickResult)
    requires ValidConfig(cfg) && ValidInput(input)
    ensures s.exit != 0 || !input.parentAlive ==> r == TickResult(s, [], Quit)
    ensures r.outcome == Quit <==> s.exit != 0 || !input.parentAlive
    ensures r.outcome == Failed <==> s.exit == 0 && input.parentAlive && !input.ioOpened
    ensures r.outcome == Failed ==> r.writes == ManualStep(s).writes && r.share == ManualStep(s).share
    ensures r.outcome == Continue ==>
              |ManualStep(s).writes| <= |r.writes| && r.writes[..|ManualStep(s).writes|] == ManualStep(s).writes
    // a continuing iteration decodes the read into the served record, then runs the auto step on those readings
    ensures r.outcome == Continue ==>
              var m := ManualStep(s);
              var n := Snapshot(m.share, input.readLen, input.buf);
              SameSensors(r.share, n) && r.share.manualPrevFanDuty == m.share.manualPrevFanDuty &&
              r.share.autoGpuDutyVal == AutoStep(n, cfg).share.autoGpuDutyVal &&
              r.writes == m.writes + AutoStep(n, cfg).writes
    ensures SameControl(r.share, s)
  {
    if s.exit != 0 || !input.parentAlive then TickResult(s, [], Quit)
    else
      var m := ManualStep(s);
      if !input.ioOpened then TickResult(m.share, m.writes, Failed)
      else
        var a := AutoStep(Snapshot(m.share, input.readLen, input.buf), cfg);
        TickResult(a.share, m.writes + a.writes, Continue)
  }

  /** Iterations over a series of inputs until one of them does not continue. */
  function Run(s: Share, cfg: FanConfig, inputs: seq<TickInput>): (r: TickResult)
    requires ValidConfig(cfg) && forall k :: 0 <= k < |inputs| ==> ValidInput(inputs[k])
    ensures SameControl(r.share, s)
    decreases |inputs|
  {
    if |inputs| == 0 then TickResult(s, [], Continue)
    else
      var t := Tick(s, cfg, inputs[0]);
      if t.outcome != Continue then t
      else
        var rest := Run(t.share, cfg, inputs[1..]);
        TickResult(rest.share, t.writes + rest.writes, rest.outcome)
  }

  /** ui_command_set_fan on the record: 0 selects auto mode, anything else a manual duty. */
  function SetFanSpec(s: Share, fanDuty: int): (r: Share)
    ensures r.autoDuty == (if fanDuty == 0 then 1 else 0)
    ensures r.autoCpuDutyVal == 0 && r.autoGpuDutyVal == 0
    ensures r.manualNextFanDuty == fanDuty && r.manualPrevFanDuty == s.manualPrevFanDuty
    ensures r.exit == s.exit && SameSensors(r, s)
  {
    if fanDuty == 0 then
      s.(autoDuty := 1, autoCpuDutyVal := 0, autoGpuDutyVal := 0, manualNextFanDuty := 0)
    else
      s.(autoDuty := 0, autoCpuDutyVal := 0, autoGpuDutyVal := 0, manualNextFanDuty := fanDuty)
  }

  /** SHARE_INFO as the object both processes update in place. */
  class ShareInfo {
    var exit: int
    var cpuTemp: int
    var gpuTemp: int
    var cpuFanDuty: int
    var cpuFanRpms: int
    var gpuFanDuty: int
    var gpuFanRpms: int
    var autoDuty: int
    var autoCpuDutyVal: int
    var autoGpuDutyVal: int
    var manualNextFanDuty: int
    var manualPrevFanDuty: int

    function State(): Share
      reads this
    {
      Share(exit, cpuTemp, gpuTemp, cpuFanDuty, cpuFanRpms, gpuFanDuty, gpuFanRpms,
            autoDuty, autoCpuDutyVal, autoGpuDutyVal, manualNextFanDuty, manualPrevFanDuty)
    }

    /** main_init_share; the mapping it comes from is zero-filled, so the GPU duty and speed start at 0. */
    constructor ()
      ensures State() == InitialShare()
    {
      exit := 0;
      cpuTemp := 0;
      gpuTemp := 0;
      cpuFanDuty := 0;
      cpuFanRpms := 0;
      gpuFanDuty := 0;
      gpuFanRpms := 0;
      autoDuty := 1;
      autoCpuDutyVal := 0;
      autoGpuDutyVal := 0;
      manualNextFanDuty := 0;
      manualPrevFanDuty := 0;
    }

    /** The record updates of ui_command_set_fan. */
    method SetFan(fanDuty: int)
      modifies this
      ensures State() == SetFanSpec(old(State()), fanDuty)
    {
      if fanDuty == 0 {
        autoDuty := 1;
        autoCpuDutyVal := 0;
        autoGpuDutyVal := 0;
        manualNextFanDuty := 0;
      } else {
        autoDuty := 0;
        autoCpuDutyVal := 0;
        autoGpuDutyVal := 0;
        manualNextFanDuty := fanDuty;
      }
    }
  }

  /** ec_write_cpu_fan_duty / ec_write_gpu_fan_duty as the worker calls them: for their writes only. */
  method SendFanDuty(ec: EcPorts, zone: Zone, duty: int)
    modifies ec`statusPos, ec`trace
    ensures Writes(ec.trace) == Writes(old(ec.trace)) + CommandWrites(FanDutyCommand(zone, duty))
  {
    var _ := ec.WriteFanDuty(zone, duty);
  }

  /** The "write EC" part of main_ec_worker. */
  method ManualPhase(share: ShareInfo, ec: EcPorts)
    modifies share, ec`statusPos, ec`trace
    ensures var m := ManualStep(old(share.State()));
      share.State() == m.share && Writes(ec.trace) == Writes(old(ec.trace)) + CommandsWrites(m.writes)
  {
    ghost var w0 := Writes(ec.trace);
    var newFanDuty := share.manualNextFanDuty;
    if newFanDuty != 0 && newFanDuty != share.manualPrevFanDuty {
      SendFanDuty(ec, Cpu, newFanDuty);
      CommandsWritesSnoc(w0, [], FanDutyCommand(Cpu, newFanDuty));
      SendFanDuty(ec, Gpu, newFanDuty);
      CommandsWritesSnoc(w0, [FanDutyCommand(Cpu, newFanDuty)], FanDutyCommand(Gpu, newFanDuty));
      share.manualPrevFanDuty := newFanDuty;
    }
  }

  /** The "read EC" part of main_ec_worker, once the register file is open. */
  method ReadPhase(share: ShareInfo, readLen: int, buf: seq<Byte>)
    requires |buf| == REG_SIZE
    modifies share
    ensures share.State() == Snapshot(old(share.State()), readLen, buf)
  {
    if readLen == REG_SIZE {
      share.cpuTemp := buf[REG_CPU_TEMP];
      share.gpuTemp := buf[REG_GPU_TEMP];
      share.cpuFanDuty := FanDutyPercent(buf[REG_CPU_FAN_DUTY]);
      share.cpuFanRpms := FanRpms(buf[REG_CPU_FAN_RPMS_HI], buf[REG_CPU_FAN_RPMS_LO]);
      share.gpuFanDuty := FanDutyPercent(buf[REG_GPU_FAN_DUTY]);
      share.gpuFanRpms := FanRpms(buf[REG_GPU_FAN_RPMS_HI], buf[REG_GPU_FAN_RPMS_LO]);
    }
  }

  /** The "auto EC" part of main_ec_worker, as written. */
  method AutoPhase(share: ShareInfo, ec: EcPorts, cfg: FanConfig)
    requires ValidConfig(cfg)
    modifies share, ec`statusPos, ec`trace
    ensures var a := AutoStep(old(share.State()), cfg);
      share.State() == a.share && Writes(ec.trace) == Writes(old(ec.trace)) + CommandsWrites(a.writes)
  {
    ghost var w0 := Writes(ec.trace);
    ghost var sent: seq<FanCommand> := [];
    assert w0 == w0 + CommandsWrites(sent);
    if share.autoDuty == 1 {
      var nextCpuDuty := AdjustFanSpeed(share.cpuTemp, share.cpuFanDuty, cfg.cpu);
      var nextGpuDuty := AdjustFanSpeed(share.gpuTemp, share.gpuFanDuty, cfg.gpu);
      if nextCpuDuty != 0 && nextCpuDuty != share.autoCpuDutyVal {
        SendFanDuty(ec, Cpu, nextCpuDuty);
        CommandsWritesSnoc(w0, sent, FanDutyCommand(Cpu, nextCpuDuty));
        sent := sent + [FanDutyCommand(Cpu, nextCpuDuty)];
        share.autoGpuDutyVal := nextCpuDuty;
      }
      if nextGpuDuty != 0 && nextGpuDuty != share.autoGpuDutyVal {
        SendFanDuty(ec, Gpu, nextGpuDuty);
        CommandsWritesSnoc(w0, sent, FanDutyCommand(Gpu, nextGpuDuty));
        sent := sent + [FanDutyCommand(Gpu, nextGpuDuty)];
        share.autoGpuDutyVal := nextGpuDuty;
      }
    }
    assert Writes(ec.trace) == w0 + CommandsWrites(sent);
    assert sent == AutoStep(old(share.State()), cfg).writes;
  }

  /** One iteration of main_ec_worker's loop, the loop guard on the exit flag included. */
  method WorkerTick(share: ShareInfo, ec: EcPorts, cfg: FanConfig, input: TickInput) returns (outcome: Outcome)
    requires ValidConfig(cfg) && ValidInput(input)
    modifies share, ec`statusPos, ec`trace
    ensures var r := Tick(old(share.State()), cfg, input);
      share.State() == r.share && outcome == r.outcome &&
      Writes(ec.trace) == Writes(old(ec.trace)) + CommandsWrites(r.writes)
  {
    ghost var s0, w0 := share.State(), Writes(ec.trace);
    if share.exit != 0 || !input.parentAlive {
      assert w0 + CommandsWrites([]) == w0;
      return Quit;
    }
    ghost var m := ManualStep(s0);
    ManualPhase(share, ec);
    if !input.ioOpened {
      return Failed;
    }
    ReadPhase(share, input.readLen, input.buf);
    ghost var a := AutoStep(share.State(), cfg);
    assert Tick(s0, cfg, input) == TickResult(a.share, m.writes + a.writes, Continue);
    AutoPhase(share, ec, cfg);
    CommandsWritesAppend(m.writes, a.writes);
    ConcatAssoc3(w0, CommandsWrites(m.writes), CommandsWrites(a.writes));
    outcome := Continue;
  }

  /** A run's result with the writes of earlier iterations put in front. */
  function After(sent: seq<FanCommand>, r: TickResult): TickResult
  {
    TickResult(r.share, sent + r.writes, r.outcome)
  }

  /** One more iteration of a run: how the rest of the run follows from the next tick. */
  lemma RunAdvances(s0: Share, cfg: FanConfig, inputs: seq<TickInput>, k: nat, before: Share, sent: seq<FanCommand>)
    requires ValidConfig(cfg) && forall j :: 0 <= j < |inputs| ==> ValidInput(inputs[j])
    requires k < |inputs| && Run(s0, cfg, inputs) == After(sent, Run(before, cfg, inputs[k..]))
    ensures var t := Tick(before, cfg, inputs[k]);
      if t.outcome == Continue then Run(s0, cfg, inputs) == After(sent + t.writes, Run(t.share, cfg, inputs[k + 1..]))
      else Run(s0, cfg, inputs) == TickResult(t.share, sent + t.writes, t.outcome)
  {
    var t := Tick(before, cfg, inputs[k]);
    assert inputs[k..][0] == inputs[k] && inputs[k..][1..] == inputs[k + 1..];
    if t.outcome == Continue {
      var rest := Run(t.share, cfg, inputs[k + 1..]);
      assert Run(before, cfg, inputs[k..]) == TickResult(rest.share, t.writes + rest.writes, rest.outcome);
      ConcatAssoc3(sent, t.writes, rest.writes);
    }
  }

  /** main_ec_worker's loop over as many iterations as the inputs supply. */
  method RunWorker(share: ShareInfo, ec: EcPorts, cfg: FanConfig, inputs: seq<TickInput>) returns (outcome: Outcome)
    requires ValidConfig(cfg) && forall k :: 0 <= k < |inputs| ==> ValidInput(inputs[k])
    modifies share, ec`statusPos, ec`trace
    ensures var r := Run(old(share.State()), cfg, inputs);
      share.State() == r.share && outcome == r.outcome &&
      Writes(ec.trace) == Writes(old(ec.trace)) + CommandsWrites(r.writes)
  {
    ghost var s0 := share.State();
    ghost var w0 := Writes(ec.trace);
    ghost var sent: seq<FanCommand> := [];
    var k := 0;
    outcome := Continue;
    assert inputs[0..] == inputs;
    while k < |inputs| && outcome == Continue
      invariant 0 <= k <= |inputs|
      invariant Writes(ec.trace) == w0 + CommandsWrites(sent)
      invariant outcome == Continue ==> Run(s0, cfg, inputs) == After(sent, Run(share.State(), cfg, inputs[k..]))
      invariant outcome != Continue ==> Run(s0, cfg, inputs) == TickResult(share.State(), sent, outcome)
      decreases |inputs| - k
    {
      ghost var before := share.State();
      ghost var t := Tick(before, cfg, inputs[k]);
      RunAdvances(s0, cfg, inputs, k, before, sent);
      outcome := WorkerTick(share, ec, cfg, inputs[k]);
      CommandsWritesAppend(sent, t.writes);
      ConcatAssoc3(w0, CommandsWrites(sent), CommandsWrites(t.writes));
      sent := sent + t.writes;
      k := k + 1;
    }
    if outcome == Continue {
      assert Run(share.State(), cfg, inputs[k..]) == TickResult(share.State(), [], Continue);
      assert sent + [] == sent;
    }
  }

  /** An iteration the worker runs to the end with a working register file. */
  predicate Healthy(input: TickInput)
  {
    ValidInput(input) && input.parentAlive && input.ioOpened
  }

  /**
   * End to end over one iteration: a healthy iteration that reads the full
   * register image with raw duty 200 at 0xCE and tachometer bytes 0x08,
   * 0x00 leaves the record showing the CPU fan at 78% and 1052 RPM, with
   * the CPU temperature from 0x07, and its auto writes are the auto step
   * on exactly those readings.
   */
  lemma TickDecodeExample(s: Share, cfg: FanConfig, input: TickInput)
    requires ValidConfig(cfg) && Healthy(input) && s.exit == 0 && input.readLen == REG_SIZE
    requires input.buf[REG_CPU_FAN_DUTY] == 200 && input.buf[REG_CPU_FAN_RPMS_HI] == 0x08 && input.buf[REG_CPU_FAN_RPMS_LO] == 0x00
    ensures var t := Tick(s, cfg, input);
      var n := Snapshot(ManualStep(s).share, REG_SIZE, input.buf);
      t.outcome == Continue &&
      t.share.cpuFanDuty == 78 && t.share.cpuFanRpms == 1052 && t.share.cpuTemp == input.buf[REG_CPU_TEMP] &&
      t.writes == ManualStep(s).writes + AutoStep(n, cfg).writes &&
      CpuTarget(n, cfg) == TargetDuty(input.buf[REG_CPU_TEMP], 78, cfg.cpu)
  {
    SnapshotDecodeExample(ManualStep(s).share, cfg, input.buf);
  }

  /**
   * A lost sample does not stop the auto part: when read() returns -1 or
   * a short count the record keeps the previous readings, and the auto
   * step still runs on them and may write.
   */
  lemma LostSampleKeepsAutoWrites(s: Share, cfg: FanConfig, input: TickInput)
    requires ValidConfig(cfg) && Healthy(input) && s.exit == 0 && input.readLen != REG_SIZE
    ensures var t := Tick(s, cfg, input);
      var m := ManualStep(s);
      t.outcome == Continue && SameSensors(t.share, s) &&
      t.writes == m.writes + AutoStep(m.share, cfg).writes
  {
    var m := ManualStep(s);
    assert Snapshot(m.share, input.readLen, input.buf) == m.share;
  }

  /**
   * Manual override: once an iteration has served a request, the next
   * iteration's manual part sends nothing, whatever the sensors read.
   */
  lemma SecondTickNoManualWrite(s: Share, cfg: FanConfig, input: TickInput)
    requires ValidConfig(cfg) && ValidInput(input) && s.exit == 0 && input.parentAlive
    ensures ManualStep(Tick(s, cfg, input).share).writes == []
  {
    var m := ManualStep(s);
    if input.ioOpened {
      var n := Snapshot(m.share, input.readLen, input.buf);
      assert n.manualPrevFanDuty == m.share.manualPrevFanDuty;
      assert AutoStep(n, cfg).share.manualPrevFanDuty == n.manualPrevFanDuty;
    }
  }

  /**
   * Choosing a manual duty that differs from the last one served makes the
   * next healthy iteration write it to both fans and nothing else, and the
   * iteration after that write nothing at all.
   */
  lemma ManualSelectionWrittenOnce(s: Share, cfg: FanConfig, d: int, in1: TickInput, in2: TickInput)
    requires ValidConfig(cfg) && Healthy(in1) && Healthy(in2)
    requires s.exit == 0 && d != 0 && d != s.manualPrevFanDuty
    ensures var t1 := Tick(SetFanSpec(s, d), cfg, in1);
      t1.outcome == Continue && t1.writes == BothFans(d) &&
      t1.share.manualPrevFanDuty == d && Tick(t1.share, cfg, in2).writes == []
  {
    var s1 := SetFanSpec(s, d);
    var t1 := Tick(s1, cfg, in1);
    ManualModeTick(s1, cfg, in1);
    ManualModeTick(t1.share, cfg, in2);
  }

  /** In manual mode an iteration sends only what its manual part sends and keeps the mode. */
  lemma ManualModeTick(s: Share, cfg: FanConfig, input: TickInput)
    requires ValidConfig(cfg) && Healthy(input) && s.exit == 0 && s.autoDuty == 0
    ensures var t := Tick(s, cfg, input);
      t.outcome == Continue && t.writes == ManualStep(s).writes && SameControl(t.share, s) &&
      t.share.manualPrevFanDuty == ManualStep(s).share.manualPrevFanDuty
  {
    var m := ManualStep(s);
    var n := Snapshot(m.share, input.readLen, input.buf);
    assert AutoStep(n, cfg) == Step(n, []);
    assert m.writes + [] == m.writes;
  }

  /** Choosing 70% from a fresh start: command 0x99 with value 178 to port 0x01, then to port 0x02. */
  lemma SeventyPercentExample(cfg: FanConfig, input: TickInput)
    requires ValidConfig(cfg) && Healthy(input)
    ensures Tick(SetFanSpec(InitialShare(), 70), cfg, input).writes ==
            [FanCommand(0x99, 0x01, 178), FanCommand(0x99, 0x02, 178)]
  {
    ManualSelectionWrittenOnce(InitialShare(), cfg, 70, input, input);
  }

  /** Choosing auto mode stops the manual writes: an iteration then sends only what the auto part sends. */
  lemma AutoSelectionOnlyAutoWrites(s: Share, cfg: FanConfig, input: TickInput)
    requires ValidConfig(cfg) && Healthy(input) && s.exit == 0
    ensures var s1 := SetFanSpec(s, 0);
      Tick(s1, cfg, input).writes == AutoStep(Snapshot(s1, input.readLen, input.buf), cfg).writes
  {
    var s1 := SetFanSpec(s, 0);
    assert ManualStep(s1).writes == [];
    assert ManualStep(s1).share == s1;
  }

  /**
   * As written, the CPU marker is never set, so a nonzero CPU target is
   * sent again on every iteration in which the readings still call for it.
   */
  lemma CpuTargetResentEveryTick(s: Share, cfg: FanConfig)
    requires ValidConfig(cfg) && s.autoDuty == 1 && s.autoCpuDutyVal == 0 && CpuTarget(s, cfg) != 0
    ensures var a := AutoStep(s, cfg);
      a.writes[0] == FanDutyCommand(Cpu, CpuTarget(s, cfg)) &&
      AutoStep(a.share, cfg).writes[0] == FanDutyCommand(Cpu, CpuTarget(s, cfg))
  {
    var a := AutoStep(s, cfg);
    assert CpuTarget(a.share, cfg) == CpuTarget(s, cfg);
  }

  /**
   * As written, whenever the CPU target is written and the GPU target is
   * the same duty, the GPU write is lost, whatever the GPU marker held.
   */
  lemma GpuWriteSuppressedWhenTargetsAgree(s: Share, cfg: FanConfig)
    requires ValidConfig(cfg) && s.autoDuty == 1
    requires Fires(CpuTarget(s, cfg), s.autoCpuDutyVal) && GpuTarget(s, cfg) == CpuTarget(s, cfg)
    ensures AutoStep(s, cfg).writes == [FanDutyCommand(Cpu, CpuTarget(s, cfg))]
    ensures Fires(GpuTarget(s, cfg), s.autoGpuDutyVal) ==>
              FanDutyCommand(Gpu, GpuTarget(s, cfg)) in AutoStepIntended(s, cfg).writes
  {
    assert [FanDutyCommand(Cpu, CpuTarget(s, cfg))] + [] == [FanDutyCommand(Cpu, CpuTarget(s, cfg))];
  }

  /**
   * As written, the GPU write is lost when both zones want the same duty:
   * at 30 degrees on both sensors with both fans at 0, the default curves
   * give 25 for each zone, the CPU branch stores 25 in the GPU marker and
   * the GPU branch then finds nothing to do.  The per-zone version sends both.
   */
  lemma GpuWriteSuppressedExample()
    ensures var s := InitialShare().(cpuTemp := 30, gpuTemp := 30);
      CpuTarget(s, DefaultConfig()) == 25 && GpuTarget(s, DefaultConfig()) == 25 &&
      AutoStep(s, DefaultConfig()).writes == [FanDutyCommand(Cpu, 25)] &&
      AutoStepIntended(s, DefaultConfig()).writes == [FanDutyCommand(Cpu, 25), FanDutyCommand(Gpu, 25)]
  {
    var s := InitialShare().(cpuTemp := 30, gpuTemp := 30);
    assert TargetDuty(30, 0, DefaultCpuTable()) == 25;
    assert TargetDuty(30, 0, DefaultGpuTable()) == 25;
  }

  /**
   * A failed read in auto mode with both zones last seen at 30 degrees
   * still sends the CPU write of 25%.
   */
  lemma LostSampleExample(input: TickInput)
    requires Healthy(input) && input.readLen == -1
    ensures Tick(InitialShare().(cpuTemp := 30, gpuTemp := 30), DefaultConfig(), input).writes == [FanDutyCommand(Cpu, 25)]
  {
    var s := InitialShare().(cpuTemp := 30, gpuTemp := 30);
    GpuWriteSuppressedExample();
    LostSampleKeepsAutoWrites(s, DefaultConfig(), input);
  }

  /**
   * The GPU marker has two writers: the auto part of a worker iteration
   * and ui_command_set_fan both store into it.
   */
  lemma GpuMarkerHasTwoWriters(input: TickInput)
    requires Healthy(input) && input.readLen != REG_SIZE
    ensures var s := InitialShare().(cpuTemp := 30, gpuTemp := 30);
      var t := Tick(s, DefaultConfig(), input);
      t.share.autoGpuDutyVal == 25 && SetFanSpec(t.share, 0).autoGpuDutyVal == 0
  {
    GpuWriteSuppressedExample();
  }

  /**
   * As written, ui_command_set_fan never resets the last served manual
   * duty, so choosing that same duty again (after a spell in auto mode)
   * is never written to the fans.
   */
  lemma ReselectedManualDutyIgnored(s: Share, cfg: FanConfig, input: TickInput)
    requires ValidConfig(cfg) && Healthy(input) && s.exit == 0 && s.manualPrevFanDuty != 0
    ensures Tick(SetFanSpec(s, s.manualPrevFanDuty), cfg, input).writes == []
  {
    var s1 := SetFanSpec(s, s.manualPrevFanDuty);
    var n := Snapshot(s1, input.readLen, input.buf);
    assert AutoStep(n, cfg) == Step(n, []);
  }

  /** The scenario: 70%, an iteration, auto, an iteration, 70% again: the last iteration writes nothing. */
  lemma ReselectAfterAutoScenario(cfg: FanConfig, in1: TickInput, in2: TickInput, in3: TickInput)
    requires ValidConfig(cfg) && Healthy(in1) && Healthy(in2) && Healthy(in3)
    ensures var t1 := Tick(SetFanSpec(InitialShare(), 70), cfg, in1);
      var t2 := Tick(SetFanSpec(t1.share, 0), cfg, in2);
      t1.writes == BothFans(70) && Tick(SetFanSpec(t2.share, 70), cfg, in3).writes == []
  {
    ManualSelectionWrittenOnce(InitialShare(), cfg, 70, in1, in1);
    var t1 := Tick(SetFanSpec(InitialShare(), 70), cfg, in1);
    var t2 := Tick(SetFanSpec(t1.share, 0), cfg, in2);
    assert t2.share.manualPrevFanDuty == 70 by {
      var s2 := SetFanSpec(t1.share, 0);
      var n := Snapshot(s2, in2.readLen, in2.buf);
      assert ManualStep(s2).share == s2;
      assert AutoStep(n, cfg).share.manualPrevFanDuty == 70;
    }
    ReselectedManualDutyIgnored(t2.share, cfg, in3);
  }

  /**
   * ui_command_set_fan with the last served manual duty forgotten when auto
   * mode is chosen: a manual choice made after a spell in auto mode is a
   * new request, while posting the duty already being served stays a no-op.
   */
  function SetFanIntended(s: Share, fanDuty: int): (r: Share)
    ensures r.autoDuty == (if fanDuty == 0 then 1 else 0)
    ensures r.autoCpuDutyVal == 0 && r.autoGpuDutyVal == 0
    ensures r.manualNextFanDuty == fanDuty
    ensures r.manualPrevFanDuty == (if fanDuty == 0 then 0 else s.manualPrevFanDuty)
    ensures r.exit == s.exit && SameSensors(r, s)
  {
    if fanDuty == 0 then SetFanSpec(s, 0).(manualPrevFanDuty := 0) else SetFanSpec(s, fanDuty)
  }

  /**
   * With the correction, choosing auto, letting an iteration run, and then
   * choosing any manual duty writes that duty to both fans.
   */
  lemma IntendedSelectionAfterAutoWritten(s: Share, cfg: FanConfig, d: int, in1: TickInput, in2: TickInput)
    requires ValidConfig(cfg) && Healthy(in1) && Healthy(in2) && s.exit == 0 && d != 0
    ensures var t1 := Tick(SetFanIntended(s, 0), cfg, in1);
      t1.outcome == Continue && Tick(SetFanIntended(t1.share, d), cfg, in2).writes == BothFans(d)
  {
    var s1 := SetFanIntended(s, 0);
    var t1 := Tick(s1, cfg, in1);
    assert t1.share.manualPrevFanDuty == 0 by {
      var n := Snapshot(ManualStep(s1).share, in1.readLen, in1.buf);
      assert ManualStep(s1).share == s1;
      assert AutoStep(n, cfg).share.manualPrevFanDuty == 0;
    }
    ManualModeTick(SetFanIntended(t1.share, d), cfg, in2);
  }

  /** With the correction, posting the duty already being served is still not written again. */
  lemma IntendedRepeatedPostIgnored(s: Share, cfg: FanConfig, input: TickInput)
    requires ValidConfig(cfg) && Healthy(input) && s.exit == 0 && s.manualPrevFanDuty != 0
    ensures Tick(SetFanIntended(s, s.manualPrevFanDuty), cfg, input).writes == []
  {
    ManualModeTick(SetFanIntended(s, s.manualPrevFanDuty), cfg, input);
  }

  /** The scenario of the as-written version, corrected: 70%, auto, 70% again is written twice. */
  lemma IntendedReselectAfterAutoScenario(cfg: FanConfig, in1: TickInput, in2: TickInput, in3: TickInput)
    requires ValidConfig(cfg) && Healthy(in1) && Healthy(in2) && Healthy(in3)
    ensures var t1 := Tick(SetFanIntended(InitialShare(), 70), cfg, in1);
      var t2 := Tick(SetFanIntended(t1.share, 0), cfg, in2);
      t1.writes == BothFans(70) && Tick(SetFanIntended(t2.share, 70), cfg, in3).writes == BothFans(70)
  {
    ManualModeTick(SetFanIntended(InitialShare(), 70), cfg, in1);
    var t1 := Tick(SetFanIntended(InitialShare(), 70), cfg, in1);
    IntendedSelectionAfterAutoWritten(t1.share, cfg, 70, in2, in3);
  }

  /** What happens to the record between two points in time: a click in the UI, an iteration, or shutdown. */
  datatype Event = Click(fanDuty: int) | Iterate(input: TickInput) | Shutdown

  predicate ValidEvents(events: seq<Event>)
  {
    forall k :: 0 <= k < |events| ==> (events[k].Iterate? ==> ValidInput(events[k].input))
  }

  /** The record after an interleaving of UI clicks, worker iterations and the UI's exit; the worker's end ends it. */
  function Replay(s: Share, cfg: FanConfig, events: seq<Event>): Share
    requires ValidConfig(cfg) && ValidEvents(events)
    decreases |events|
  {
    if |events| == 0 then s
    else match events[0]
      case Click(d) => Replay(SetFanSpec(s, d), cfg, events[1..])
      case Shutdown => Replay(s.(exit := 1), cfg, events[1..])
      case Iterate(input) =>
        var t := Tick(s, cfg, input);
        if t.outcome == Continue then Replay(t.share, cfg, events[1..]) else t.share
  }

  /**
   * The CPU marker stays 0 forever: the UI only ever clears it and the
   * worker, as written, never stores into it.
   */
  lemma {:induction false} CpuMarkerAlwaysZero(s: Share, cfg: FanConfig, events: seq<Event>)
    requires ValidConfig(cfg) && ValidEvents(events) && s.autoCpuDutyVal == 0
    ensures Replay(s, cfg, events).autoCpuDutyVal == 0
    decreases |events|
  {
    if |events| > 0 {
      assert ValidEvents(events[1..]);
      match events[0]
      case Click(d) => CpuMarkerAlwaysZero(SetFanSpec(s, d), cfg, events[1..]);
      case Shutdown => CpuMarkerAlwaysZero(s.(exit := 1), cfg, events[1..]);
      case Iterate(input) =>
        var t := Tick(s, cfg, input);
        if t.outcome == Continue {
          CpuMarkerAlwaysZero(t.share, cfg, events[1..]);
        }
    }
  }

  /** From main_init_share on, whatever happens, the CPU marker reads 0. */
  lemma CpuMarkerZeroFromStart(cfg: FanConfig, events: seq<Event>)
    requires ValidConfig(cfg) && ValidEvents(events)
    ensures Replay(InitialShare(), cfg, events).autoCpuDutyVal == 0
  {
    CpuMarkerAlwaysZero(InitialShare(), cfg, events);
  }
}

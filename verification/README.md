# clevo-indicator, modelled in Dafny

clevo-indicator is a fan controller for Clevo laptops. It has two processes that share one memory record (`SHARE_INFO`):

- **The EC worker** polls the laptop's Embedded Controller (EC) every 200 ms. Each iteration it:
  - serves a pending manual duty request;
  - decodes the EC register image (temperatures, fan duties, fan speeds);
  - in auto mode, asks a per-zone fan curve (CPU, GPU) for a new duty;
  - writes duties back through the EC's two-port handshake (status/command port 0x66, data port 0x62).
- **The indicator (UI)** shows a menu with "auto" and manual duties from 40% to 100%. Clicking an entry posts the choice to the shared record and greys out the chosen entry.

The model has five modules:

- `EcRegisters` (`ec_registers.dfy`): the register map, decoding a duty byte and the RPM registers, and the clamp-and-scale applied before a duty is written.
- `EcPort` (`ec_port.dfy`): the port handshake as a log of port operations over an abstract status-byte stream.
  - The functions `WaitExchange`, `ReadExchange` and `DoExchange` specify the traffic.
  - The class `EcPorts` carries it out: `IoWait`, `IoRead`, `IoDo` and `WriteFanDuty` have the loops and port accesses of the source.
- `FanCurve` (`fan_curve.dfy`): `FanConfig::adjust_fan_speed`.
  - `TargetDuty` is the function that specifies it, and `AdjustFanSpeed` is the method with the source's two scans.
  - It also holds the two built-in curves and the curve's properties: no hysteresis upwards, hysteresis at midpoints downwards, no oscillation, saturation.
- `SharedState` (`shared_state.dfy`): the shared record, in two forms.
  - `Share` is a value and `ShareInfo` is the object both sides update in place.
  - One worker iteration is specified as `Tick` and carried out by `WorkerTick`; `Run` and `RunWorker` cover the loop.
  - `SetFanSpec` and `ShareInfo.SetFan` model the UI's fan-mode command.
  - `Replay` covers interleavings of UI clicks and worker iterations.
- `UiMenu` (`ui_menu.dfy`): the menu entries, the sensitivity rule of `ui_toggle_menuitems` (method `ToggleMenuItems`), and `ui_command_set_fan` (method `UiCommandSetFan`).

The worker's methods follow the source as written, including the two defects listed under "## Findings". Each defect also has a corrected definition, with the property its authors evidently intended proved about it.

Notes on how the model reads the source:

- A duty byte is decoded by truncation: `calculate_fan_duty` casts to `int`. The model truncates and does not round.
- The GPU auto marker `auto_gpu_duty_val` is written both by the worker (line 476 and line 484) and by `ui_command_set_fan`. It is not owned by a single side (`SharedState.GpuMarkerHasTwoWriters`).
- The midpoint `(next_temp + prev_temp) / 2` is C's division, which truncates toward zero. `FanCurve.Midpoint` states that truncation for negative sums as well.
- A lost sample does not suppress the auto writes. When read() returns -1 or a short count, the worker only logs it; the record keeps the previous readings, and the auto part still runs on them and may write (`SharedState.LostSampleKeepsAutoWrites`, `SharedState.LostSampleExample`).
- The heating scan underflows on an empty table, so every curve function requires at least one breakpoint. The built-in curves have nine and ten. Loading a file only appends to them.
- Monotonic heating and saturation at the top are design goals of the curve, but the code keeps them only on some tables. `FanCurve.HigherTempNeverLowerTarget` therefore requires non-decreasing duties, and `FanCurve.NonMonotoneDutiesCounterexample` shows the target falling without them. `FanCurve.SaturatesAtTop` requires at least two breakpoints with non-negative, strictly increasing temperatures. `FanCurve.SingleEntryNeverSaturates` shows a one-entry curve never reaching its duty, and `FanCurve.NegativeTempCounterexample` shows a curve with a breakpoint below 0 degrees stepping back down from its top duty at 0 degrees. Both built-in curves meet these requirements (`FanCurve.DefaultTablesOrdered`).

## Model

| member | source | states |
|---|---|---|
| EcRegisters.FanDutyPercent | src/clevo-indicator.cpp:791-793 | the decoded duty is in 0..100 and is the truncated value of raw*100/255 (p*255 <= raw*100 < (p+1)*255) |
| EcRegisters.RawRpm | src/clevo-indicator.cpp:796 | the tachometer count is below 0x10000, with hi as its high byte and lo as its low byte |
| EcRegisters.FanRpms | src/clevo-indicator.cpp:795-798 | a zero count decodes to 0; otherwise rpm is the truncated quotient of 2156220 by the count |
| EcRegisters.FanRpmsRange | src/clevo-indicator.cpp:795-798 | any nonzero count from two bytes decodes to a speed in [32, 2156220] |
| EcRegisters.FanRpmsAntitone | src/clevo-indicator.cpp:795-798 | a larger tachometer count never reads as a faster fan |
| EcRegisters.DecodeExamples | src/clevo-indicator.cpp:791-798 | (0x08, 0x00) decodes to 1052 RPM, a zero count to 0; raw duties 128, 200, 255 decode to 50, 78, 100 |
| EcRegisters.ClampDuty | src/clevo-indicator.cpp:722-726 | the clamped duty lies in [10, 100] and equals the request when that is already in range |
| EcRegisters.ClampIsNearest | src/clevo-indicator.cpp:722-726 | the clamped duty is the point of [10, 100] nearest to the request |
| EcRegisters.DutyToRaw | src/clevo-indicator.cpp:727-728 | the byte sent is the truncated value of duty*255/100, so a byte between 25 and 255 |
| EcRegisters.FanDutyCommand | src/clevo-indicator.cpp:717-745 | a duty write sends command 0x99, port selector 0x01 for the CPU or 0x02 for the GPU, and the clamped and scaled duty |
| EcRegisters.DecodeAfterWrite | src/clevo-indicator.cpp:727-728 | a duty in [10, 100] that is written and read back decodes to the same duty or one less |
| EcRegisters.WriteAfterDecode | src/clevo-indicator.cpp:791-793 | writing back a decoded duty of at least 10 never raises the raw byte |
| EcRegisters.ClampExamples | src/clevo-indicator.cpp:722-729 | 5% on the CPU is sent as (0x99, 0x01, 25), 250% on the GPU as (0x99, 0x02, 255), and 70% as value 178 |
| EcPort.Bit | src/clevo-indicator.cpp:751 | `(data >> flag) & 1` is 0 or 1 |
| EcPort.FirstMatch | src/clevo-indicator.cpp:749-754 | the index of the first polled status byte whose bit matches, with every earlier byte missing |
| EcPort.WaitOk | src/clevo-indicator.cpp:749-760 | a successful wait's last status read has the bit equal to the value; a failed wait has made all 101 reads |
| EcPort.WaitReads | src/clevo-indicator.cpp:749-754 | a wait reads the status port at least once and at most 101 times |
| EcPort.WaitExchange | src/clevo-indicator.cpp:747-761 | the traffic of a wait is its status reads only, between 1 and 101 of them |
| EcPort.WaitOkIff | src/clevo-indicator.cpp:747-761 | a wait succeeds iff one of its first 100 status reads has the bit equal to the value, so a match on the 101st read is still a timeout |
| EcPort.WaitStopsAtFirstMatch | src/clevo-indicator.cpp:749-754 | polling stops at the first match: every earlier read missed, the last read matched on success, and a timeout made all 101 reads |
| EcPort.WaitWrite | src/clevo-indicator.cpp:764-765 | a wait followed by one outb takes between 1 and 101 status reads |
| EcPort.ReadExchange | src/clevo-indicator.cpp:763-775 | the traffic of a register read takes 3 to 303 status reads and ends with the read of the data port that returns the value |
| EcPort.DoExchange | src/clevo-indicator.cpp:777-789 | the traffic of a command takes 4 to 404 status reads |
| EcPort.DoOk | src/clevo-indicator.cpp:788 | the verdict of ec_io_do is success iff the fourth wait sees the input buffer free within its first 100 reads; the first three waits do not count |
| EcPort.StatusReadsWriteNothing | src/clevo-indicator.cpp:749-754 | a wait writes nothing to either port |
| EcPort.WaitWriteWritesOne | src/clevo-indicator.cpp:764-765 | a wait-then-write pair writes exactly its one byte |
| EcPort.ReadProtocol | src/clevo-indicator.cpp:763-775 | a register read writes exactly 0x80 to port 0x66 and then the offset to port 0x62, ends by reading 0x62, and makes 3 to 303 status reads |
| EcPort.DoProtocol | src/clevo-indicator.cpp:777-789 | a command writes exactly the command to 0x66 and then the port selector and value to 0x62, ends with a status read, and makes 4 to 404 status reads |
| EcPort.DoWrites | src/clevo-indicator.cpp:779-786 | the writes of ec_io_do are the command's three bytes, in order |
| EcPort.EcPorts.IoWait | src/clevo-indicator.cpp:747-761 | the polling loop returns the wait's verdict and appends exactly the wait's status reads to the port log |
| EcPort.EcPorts.WaitThenWrite | src/clevo-indicator.cpp:764-765 | a wait whose verdict is ignored, then one outb, appended to the port log |
| EcPort.EcPorts.IoRead | src/clevo-indicator.cpp:763-775 | returns the next data-port byte, whatever the waits said, and logs the register-read handshake |
| EcPort.EcPorts.IoDo | src/clevo-indicator.cpp:777-789 | returns only the final wait's verdict and logs the three wait-then-write pairs plus the final wait |
| EcPort.EcPorts.WriteFanDuty | src/clevo-indicator.cpp:717-745 | sends the clamped, scaled duty with command 0x99 to the zone's port selector; the port log gains exactly that command's three writes |
| FanCurve.DefaultCpuTable | src/clevo-indicator.cpp:105-115 | the built-in CPU curve has 9 breakpoints, from (10, 0) to (90, 100) |
| FanCurve.DefaultGpuTable | src/clevo-indicator.cpp:118-129 | the built-in GPU curve has 10 breakpoints, from (10, 0) to (95, 100) |
| FanCurve.Midpoint | src/clevo-indicator.cpp:155 | `(next_temp + prev_temp) / 2` truncates toward zero for negative as well as non-negative sums |
| FanCurve.MidpointBelowUpper | src/clevo-indicator.cpp:155 | for non-negative temperatures a < b, the midpoint lies below b |
| FanCurve.HeatIndex | src/clevo-indicator.cpp:137-142 | the downward scan stops at the highest reached breakpoint at index 1 or above, or finds none |
| FanCurve.CoolIndex | src/clevo-indicator.cpp:147-160 | the upward scan stops at the first pair that lets the fan step down, or finds none |
| FanCurve.HeatingTarget | src/clevo-indicator.cpp:135-142 | the heating candidate is the duty of the highest reached breakpoint at index 1 or above, and 0 when none is reached |
| FanCurve.TargetDuty | src/clevo-indicator.cpp:133-163 | a nonzero answer differs from the current duty; going up, the answer is the highest reached breakpoint's duty with no hysteresis; going down, it is the lower duty of the first pair whose midpoint the reading has fallen to; an answer of 0 means no step up applies and no pair steps down, or the first pair that does steps down to a duty of 0 |
| FanCurve.AdjustFanSpeed | src/clevo-indicator.cpp:133-163 | the scan-with-early-return method returns exactly TargetDuty |
| FanCurve.HeatIndexIgnoresDuties | src/clevo-indicator.cpp:137-142 | the heating scan depends only on breakpoint temperatures |
| FanCurve.EntryZeroNeverHeats | src/clevo-indicator.cpp:137-142 | entry 0's duty never affects the step up |
| FanCurve.SingleEntryNeverChanges | src/clevo-indicator.cpp:133-163 | a one-entry curve always answers 0 |
| FanCurve.CoolingLowersDuty | src/clevo-indicator.cpp:147-162 | when no step up applies and some pair cools, the answer is that first pair's lower duty, strictly below the current duty |
| FanCurve.TargetIsBreakpointDuty | src/clevo-indicator.cpp:133-163 | a nonzero answer is always the duty of one of the curve's breakpoints |
| FanCurve.HigherTempNeverLowerTarget | src/clevo-indicator.cpp:133-163 | with non-decreasing duties, a higher reading never yields a lower nonzero target |
| FanCurve.NonMonotoneDutiesCounterexample | src/clevo-indicator.cpp:133-163 | without non-decreasing duties the heating target can fall as the reading rises: on (10,0), (20,50), (30,30) with the fan at 0%, 25 degrees gives 50 and 35 degrees gives 30 |
| FanCurve.NoChangeAfterHeating | src/clevo-indicator.cpp:133-163 | on an ordered curve, once the fan is raised to the heating target, the same reading asks for no change |
| FanCurve.NothingCoolsAtReachedDuty | src/clevo-indicator.cpp:147-160 | on an ordered curve, at the duty of the highest reached breakpoint no pair of breakpoints lets the fan step down |
| FanCurve.SaturatesAtTop | src/clevo-indicator.cpp:133-163 | at or above the last breakpoint the curve asks for the last duty once, then nothing |
| FanCurve.SingleEntryNeverSaturates | src/clevo-indicator.cpp:137-143 | a one-entry curve never asks for its only duty: with (10,60) and the fan at 0%, 100 degrees still gives 0 |
| FanCurve.NegativeTempCounterexample | src/clevo-indicator.cpp:133-163 | with breakpoints (-1,10), (0,50) the fan at 0% is asked for 50 at 0 degrees, and at 50% it is then asked for 10 at the same reading |
| FanCurve.DefaultCpuHysteresis | src/clevo-indicator.cpp:147-162 | on the built-in CPU curve, duty 35 at 36 degrees gives 0 and at 34 degrees gives 25 |
| FanCurve.DefaultTablesOrdered | src/clevo-indicator.cpp:103-130 | both built-in curves have strictly increasing, non-negative temperatures and non-decreasing duties |
| SharedState.DefaultConfig | src/clevo-indicator.cpp:103-130 | the built-in curves are acceptable to adjust_fan_speed (at least one breakpoint each) |
| SharedState.InitialShare | src/clevo-indicator.cpp:397-411 | the initial record has the exit flag clear, auto mode on, both auto markers 0 and no pending manual request |
| SharedState.ManualStep | src/clevo-indicator.cpp:423-430 | both fans are written iff the request is nonzero and differs from the last served one; only the last served duty changes, and afterwards it equals any pending request; when nothing is written the record is unchanged |
| SharedState.ManualStepIdempotent | src/clevo-indicator.cpp:423-430 | the manual step right after a served request sends nothing and changes nothing |
| SharedState.Snapshot | src/clevo-indicator.cpp:437-464 | only a read of exactly 0x100 bytes changes the record; then the temperatures are the bytes at 0x07 and 0x0A, the duties are the decoded bytes at 0xCE and 0xCF (in 0..100), and the speeds are the decoded pairs 0xD0/0xD1 and 0xD2/0xD3 (in 0..2156220); control fields never change |
| SharedState.FanRpmsInRange | src/clevo-indicator.cpp:795-798 | every decoded speed, zero count included, is in 0..2156220 |
| SharedState.SnapshotDecodeExample | src/clevo-indicator.cpp:443-453 | a full read with raw duty 200 and tachometer bytes 0x08, 0x00 shows the CPU fan at 78% and 1052 RPM, and the CPU curve is asked with duty 78 |
| SharedState.TickDecodeExample | src/clevo-indicator.cpp:437-486 | a healthy iteration with a full read, raw duty 200 and tachometer bytes 0x08, 0x00 continues, leaves the CPU fan shown at 78% and 1052 RPM, and sends the manual writes then the auto step's writes for those readings, with the CPU curve asked at duty 78 |
| SharedState.LostSampleKeepsAutoWrites | src/clevo-indicator.cpp:438-486 | after a read of -1 or a short count the iteration continues with the previous sensor readings and sends the manual writes followed by the auto step's writes on those readings |
| SharedState.CpuTarget | src/clevo-indicator.cpp:665-673 | the CPU target is 0 or the duty of one of the CPU curve's breakpoints, different from the CPU fan's decoded duty |
| SharedState.GpuTarget | src/clevo-indicator.cpp:675-683 | the GPU target is 0 or the duty of one of the GPU curve's breakpoints, different from the GPU fan's decoded duty |
| SharedState.AutoStep | src/clevo-indicator.cpp:466-486 | outside auto mode nothing happens; a CPU target that fires against the CPU marker is written first, and the GPU target is then written iff it fires against that CPU target (line 476); otherwise the GPU target is written iff it fires against the GPU marker; the GPU marker ends holding the target of the last write, and nothing changes when nothing is written |
| SharedState.AutoStepIntended | src/clevo-indicator.cpp:466-486 | with per-zone markers, the writes are the CPU target iff it fires against the CPU marker, followed by the GPU target iff it fires against the GPU marker; each marker becomes its own zone's target when that zone is written and keeps its value otherwise |
| SharedState.AutoIntendedDedup | src/clevo-indicator.cpp:466-486 | with per-zone markers, repeating the auto step on the same readings sends nothing |
| SharedState.Tick | src/clevo-indicator.cpp:416-486 | an iteration quits iff the exit flag is set or the parent is gone, and then changes nothing; it fails iff the register file cannot be opened, after the manual part and with its record; a continuing iteration decodes the read into the record the manual part left (sensor fields as `Snapshot` gives them, served duty as `ManualStep` left it) and sends the manual writes followed by the auto step's writes on the readings `Snapshot` leaves (the previous ones after a short or failed read); UI-owned fields never change |
| SharedState.Run | src/clevo-indicator.cpp:416-489 | a run of iterations never changes the fields the UI owns |
| SharedState.SetFanSpec | src/clevo-indicator.cpp:575-591 | choosing 0 selects auto mode and anything else manual mode; both markers are cleared; the request is posted; the last served manual duty, the exit flag and the sensors are untouched |
| SharedState.ShareInfo.constructor | src/clevo-indicator.cpp:397-411 | the record starts in auto mode with every other field 0 |
| SharedState.ShareInfo.SetFan | src/clevo-indicator.cpp:575-591 | the in-place update leaves the record equal to SetFanSpec of its old value |
| SharedState.SendFanDuty | src/clevo-indicator.cpp:717-745 | a duty write as the worker issues it adds exactly the command's three port writes |
| SharedState.ManualPhase | src/clevo-indicator.cpp:423-430 | the in-place manual part leaves the record as ManualStep says and logs exactly its commands |
| SharedState.ReadPhase | src/clevo-indicator.cpp:437-464 | the in-place decode leaves the record as Snapshot says |
| SharedState.AutoPhase | src/clevo-indicator.cpp:466-486 | the in-place auto part, as written, leaves the record as AutoStep says and logs exactly its commands |
| SharedState.WorkerTick | src/clevo-indicator.cpp:416-489 | one loop iteration on the shared object yields Tick's record and outcome, and the port log gains exactly Tick's commands |
| SharedState.RunAdvances | src/clevo-indicator.cpp:416-489 | a run continues from the next iteration's result, or ends with it when that iteration does not continue |
| SharedState.RunWorker | src/clevo-indicator.cpp:416-489 | the worker loop yields Run's record and outcome, and the port log gains exactly Run's commands |
| SharedState.SecondTickNoManualWrite | src/clevo-indicator.cpp:423-430 | after any iteration that reaches the manual part, the next manual part sends nothing, whatever the sensors read |
| SharedState.ManualSelectionWrittenOnce | src/clevo-indicator.cpp:423-430 | a new manual choice is written to both fans by the next healthy iteration and not again by the one after |
| SharedState.ManualModeTick | src/clevo-indicator.cpp:416-486 | in manual mode an iteration sends only the manual writes and keeps the mode |
| SharedState.SeventyPercentExample | src/clevo-indicator.cpp:423-430 | choosing 70% from a fresh start sends (0x99, 0x01, 178) then (0x99, 0x02, 178) |
| SharedState.AutoSelectionOnlyAutoWrites | src/clevo-indicator.cpp:575-591 | after choosing auto, an iteration sends only what the auto part sends |
| SharedState.CpuTargetResentEveryTick | src/clevo-indicator.cpp:470-477 | as written, a nonzero CPU target is sent again on the next iteration with the same readings |
| SharedState.GpuWriteSuppressedWhenTargetsAgree | src/clevo-indicator.cpp:470-485 | as written, when the CPU target is written and the GPU target is the same duty, the GPU write is lost whatever the GPU marker held; with per-zone markers it is sent whenever it fires against the GPU marker |
| SharedState.GpuWriteSuppressedExample | src/clevo-indicator.cpp:476 | at 30 degrees on both zones the CPU and GPU targets are 25; as written only the CPU write is sent, while the per-zone version sends both |
| SharedState.LostSampleExample | src/clevo-indicator.cpp:438-478 | in auto mode with both zones last seen at 30 degrees, an iteration whose read fails still sends the CPU write of 25% |
| SharedState.GpuMarkerHasTwoWriters | src/clevo-indicator.cpp:476 | the worker stores 25 into the GPU marker and the UI's command then clears it |
| SharedState.ReselectedManualDutyIgnored | src/clevo-indicator.cpp:575-591 | posting the duty already being served produces no write, also when auto mode was chosen in between |
| SharedState.ReselectAfterAutoScenario | src/clevo-indicator.cpp:575-591 | 70%, an iteration, auto, an iteration, then 70% again: the last iteration writes nothing |
| SharedState.SetFanIntended | src/clevo-indicator.cpp:575-591 | the corrected command sets the record as ui_command_set_fan does, and also forgets the last served manual duty when auto mode is chosen |
| SharedState.IntendedSelectionAfterAutoWritten | src/clevo-indicator.cpp:423-430 | with the corrected command, a manual duty chosen after auto mode has run for an iteration is written to both fans |
| SharedState.IntendedRepeatedPostIgnored | src/clevo-indicator.cpp:423-430 | with the corrected command, posting the duty already being served is still not written again |
| SharedState.IntendedReselectAfterAutoScenario | src/clevo-indicator.cpp:575-591 | with the corrected command, 70%, auto, then 70% again writes 70% to both fans both times |
| SharedState.CpuMarkerAlwaysZero | src/clevo-indicator.cpp:470-476 | over any interleaving of clicks, iterations and shutdown, a CPU marker of 0 stays 0 |
| SharedState.CpuMarkerZeroFromStart | src/clevo-indicator.cpp:397-411 | from the initial record on, the CPU marker always reads 0 |
| UiMenu.MenuItems | src/clevo-indicator.cpp:209-221 | 11 entries: auto first, then manual entries at indices 2..8 offering 40% to 100% in steps of 10 |
| UiMenu.Sensitive | src/clevo-indicator.cpp:602-608 | separators and quit are never greyed out; the auto entry is greyed out exactly in auto mode; in manual mode a manual entry is greyed out exactly when it offers the chosen duty, and in auto mode every manual entry is live |
| UiMenu.ClickDisablesOnlyThatItem | src/clevo-indicator.cpp:598-610 | after clicking an auto or manual entry, that entry and no other is greyed out |
| UiMenu.UnlistedDutyDisablesNothing | src/clevo-indicator.cpp:598-610 | a nonzero duty that no entry offers greys out nothing |
| UiMenu.ToggleMenuItems | src/clevo-indicator.cpp:598-610 | every entry with a widget gets the rule's sensitivity and the others are untouched |
| UiMenu.UiCommandSetFan | src/clevo-indicator.cpp:575-591 | the record becomes SetFanSpec of its old value and the menu shows the choice |

## Left out

- The GTK/AppIndicator UI: `main_ui_worker`, `ui_update` with its floating-point icon rounding, and `ui_command_quit`. They are user-interface code. The `ui_toggle_menuitems(cpu_fan_duty)` call at UI start-up is not modelled as a call. It applies the rule of `UiMenu.Sensitive` to the measured CPU fan duty: while that duty is still 0 the auto entry is greyed out, and a duty of 40, 50, ... or 100 greys out that manual entry.
- Process plumbing: `fork`, `mmap`, `waitpid`, `setuid`, `system("modprobe ec_sys")` and the signal handlers. The two processes' true concurrency is represented only by the interleavings of `SharedState.Replay`.
- Real port I/O: `inb`/`outb`, `ioperm` and `ec_init`.
  - The status and data ports are abstract streams of bytes.
  - `usleep` pauses are not modelled.
  - `ec_io_wait` always polls port 0x66 in the source, so its port parameter is not modelled.
- The worker's file I/O (`open`, `read`, `close` of the EC register file) is an input to each iteration. The model has no file or path.
  - `kill(parent_pid, 0)` and the `parent_pid != 0` test are one boolean input.
  - The `exit(EXIT_FAILURE)` after a failed `open` is the `Failed` outcome.
- `load_config`: JSON parsing and file I/O. It only appends breakpoints to the built-in curves, so the curve functions take any curve with at least one breakpoint and the ordering lemmas state their assumptions.
- `linear_interpolate` is floating-point code that nothing calls, and the `#if 0` fan algorithm is disabled code.
- `check_proc_instances`, `get_time_string`, every `printf`, and the help text: these are I/O.
- `ec_query_*` and the dump path of `main`: register reads outside the worker loop. The register read itself is `EcPort.EcPorts.IoRead`.
- EcRegisters.FanDutyPercent: the source computes in double precision and casts to int. The model uses integer floor division of raw*100 by 255.
- EcRegisters.DutyToRaw: the source computes duty/100.0*255.0 in double precision and casts to int. The model uses integer floor division of duty*255 by 100.
- FanCurve.Midpoint: 32-bit overflow of `next_temp + prev_temp` is not modelled. Temperatures are unbounded integers.
- SharedState.WorkerTick: its contract states the record, the outcome and the port writes the iteration sends, but not the status-port reads of its waits. Those reads are stated per call by `EcPort.EcPorts.WriteFanDuty`.
- SharedState.RunWorker: the same holds for the loop as a whole.

## Findings

| source | as written | input that shows it | evidently intended | confidence | as-written member | corrected member |
|---|---|---|---|---|---|---|
| src/clevo-indicator.cpp:476 | the CPU auto branch stores its target in `auto_gpu_duty_val`, so the CPU marker is never set and the GPU branch compares against the CPU target | auto mode, CPU and GPU at 30 degrees, both fans at 0%: both targets are 25, but only the CPU write is sent; the CPU target is sent again every iteration | each zone records its own last target, so each zone is written exactly when its own target changes | not executed | SharedState.GpuWriteSuppressedWhenTargetsAgree | SharedState.AutoStepIntended |
| src/clevo-indicator.cpp:575-591 | `ui_command_set_fan` never resets `manual_prev_fan_duty` | choose 70%, let an iteration run, choose auto, let an iteration run, choose 70% again: the fans are not set to 70% | a manual choice made after auto mode is written to the fans, while posting the duty already being served stays a no-op (the served duty is forgotten only when auto mode is chosen) | not executed | SharedState.ReselectAfterAutoScenario | SharedState.IntendedSelectionAfterAutoWritten |

# teslafan in Dafny

teslafan is a small daemon that keeps a Tesla GPU cool. It reads the GPU temperature
through the NVIDIA management library (NVML) and turns it into a fan PWM duty value
from 0 to 255. It writes that value, one byte at a time, to a character device that
drives the fan.

This project models `main` after option parsing:

- **Start-up.** Open the control device, clear its DTR line, initialise NVML, resolve
  the device handle and print the device identification. The first step that fails
  releases what was acquired so far, the library first and then the device, and the
  process exits with `EXIT_FAILURE`.
- **Control loop.** The loop state starts at the command 64. Each iteration reads the
  temperature and computes `newpwm = 96 + k * (temp - target)`, saturated into
  [0, 255]. When `abs(newpwm - pwm) > 1` it stores the new command, writes it and
  flushes it. Then it sleeps. A failed read shuts NVML down, closes the device and
  exits with failure.

The observable behaviour is a trace of `Trace.Event`s: the start-up calls and whether
they succeeded, samples, writes, flushes, sleeps, releases and the exit. The outcomes
of the outside calls are inputs:

- a `Startup.Outcomes` gives one success flag per start-up step;
- a sequence of read outcomes gives one per loop iteration (`None` for a failed read).

Each operation appears twice:

- as a method written the way the C code runs it, with mutable locals, an if-chain
  and the loop;
- as a reference function that states the intended behaviour.

Each method's postcondition ties it to its reference function, and the properties
are proved as lemmas about the functions:

| method | reference function |
|---|---|
| `Startup.Acquire` | `Startup.StartupTrace` |
| `ControlLoop.Step` | `ControlLaw.Decide` |
| `ControlLoop.RunLoop` | `ControlLoop.Loop` |
| `Teslafan.Daemon` | `Teslafan.Program` |

Modules:

- `ControlLaw` (control_law.dfy): the control law on exact reals, the truncating
  `abs` comparison, and the conversion to `unsigned char`.
- `Trace` (trace.dfy): events, resources, and the release order.
- `Startup` (startup.dfy): the acquisition sequence and its cleanup.
- `ControlLoop` (control_loop.dfy): one iteration, and the loop over a finite
  sequence of read outcomes.
- `Teslafan` (teslafan.dfy): start-up followed by the loop.

Three details of the code shape the model:

- **Write errors.** `write` and `fsync` results are ignored, so writes and flushes
  are plain events with no failure path.
- **Deadband.** `abs` is the integer function, so the float difference is truncated
  toward zero first, and a change is written only when the command is at least 2
  away from the stored one (`ControlLaw.DeadbandIsTwoUnits`,
  `ControlLaw.ExceedsDeadband`). A difference of 1.9 is not written
  (`ControlLaw.TruncatedDifferenceExample`).
- **Identification step.** A `prInfo` failure is fatal, so it is a fifth start-up
  step with the same cleanup as a failed handle lookup.

## Model

| member | source | states |
|---|---|---|
| ControlLaw.Clamp | host/teslafan.c:153-156 | the saturated command lies in [0, 255] and is the point of that range nearest the raw command |
| ControlLaw.Trunc | host/teslafan.c:157 | float-to-int conversion truncates toward zero: the floor for non-negative values, the ceiling for negative ones |
| ControlLaw.Abs | host/teslafan.c:157 | the integer `abs`: the result is non-negative and is the argument or its negation |
| ControlLaw.RawCommand | host/teslafan.c:151-152 | the command is 96 at the target temperature; with a non-negative gain it is at least 96 when the device is hotter than the target and at most 96 when it is cooler |
| ControlLaw.NewPwm | host/teslafan.c:151-156 | the saturated command is in [0, 255]: the raw command when that is in range, 255 above the range, 0 below it |
| ControlLaw.DeadbandIsTwoUnits | host/teslafan.c:157 | the integer `abs` of the truncated difference exceeds 1 exactly when the difference is at least 2 or at most -2 |
| ControlLaw.ExceedsDeadband | host/teslafan.c:157 | the write condition holds exactly when the new command and the stored one are at least 2 apart |
| ControlLaw.ToByte | host/teslafan.c:159 | storing an in-range float into the `unsigned char` keeps its floor |
| ControlLaw.Decide | host/teslafan.c:151-159 | a new command is produced exactly when the saturated command is at least 2 from the stored one, and that command is the floor of the saturated command |
| ControlLaw.NextPwm | host/teslafan.c:157-159 | the stored command is kept inside the deadband; outside it, it becomes the floor of the saturated command |
| ControlLaw.BaselineAtTarget | host/teslafan.c:151-152 | at the target temperature the command is 96 whatever the gain |
| ControlLaw.MonotoneInTemperature | host/teslafan.c:151-156 | with a non-negative gain the saturated command never decreases as the temperature rises |
| ControlLaw.SaturationExample | host/teslafan.c:153-154 | with the default target 35 and gain 25, a temperature of 200 saturates at 255 |
| ControlLaw.DecisionSettles | host/teslafan.c:157-159 | right after a decision the same temperature decides nothing (the deadband makes the law idempotent) |
| ControlLaw.WriteExample | host/teslafan.c:151-159 | target 35, gain 25, temperature 39 and stored command 64 give the new command 196 |
| ControlLaw.QuietAtBaselineExample | host/teslafan.c:157 | at the target with the stored command already 96 nothing is written |
| ControlLaw.TruncatedDifferenceExample | host/teslafan.c:157 | a difference of 1.9 (more than 1) writes nothing, while a difference of 2 writes 98 |
| Trace.Releases | host/teslafan.c:130-131 | one release call for each held resource |
| Trace.ReleasesCount | host/teslafan.c:116-137 | the cleanup closes the device once per time it is held, shuts the library down once per time it is held, and never exits by itself |
| Trace.ReleaseOrder | host/teslafan.c:116-137 | the three possible cleanups: none after a failed open, close alone before NVML is up, otherwise shutdown and then close |
| Startup.Progress | host/teslafan.c:107-139 | the number of steps done: all of these succeeded, and the step after them failed |
| Startup.StartupTrace | host/teslafan.c:107-139 | start-up begins by opening the device, and it ends with the failure exit exactly when some step failed |
| Startup.OpenFailureTrace | host/teslafan.c:108-111 | a failed open makes no further call and exits at once |
| Startup.IoctlFailureTrace | host/teslafan.c:113-118 | a failed DTR clear closes the device and exits |
| Startup.InitFailureTrace | host/teslafan.c:122-126 | a failed NVML initialisation closes the device and exits, without a library shutdown |
| Startup.HandleFailureTrace | host/teslafan.c:128-133 | a failed handle lookup shuts NVML down, closes the device and exits |
| Startup.IdentifyFailureTrace | host/teslafan.c:135-139 | a failed identification shuts NVML down, closes the device and exits |
| Startup.SuccessTrace | host/teslafan.c:107-139 | when all five steps succeed, start-up makes the five calls, releases nothing and holds both resources |
| Startup.Acquire | host/teslafan.c:107-139 | the if-chain of `main` produces exactly the reference start-up trace and reports success exactly when every step succeeded |
| Startup.StartupReleasesWhatItAcquired | host/teslafan.c:107-139 | a failed start-up closes the device exactly once if the open succeeded and shuts NVML down exactly once if its initialisation succeeded; it exits with failure exactly when some step failed |
| Startup.StartupEventsAreStartup | host/teslafan.c:107-139 | start-up only makes its own calls, releases and exits: it never samples, writes or sleeps |
| ControlLoop.SleepSeconds | host/teslafan.c:164 | the `int` interval converted to `unsigned int`: unchanged when non-negative, plus 2^32 when negative |
| ControlLoop.StepEvents | host/teslafan.c:157-164 | inside the deadband an iteration only sleeps; outside it, it writes the new command and flushes it before the sleep |
| ControlLoop.Loop | host/teslafan.c:143-165 | a loop that goes on makes at least a read and a sleep per iteration; a loop that stops has at least four events and ends with the failure exit |
| ControlLoop.Step | host/teslafan.c:151-164 | one iteration: inside the deadband the command is kept and only the sleep happens; outside it the floor of the saturated command is stored, written and then flushed before the sleep |
| ControlLoop.RunLoop | host/teslafan.c:143-165 | the loop as written produces exactly the reference trace, final command and exit status over the read outcomes |
| ControlLoop.LoopWritesAreFlushed | host/teslafan.c:151-161 | every write is flushed immediately and follows the sample it was computed from, and its byte is the floor of the saturated command for that sample |
| ControlLoop.LoopPwmIsLastWritten | host/teslafan.c:52-160 | the stored command is always the byte last written to the device, or the starting command while nothing has been written |
| ControlLoop.LoopExitsOnFailedRead | host/teslafan.c:143-149 | the loop has exited exactly when some read failed |
| ControlLoop.LoopReleasesOnce | host/teslafan.c:143-149 | the loop shuts NVML down and closes the device once each if it exits, and never while it runs |
| ControlLoop.LoopEndsWithCleanup | host/teslafan.c:144-149 | a failed read is followed only by the shutdown, the close and the exit; there is no other failed read |
| ControlLoop.SettledLoopIsQuiet | host/teslafan.c:157-162 | once settled at a temperature, further identical samples write nothing and keep the command |
| ControlLoop.ConstantTemperatureWritesAtMostOnce | host/teslafan.c:143-165 | at a constant temperature the device is written at most once, right after the first sample |
| ControlLoop.FirstIterationExample | host/teslafan.c:143-164 | defaults, starting command 64, first sample 39: the loop writes 196, flushes and sleeps 10 seconds |
| Teslafan.Daemon | host/teslafan.c:52-165 | `main` after option parsing runs start-up and then the loop from the command 64, producing the reference behaviour |
| Teslafan.Program | host/teslafan.c:52-165 | the run begins with the start-up trace; a failed start-up is the whole run and exits with the command still 64; a run that exits ends with the failure exit |
| Teslafan.ProgramExitsOnFailure | host/teslafan.c:107-149 | the process exits exactly when a start-up step fails or a read fails |
| Teslafan.ProgramReleasesWhatItAcquired | host/teslafan.c:107-149 | on any path the device is closed once if it was opened and NVML is shut down once if it was initialised, and only when the process exits; it exits with failure exactly when it stops |
| Teslafan.ProgramEndsWithCleanup | host/teslafan.c:107-149 | every fatal path ends with the release of exactly what was held, last acquired first, followed by the exit |
| Teslafan.ProgramWritesFlushed | host/teslafan.c:107-161 | over the whole run every write is flushed right after it and comes from the sample before it |
| Teslafan.ProgramPwmIsLastWritten | host/teslafan.c:52-160 | over the whole run the stored command is the byte last written, or 64 |
| Teslafan.FirstSampleExample | host/teslafan.c:51-164 | default configuration, successful start-up, first sample 39: the start-up calls are followed by the read, the write of 196, the flush and a 10-second sleep |

## Left out

- ControlLaw.NewPwm: computes with exact reals, not single-precision floats. Float
  rounding, NaN and infinities are not modelled, so for extreme gains the float
  program can round differently.
- ControlLaw.DeadbandIsTwoUnits: follows the C reading, where `abs` is the integer
  function. If the file is compiled as C++ and an `abs(float)` overload is chosen,
  the comparison becomes `|newpwm - pwm| > 1`; that variant is not modelled.
- Write and flush results: `write` and `fsync` return values are ignored by the code,
  so they have no failure path here.
- `prInfo` (host/teslafan.c:30-47): its two NVML queries are modelled as one
  identification step with one outcome; the driver version and device name are not
  modelled.
- Option parsing, `usage()`, `atoi`/`atof` and the `-d` flag (host/teslafan.c:62-105):
  the configuration arrives already parsed as a `ControlLaw.Config`, with its defaults
  as `ControlLaw.Defaults`.
- `syslog`/`openlog`: logging has no effect on the trace and is left out.
- The endless loop is modelled over a finite sequence of read outcomes, one per
  iteration. A run that has not exited is a prefix of the real, infinite run.
- The tail after the loop (host/teslafan.c:167-169) is unreachable and is not
  modelled.
- Temperatures are unbounded naturals rather than 32-bit `unsigned int`; the sleep
  argument conversion is modelled explicitly, the sleep itself is only an event.
- The `MIN` macro (host/teslafan.c:22) is unused by `main` and is left out.

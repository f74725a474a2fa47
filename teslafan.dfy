/** The daemon as a whole: start-up, then the control loop from the initial command.
    Option parsing, the usage text and the system log are not part of this model; the
    configuration arrives already parsed. */
module Teslafan {
  import opened ControlLaw
  import opened Trace
  import opened Startup
  import opened ControlLoop

  /** The reference behaviour of `main` for the given start-up outcomes and read outcomes:
      a failed start-up exits with its own cleanup; otherwise the loop runs from the
      initial command. */
  function Program(cfg: Config, s: Outcomes, readings: seq<Option<nat>>): (r: Run)
    ensures |StartupTrace(s)| <= |r.trace| && r.trace[..|StartupTrace(s)|] == StartupTrace(s)
    ensures !AllSucceed(s) ==> r.exited && r.pwm == InitialPwm && r.trace == StartupTrace(s)
    ensures r.exited ==> r.trace[|r.trace| - 1] == ExitFailure
  {
    if AllSucceed(s) then Then(StartupTrace(s), Loop(cfg, InitialPwm, readings))
    else Run(StartupTrace(s), InitialPwm, true)
  }

  /** `main` after option parsing, as the program runs it. */
  method Daemon(cfg: Config, s: Outcomes, readings: seq<Option<nat>>)
    returns (trace: seq<Event>, pwm: byte, exited: bool)
    ensures Run(trace, pwm, exited) == Program(cfg, s, readings)
  {
    pwm := InitialPwm;
    var ok;
    trace, ok := Acquire(s);
    if !ok {
      exited := true;
      return;
    }
    var loopTrace;
    loopTrace, pwm, exited := RunLoop(cfg, pwm, readings);
    trace := trace + loopTrace;
  }

  /** The process exits exactly when a start-up step fails or a temperature read fails. */
  lemma ProgramExitsOnFailure(cfg: Config, s: Outcomes, readings: seq<Option<nat>>)
    ensures Program(cfg, s, readings).exited <==>
      !AllSucceed(s) || exists j :: 0 <= j < |readings| && readings[j].None?
  {
    LoopExitsOnFailedRead(cfg, InitialPwm, readings);
  }

  /** Whatever fails, the control device is closed exactly once if it was opened, the
      library is shut down exactly once if it was initialised, and nothing is released
      while the daemon keeps running; it exits with failure exactly when it stops. */
  lemma ProgramReleasesWhatItAcquired(cfg: Config, s: Outcomes, readings: seq<Option<nat>>)
    ensures var r := Program(cfg, s, readings);
      multiset(r.trace)[Close] == (if s.open && r.exited then 1 else 0) &&
      multiset(r.trace)[Shutdown] == (if s.open && s.ioctl && s.init && r.exited then 1 else 0) &&
      (ExitFailure in r.trace <==> r.exited)
  {
    StartupReleasesWhatItAcquired(s);
    if AllSucceed(s) {
      var head := StartupTrace(s);
      assert s.open && s.ioctl && s.init by { ProgressCases(s); }
      assert Close !in multiset(head) && Shutdown !in multiset(head);
      LoopReleasesOnce(cfg, InitialPwm, readings);
      ReleasedOnExitThen(head, Loop(cfg, InitialPwm, readings));
    }
  }

  /** On every fatal path the trace ends with the release of exactly what was held, last
      acquired first, followed by the exit. */
  lemma ProgramEndsWithCleanup(cfg: Config, s: Outcomes, readings: seq<Option<nat>>)
    ensures Program(cfg, s, readings).exited ==>
      EndsWith(Program(cfg, s, readings).trace, Releases(Held(s)) + [ExitFailure])
  {
    var cleanup := Releases(Held(s)) + [ExitFailure];
    if !AllSucceed(s) {
      assert cleanup[|cleanup| - |cleanup|..] == cleanup;
      EndsWithAppend(Attempts(s, Steps), cleanup, cleanup);
    } else if Loop(cfg, InitialPwm, readings).exited {
      var l := Loop(cfg, InitialPwm, readings).trace;
      LoopEndsWithCleanup(cfg, InitialPwm, readings);
      assert s.open && s.ioctl && s.init && s.handle && s.info by { ProgressCases(s); }
      SuccessTrace(s);
      assert EndsWithCleanup(Loop(cfg, InitialPwm, readings));
      EndsWithTailOf(l, ReadError, Releases(AllResources), [ExitFailure]);
      EndsWithAppend(StartupTrace(s), l, cleanup);
    }
  }

  /** Every byte the daemon writes is flushed right after it and is the floor of the
      clamped command for the sample read just before it. */
  lemma ProgramWritesFlushed(cfg: Config, s: Outcomes, readings: seq<Option<nat>>)
    ensures WritesFlushed(cfg, Program(cfg, s, readings).trace)
  {
    var head := StartupTrace(s);
    StartupEventsAreStartup(s);
    assert forall j :: 0 <= j < |head| ==> !head[j].Write? by {
      forall j | 0 <= j < |head| ensures !head[j].Write? {
        assert head[j] in head;
      }
    }
    if AllSucceed(s) {
      LoopWritesAreFlushed(cfg, InitialPwm, readings);
      WritesFlushedAppend(cfg, head, Loop(cfg, InitialPwm, readings).trace);
    }
  }

  /** The persisted command is always the byte last written to the control device, or
      the initial command 64 while nothing has been written. */
  lemma ProgramPwmIsLastWritten(cfg: Config, s: Outcomes, readings: seq<Option<nat>>)
    ensures Program(cfg, s, readings).pwm == LastWritten(Program(cfg, s, readings).trace, InitialPwm)
  {
    var head := StartupTrace(s);
    StartupEventsAreStartup(s);
    LastWrittenNoWrites(head, InitialPwm);
    if AllSucceed(s) {
      LoopPwmIsLastWritten(cfg, InitialPwm, readings);
      LastWrittenAppend(head, Loop(cfg, InitialPwm, readings).trace, InitialPwm);
    }
  }

  /** With the default configuration, a successful start-up and a first sample of 39
      degrees, the daemon writes 196 and flushes it before its first sleep. */
  lemma FirstSampleExample()
    ensures var s := Outcomes(true, true, true, true, true);
      Program(Defaults, s, [Some(39)]) ==
      Run(StartupTrace(s) + [ReadTemp(39), Write(196), Fsync, Sleep(10)], 196, false)
  {
    SuccessTrace(Outcomes(true, true, true, true, true));
    FirstIterationExample();
  }
}

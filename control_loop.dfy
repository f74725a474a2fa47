/** The control loop: read the temperature, apply the control law, write and flush the
    command when it leaves the deadband, sleep, repeat. A failed read releases the
    management library and the control device and exits with failure. The endless loop
    is modelled over a finite sequence of read outcomes, one per iteration. */
module ControlLoop {
  import opened ControlLaw
  import opened Trace

  const Two32: int := 0x1_0000_0000

  /** `sleep(waittime)`: the int argument is converted to `unsigned int`. */
  function SleepSeconds(wait: int): (s: nat)
    ensures s < Two32
    ensures 0 <= wait < Two32 ==> s == wait
    ensures -Two32 <= wait < 0 ==> s == wait + Two32
  {
    wait % Two32
  }

  /** The events of one iteration after a successful read: the sleep alone inside the
      deadband, otherwise the write of the new command and its flush before the sleep. */
  function StepEvents(cfg: Config, pwm: byte, temp: nat): (t: seq<Event>)
    ensures Dist(NewPwm(cfg, temp), pwm as real) < 2.0 ==> t == [Sleep(SleepSeconds(cfg.wait))]
    ensures Dist(NewPwm(cfg, temp), pwm as real) >= 2.0 ==>
      t == [Write(NextPwm(cfg, temp, pwm)), Fsync, Sleep(SleepSeconds(cfg.wait))]
  {
    match Decide(cfg, temp, pwm)
    case Some(b) => [Write(b), Fsync, Sleep(SleepSeconds(cfg.wait))]
    case None => [Sleep(SleepSeconds(cfg.wait))]
  }

  /** What a run of the loop produces: the trace, the persisted command, and whether
      the process exited. */
  datatype Run = Run(trace: seq<Event>, pwm: byte, exited: bool)

  /** The reference behaviour of the loop over the given read outcomes (None: a failed read).
      A run that goes on makes at least the read and the sleep per iteration; a run that
      stops ends with the failure exit. */
  function Loop(cfg: Config, pwm: byte, readings: seq<Option<nat>>): (r: Run)
    ensures !r.exited ==> |r.trace| >= 2 * |readings|
    ensures r.exited ==> |r.trace| >= 4 && r.trace[|r.trace| - 1] == ExitFailure
    decreases |readings|
  {
    if readings == [] then Run([], pwm, false)
    else match readings[0]
      case None => Run([ReadError] + Releases(AllResources) + [ExitFailure], pwm, true)
      case Some(temp) =>
        var rest := Loop(cfg, NextPwm(cfg, temp, pwm), readings[1..]);
        Run([ReadTemp(temp)] + StepEvents(cfg, pwm, temp) + rest.trace, rest.pwm, rest.exited)
  }

  /** One iteration after a successful read of `temp`, with the local float `newpwm`
      of the source. */
  method Step(cfg: Config, pwm: byte, temp: nat) returns (next: byte, events: seq<Event>)
    ensures Dist(NewPwm(cfg, temp), pwm as real) < 2.0 ==>
      next == pwm && events == [Sleep(SleepSeconds(cfg.wait))]
    ensures Dist(NewPwm(cfg, temp), pwm as real) >= 2.0 ==>
      next as real <= NewPwm(cfg, temp) < next as real + 1.0 &&
      events == [Write(next), Fsync, Sleep(SleepSeconds(cfg.wait))]
    ensures next == NextPwm(cfg, temp, pwm) && events == StepEvents(cfg, pwm, temp)
  {
    var error := temp as real - cfg.target;
    var newpwm := Baseline + cfg.k * error;
    ghost var raw := newpwm;
    assert raw == RawCommand(cfg, temp);
    if newpwm > MaxPwm {
      newpwm := MaxPwm;
    }
    if newpwm < 0.0 {
      newpwm := 0.0;
    }
    assert newpwm == Clamp(raw) == NewPwm(cfg, temp);
    next, events := pwm, [];
    if ExceedsDeadband(newpwm, pwm) {
      next := Trunc(newpwm) as byte;
      events := [Write(next), Fsync];
    }
    events := events + [Sleep(SleepSeconds(cfg.wait))];
  }

  /** A run preceded by the events already produced. */
  function Then(prefix: seq<Event>, r: Run): Run
  {
    Run(prefix + r.trace, r.pwm, r.exited)
  }

  /** One unfolding of the loop at position `i` of the read outcomes. */
  lemma LoopAt(cfg: Config, pwm: byte, readings: seq<Option<nat>>, i: nat)
    requires i < |readings|
    ensures readings[i].None? ==>
      Loop(cfg, pwm, readings[i..]) == Run([ReadError, Shutdown, Close, ExitFailure], pwm, true)
    ensures readings[i].Some? ==>
      Loop(cfg, pwm, readings[i..]) ==
      Then([ReadTemp(readings[i].value)] + StepEvents(cfg, pwm, readings[i].value),
           Loop(cfg, NextPwm(cfg, readings[i].value, pwm), readings[i + 1..]))
  {
    assert readings[i..][0] == readings[i] && readings[i..][1..] == readings[i + 1..];
    assert Releases(AllResources) == [Shutdown, Close];
  }

  /** Prefixes compose. */
  lemma ThenThen(a: seq<Event>, b: seq<Event>, r: Run)
    ensures Then(a + b, r) == Then(a, Then(b, r))
  {
    assert (a + b) + r.trace == a + (b + r.trace);
  }

  /** The loop as the program runs it, over the given read outcomes. */
  method RunLoop(cfg: Config, pwm0: byte, readings: seq<Option<nat>>)
    returns (trace: seq<Event>, pwm: byte, exited: bool)
    ensures Run(trace, pwm, exited) == Loop(cfg, pwm0, readings)
  {
    trace, pwm, exited := [], pwm0, false;
    var i := 0;
    while i < |readings|
      invariant 0 <= i <= |readings| && !exited
      invariant Then(trace, Loop(cfg, pwm, readings[i..])) == Loop(cfg, pwm0, readings)
    {
      LoopAt(cfg, pwm, readings, i);
      if readings[i].None? {
        trace := trace + [ReadError, Shutdown, Close, ExitFailure];
        exited := true;
        return;
      }
      var temp := readings[i].value;
      ghost var before, rest := trace, Loop(cfg, NextPwm(cfg, temp, pwm), readings[i + 1..]);
      var events;
      pwm, events := Step(cfg, pwm, temp);
      trace := trace + ([ReadTemp(temp)] + events);
      ThenThen(before, [ReadTemp(temp)] + events, rest);
      i := i + 1;
    }
    assert readings[i..] == [];
  }

  /** Every byte written is flushed right away and was computed from the sample read
      just before it: it is the floor of the clamped command for that temperature. */
  predicate WritesFlushed(cfg: Config, t: seq<Event>)
  {
    forall j :: 0 <= j < |t| && t[j].Write? ==>
      0 < j && j + 1 < |t| && t[j + 1] == Fsync && t[j - 1].ReadTemp? &&
      t[j].b as real <= NewPwm(cfg, t[j - 1].temp) < t[j].b as real + 1.0
  }

  /** Two traces whose writes are flushed, one after the other. */
  lemma WritesFlushedAppend(cfg: Config, a: seq<Event>, b: seq<Event>)
    requires WritesFlushed(cfg, a) && WritesFlushed(cfg, b)
    ensures WritesFlushed(cfg, a + b)
  {
    var t := a + b;
    forall j | 0 <= j < |t| && t[j].Write?
      ensures 0 < j && j + 1 < |t| && t[j + 1] == Fsync && t[j - 1].ReadTemp? &&
              t[j].b as real <= NewPwm(cfg, t[j - 1].temp) < t[j].b as real + 1.0
    {
      if j >= |a| {
        var k := j - |a|;
        assert b[k] == t[j];
        assert b[k].Write?;
        assert t[j + 1] == b[k + 1] && t[j - 1] == b[k - 1];
      } else {
        assert a[j] == t[j];
        assert a[j].Write?;
        assert t[j + 1] == a[j + 1] && t[j - 1] == a[j - 1];
      }
    }
  }

  /** One successful iteration flushes what it writes. */
  lemma IterationWritesFlushed(cfg: Config, pwm: byte, temp: nat)
    ensures WritesFlushed(cfg, [ReadTemp(temp)] + StepEvents(cfg, pwm, temp))
  {
    var head := [ReadTemp(temp)] + StepEvents(cfg, pwm, temp);
    if Decide(cfg, temp, pwm).Some? {
      assert head == [ReadTemp(temp), Write(Decide(cfg, temp, pwm).value), Fsync, Sleep(SleepSeconds(cfg.wait))];
    } else {
      assert head == [ReadTemp(temp), Sleep(SleepSeconds(cfg.wait))];
    }
  }

  lemma {:induction false} LoopWritesAreFlushed(cfg: Config, pwm: byte, readings: seq<Option<nat>>)
    ensures WritesFlushed(cfg, Loop(cfg, pwm, readings).trace)
    decreases |readings|
  {
    if readings == [] {
    } else if readings[0].None? {
      var t := [ReadError, Shutdown, Close, ExitFailure];
      LoopAt(cfg, pwm, readings, 0);
      assert readings[0..] == readings;
      assert forall j :: 0 <= j < |t| ==> !t[j].Write?;
    } else {
      var temp := readings[0].value;
      var next := NextPwm(cfg, temp, pwm);
      LoopAt(cfg, pwm, readings, 0);
      assert readings[0..] == readings;
      LoopWritesAreFlushed(cfg, next, readings[1..]);
      IterationWritesFlushed(cfg, pwm, temp);
      WritesFlushedAppend(cfg, [ReadTemp(temp)] + StepEvents(cfg, pwm, temp), Loop(cfg, next, readings[1..]).trace);
    }
  }

  /** The command the program last wrote, or `dflt` when the trace holds no write. */
  function LastWritten(t: seq<Event>, dflt: byte): byte
  {
    if t == [] then dflt
    else if t[|t| - 1].Write? then t[|t| - 1].b
    else LastWritten(t[..|t| - 1], dflt)
  }

  lemma {:induction false} LastWrittenAppend(a: seq<Event>, b: seq<Event>, dflt: byte)
    ensures LastWritten(a + b, dflt) == LastWritten(b, LastWritten(a, dflt))
    decreases |b|
  {
    if b == [] {
      assert a + b == a;
    } else {
      assert (a + b)[..|a + b| - 1] == a + b[..|b| - 1];
      LastWrittenAppend(a, b[..|b| - 1], dflt);
    }
  }

  /** A trace without writes leaves the last written command as it was. */
  lemma {:induction false} LastWrittenNoWrites(t: seq<Event>, dflt: byte)
    requires forall e :: e in t ==> !e.Write?
    ensures LastWritten(t, dflt) == dflt
    decreases |t|
  {
    if t != [] {
      assert t[|t| - 1] in t;
      assert forall e :: e in t[..|t| - 1] ==> e in t;
      LastWrittenNoWrites(t[..|t| - 1], dflt);
    }
  }

  /** One iteration leaves the command it stores as the last one written. */
  lemma IterationLastWritten(cfg: Config, pwm: byte, temp: nat)
    ensures LastWritten([ReadTemp(temp)] + StepEvents(cfg, pwm, temp), pwm) == NextPwm(cfg, temp, pwm)
  {
    var head := [ReadTemp(temp)] + StepEvents(cfg, pwm, temp);
    var tail := [Sleep(SleepSeconds(cfg.wait))];
    match Decide(cfg, temp, pwm)
    case Some(b) =>
      var front := [ReadTemp(temp), Write(b)];
      assert head == front + ([Fsync] + tail);
      LastWrittenAppend(front, [Fsync] + tail, pwm);
      LastWrittenNoWrites([Fsync] + tail, LastWritten(front, pwm));
      assert front[..|front| - 1] == [ReadTemp(temp)];
    case None =>
      assert head == [ReadTemp(temp)] + tail;
      LastWrittenNoWrites(head, pwm);
  }

  /** The persisted command always equals the byte last written to the device, or the
      initial command when nothing has been written: the controller's state and the
      actuator agree. */
  lemma {:induction false} LoopPwmIsLastWritten(cfg: Config, pwm: byte, readings: seq<Option<nat>>)
    ensures Loop(cfg, pwm, readings).pwm == LastWritten(Loop(cfg, pwm, readings).trace, pwm)
    decreases |readings|
  {
    if readings == [] {
    } else if readings[0].None? {
      var t := Loop(cfg, pwm, readings).trace;
      assert Releases(AllResources) == [Shutdown, Close];
      assert t == [ReadError, Shutdown, Close, ExitFailure];
      LastWrittenNoWrites(t, pwm);
    } else {
      var temp := readings[0].value;
      var next := NextPwm(cfg, temp, pwm);
      var head := [ReadTemp(temp)] + StepEvents(cfg, pwm, temp);
      var rest := Loop(cfg, next, readings[1..]).trace;
      LoopPwmIsLastWritten(cfg, next, readings[1..]);
      LastWrittenAppend(head, rest, pwm);
      IterationLastWritten(cfg, pwm, temp);
    }
  }

  /** A failed read is fatal: the loop has exited exactly when one of the reads failed. */
  lemma {:induction false} LoopExitsOnFailedRead(cfg: Config, pwm: byte, readings: seq<Option<nat>>)
    ensures Loop(cfg, pwm, readings).exited <==> exists j :: 0 <= j < |readings| && readings[j].None?
    decreases |readings|
  {
    if readings != [] && readings[0].Some? {
      var next := NextPwm(cfg, readings[0].value, pwm);
      LoopExitsOnFailedRead(cfg, next, readings[1..]);
      if Loop(cfg, next, readings[1..]).exited {
        var j :| 0 <= j < |readings[1..]| && readings[1..][j].None?;
        assert readings[j + 1].None?;
      } else {
        forall j | 0 <= j < |readings| ensures readings[j].Some? {
          if j > 0 {
            assert readings[j] == readings[1..][j - 1];
          }
        }
      }
    }
  }

  /** An iteration after a successful read neither fails a read, nor releases anything,
      nor exits. */
  lemma IterationReleasesNothing(cfg: Config, pwm: byte, temp: nat)
    ensures var head := [ReadTemp(temp)] + StepEvents(cfg, pwm, temp);
      ReadError !in head && Close !in head && Shutdown !in head && ExitFailure !in head
  {
    var head := [ReadTemp(temp)] + StepEvents(cfg, pwm, temp);
    if Decide(cfg, temp, pwm).Some? {
      assert head == [ReadTemp(temp), Write(Decide(cfg, temp, pwm).value), Fsync, Sleep(SleepSeconds(cfg.wait))];
    } else {
      assert head == [ReadTemp(temp), Sleep(SleepSeconds(cfg.wait))];
    }
  }

  /** A run releases the library and the control device once each if it exited, and
      not at all otherwise; it exits with failure exactly when it stopped. */
  predicate ReleasedOnExit(r: Run)
  {
    multiset(r.trace)[Close] == (if r.exited then 1 else 0) &&
    multiset(r.trace)[Shutdown] == (if r.exited then 1 else 0) &&
    (ExitFailure in r.trace <==> r.exited)
  }

  /** Events that release nothing and do not exit keep that property. */
  lemma ReleasedOnExitThen(head: seq<Event>, r: Run)
    requires ReleasedOnExit(r)
    requires Close !in head && Shutdown !in head && ExitFailure !in head
    ensures ReleasedOnExit(Then(head, r))
  {
    assert Close !in multiset(head) && Shutdown !in multiset(head);
    assert multiset(head + r.trace) == multiset(head) + multiset(r.trace);
  }

  /** The cleanup after a failed read. */
  lemma FailedReadReleasesOnce(pwm: byte)
    ensures ReleasedOnExit(Run([ReadError, Shutdown, Close, ExitFailure], pwm, true))
  {
    var t := [ReadError, Shutdown, Close, ExitFailure];
    assert multiset(t) == multiset{ReadError, Shutdown, Close, ExitFailure};
  }

  /** An iteration after a successful read keeps the release discipline of the rest. */
  lemma IterationKeepsReleases(cfg: Config, pwm: byte, readings: seq<Option<nat>>)
    requires readings != [] && readings[0].Some?
    requires ReleasedOnExit(Loop(cfg, NextPwm(cfg, readings[0].value, pwm), readings[1..]))
    ensures ReleasedOnExit(Loop(cfg, pwm, readings))
  {
    var temp := readings[0].value;
    LoopAt(cfg, pwm, readings, 0);
    assert readings[0..] == readings;
    IterationReleasesNothing(cfg, pwm, temp);
    ReleasedOnExitThen([ReadTemp(temp)] + StepEvents(cfg, pwm, temp), Loop(cfg, NextPwm(cfg, temp, pwm), readings[1..]));
  }

  /** The loop releases the library and the control device once each when it exits
      and not at all while it runs. */
  lemma {:induction false} LoopReleasesOnce(cfg: Config, pwm: byte, readings: seq<Option<nat>>)
    ensures ReleasedOnExit(Loop(cfg, pwm, readings))
    decreases |readings|
  {
    if readings == [] {
    } else if readings[0].None? {
      LoopAt(cfg, pwm, readings, 0);
      assert readings[0..] == readings;
      FailedReadReleasesOnce(pwm);
    } else {
      LoopReleasesOnce(cfg, NextPwm(cfg, readings[0].value, pwm), readings[1..]);
      IterationKeepsReleases(cfg, pwm, readings);
    }
  }

  /** A failed read is followed only by the releases, last acquired first, and the exit;
      there is no failed read anywhere else. */
  predicate EndsWithCleanup(r: Run)
  {
    (r.exited ==> EndsWith(r.trace, [ReadError] + Releases(AllResources) + [ExitFailure])) &&
    (forall j :: 0 <= j < |r.trace| && r.trace[j] == ReadError ==> j == |r.trace| - 4)
  }

  /** Events without a failed read keep that property. */
  lemma EndsWithCleanupThen(head: seq<Event>, r: Run)
    requires EndsWithCleanup(r) && ReadError !in head
    ensures EndsWithCleanup(Then(head, r))
  {
    var t := head + r.trace;
    if r.exited {
      EndsWithAppend(head, r.trace, [ReadError] + Releases(AllResources) + [ExitFailure]);
      ReleaseOrder();
    }
    forall j | 0 <= j < |t| && t[j] == ReadError ensures j == |t| - 4 {
      if j >= |head| {
        assert r.trace[j - |head|] == t[j];
      }
    }
  }

  /** The cleanup after a failed read. */
  lemma FailedReadEndsWithCleanup(pwm: byte)
    ensures EndsWithCleanup(Run([ReadError, Shutdown, Close, ExitFailure], pwm, true))
  {
    ReleaseOrder();
    var t := [ReadError, Shutdown, Close, ExitFailure];
    assert t[|t| - 4..] == t;
  }

  /** After a failed read only the releases, last acquired first, and the exit follow;
      no sample is taken and nothing is written after it. */
  lemma {:induction false} LoopEndsWithCleanup(cfg: Config, pwm: byte, readings: seq<Option<nat>>)
    ensures EndsWithCleanup(Loop(cfg, pwm, readings))
    decreases |readings|
  {
    if readings == [] {
    } else if readings[0].None? {
      LoopAt(cfg, pwm, readings, 0);
      assert readings[0..] == readings;
      FailedReadEndsWithCleanup(pwm);
    } else {
      var temp := readings[0].value;
      var next := NextPwm(cfg, temp, pwm);
      LoopAt(cfg, pwm, readings, 0);
      assert readings[0..] == readings;
      LoopEndsWithCleanup(cfg, next, readings[1..]);
      IterationReleasesNothing(cfg, pwm, temp);
      EndsWithCleanupThen([ReadTemp(temp)] + StepEvents(cfg, pwm, temp), Loop(cfg, next, readings[1..]));
    }
  }

  /** Once the command has settled for a temperature, further samples of the same
      temperature write nothing and leave the command as it is. */
  lemma {:induction false} SettledLoopIsQuiet(cfg: Config, temp: nat, pwm: byte, readings: seq<Option<nat>>)
    requires Decide(cfg, temp, pwm) == None
    requires forall k :: 0 <= k < |readings| ==> readings[k] == Some(temp)
    ensures Loop(cfg, pwm, readings).pwm == pwm
    ensures forall e :: e in Loop(cfg, pwm, readings).trace ==> !e.Write?
    decreases |readings|
  {
    if readings != [] {
      assert readings[0] == Some(temp);
      assert NextPwm(cfg, temp, pwm) == pwm;
      assert forall k :: 0 <= k < |readings[1..]| ==> readings[1..][k] == readings[k + 1];
      SettledLoopIsQuiet(cfg, temp, pwm, readings[1..]);
      assert Loop(cfg, pwm, readings).trace ==
             [ReadTemp(temp), Sleep(SleepSeconds(cfg.wait))] + Loop(cfg, pwm, readings[1..]).trace;
    }
  }

  /** Idempotence of the loop: at a constant temperature the device is written at most
      once, right after the first sample. */
  lemma ConstantTemperatureWritesAtMostOnce(cfg: Config, temp: nat, pwm: byte, readings: seq<Option<nat>>)
    requires forall k :: 0 <= k < |readings| ==> readings[k] == Some(temp)
    ensures var t := Loop(cfg, pwm, readings).trace;
      forall j :: 0 <= j < |t| && t[j].Write? ==> j == 1
  {
    if readings != [] {
      var next := NextPwm(cfg, temp, pwm);
      DecisionSettles(cfg, temp, pwm);
      assert forall k :: 0 <= k < |readings[1..]| ==> readings[1..][k] == readings[k + 1];
      SettledLoopIsQuiet(cfg, temp, next, readings[1..]);
      var head := [ReadTemp(temp)] + StepEvents(cfg, pwm, temp);
      var rest := Loop(cfg, next, readings[1..]).trace;
      var t := Loop(cfg, pwm, readings).trace;
      assert readings[0] == Some(temp);
      assert t == head + rest;
      forall j | 0 <= j < |t| && t[j].Write? ensures j == 1 {
        if j < |head| && Decide(cfg, temp, pwm).Some? {
          assert head == [ReadTemp(temp), Write(Decide(cfg, temp, pwm).value), Fsync, Sleep(SleepSeconds(cfg.wait))];
        }
      }
    }
  }

  /** target 35, gain 25, first sample 39 from the initial command 64: the loop writes
      196, flushes it and sleeps ten seconds. */
  lemma FirstIterationExample()
    ensures Loop(Defaults, InitialPwm, [Some(39)]) ==
            Run([ReadTemp(39), Write(196), Fsync, Sleep(10)], 196, false)
  {
    var cfg := Defaults;
    var readings: seq<Option<nat>> := [Some(39)];
    WriteExample();
    assert StepEvents(cfg, InitialPwm, 39) == [Write(196), Fsync, Sleep(10)];
    assert NextPwm(cfg, 39, InitialPwm) == 196;
    assert readings[1..] == [];
    assert Loop(cfg, 196, []) == Run([], 196, false);
    assert [ReadTemp(39)] + [Write(196), Fsync, Sleep(10)] + [] == [ReadTemp(39), Write(196), Fsync, Sleep(10)];
  }
}

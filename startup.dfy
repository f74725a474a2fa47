/** Start-up of the daemon: acquire the control device and the GPU management library
    step by step; on the first failing step release exactly what has been acquired so
    far, last acquired first, and exit with failure. */
module Startup {
  import opened Trace

  /** The abstract outcome of each start-up call (true when it succeeds). */
  datatype Outcomes = Outcomes(open: bool, ioctl: bool, init: bool, handle: bool, info: bool)

  /** The start-up steps in program order. */
  const Steps: seq<Op> := [OpenPort, ClearDtr, NvmlInit, GetHandle, Identify]

  function Succeeds(s: Outcomes, op: Op): bool
  {
    match op
    case OpenPort => s.open
    case ClearDtr => s.ioctl
    case NvmlInit => s.init
    case GetHandle => s.handle
    case Identify => s.info
  }

  /** The resources a successful step acquires: a file descriptor, the library. */
  function Acquires(op: Op): seq<Resource>
  {
    match op
    case OpenPort => [ControlPort]
    case NvmlInit => [Nvml]
    case _ => []
  }

  /** The number of leading steps of `ops` that succeed. */
  function Progress(s: Outcomes, ops: seq<Op>): (n: nat)
    ensures n <= |ops|
    ensures forall i :: 0 <= i < n ==> Succeeds(s, ops[i])
    ensures n < |ops| ==> !Succeeds(s, ops[n])
  {
    if ops == [] || !Succeeds(s, ops[0]) then 0 else 1 + Progress(s, ops[1..])
  }

  /** The calls made: each step in turn, up to and including the first that fails. */
  function Attempts(s: Outcomes, ops: seq<Op>): seq<Event>
  {
    if ops == [] then []
    else [Call(ops[0], Succeeds(s, ops[0]))] + (if Succeeds(s, ops[0]) then Attempts(s, ops[1..]) else [])
  }

  /** The resources acquired by the leading successful steps of `ops`, in acquisition order. */
  function Acquired(s: Outcomes, ops: seq<Op>): seq<Resource>
  {
    if ops == [] || !Succeeds(s, ops[0]) then [] else Acquires(ops[0]) + Acquired(s, ops[1..])
  }

  predicate AllSucceed(s: Outcomes)
  {
    Progress(s, Steps) == |Steps|
  }

  /** What start-up holds when it stops. */
  function Held(s: Outcomes): seq<Resource>
  {
    Acquired(s, Steps)
  }

  /** The reference behaviour of start-up: it begins by opening the device and ends with
      the failure exit exactly when a step failed. */
  function StartupTrace(s: Outcomes): (t: seq<Event>)
    ensures |t| > 0 && t[0] == Call(OpenPort, s.open)
    ensures t[|t| - 1] == ExitFailure <==> !AllSucceed(s)
  {
    var calls := Attempts(s, Steps);
    AttemptsAreCalls(s, Steps);
    assert calls[0] == Call(OpenPort, s.open);
    assert calls[|calls| - 1] in calls;
    calls + (if AllSucceed(s) then [] else Releases(Held(s)) + [ExitFailure])
  }

  /** Start-up stops at its first failing step. */
  lemma ProgressCases(s: Outcomes)
    ensures Progress(s, Steps) ==
      if !s.open then 0 else if !s.ioctl then 1 else if !s.init then 2
      else if !s.handle then 3 else if !s.info then 4 else 5
  {
    assert Steps[0] == OpenPort && Steps[1] == ClearDtr && Steps[2] == NvmlInit;
    assert Steps[3] == GetHandle && Steps[4] == Identify;
  }

  /** The resources held for each possible first failure. */
  lemma HeldCases(s: Outcomes)
    ensures Held(s) == if !s.open then [] else if !s.ioctl || !s.init then [ControlPort] else AllResources
  {
    var s1, s2, s3 := Steps[1..], Steps[2..], Steps[3..];
    assert s1 == [ClearDtr, NvmlInit, GetHandle, Identify];
    assert s2 == [NvmlInit, GetHandle, Identify] == s1[1..];
    assert s3 == [GetHandle, Identify] == s2[1..];
    var s4 := Steps[4..];
    assert s4 == [Identify] == s3[1..];
    assert Acquired(s, s4) == [] by { assert s4[1..] == []; assert Acquires(Identify) == []; }
    assert Acquired(s, s3) == [] by { assert Acquires(GetHandle) == []; }
    assert Acquired(s, s2) == if s.init then [Nvml] else [];
    assert Acquired(s, s1) == if s.ioctl && s.init then [Nvml] else [];
    assert Acquired(s, Steps) == if s.open then [ControlPort] + Acquired(s, s1) else [];
  }

  /** The calls start-up makes, unfolded one step at a time. */
  lemma AttemptsUnfold(s: Outcomes)
    ensures Attempts(s, Steps) ==
      [Call(OpenPort, s.open)] + if !s.open then [] else
      [Call(ClearDtr, s.ioctl)] + if !s.ioctl then [] else
      [Call(NvmlInit, s.init)] + if !s.init then [] else
      [Call(GetHandle, s.handle)] + if !s.handle then [] else
      [Call(Identify, s.info)]
  {
    var s1, s2, s3, s4 := Steps[1..], Steps[2..], Steps[3..], Steps[4..];
    assert s1 == [ClearDtr, NvmlInit, GetHandle, Identify];
    assert s2 == [NvmlInit, GetHandle, Identify] == s1[1..];
    assert s3 == [GetHandle, Identify] == s2[1..];
    assert s4 == [Identify] == s3[1..];
    assert Attempts(s, s4) == [Call(Identify, s.info)] by { assert s4[1..] == []; }
    assert Attempts(s, s3) == [Call(GetHandle, s.handle)] + if s.handle then Attempts(s, s4) else [];
    assert Attempts(s, s2) == [Call(NvmlInit, s.init)] + if s.init then Attempts(s, s3) else [];
    assert Attempts(s, s1) == [Call(ClearDtr, s.ioctl)] + if s.ioctl then Attempts(s, s2) else [];
    assert Attempts(s, Steps) == [Call(OpenPort, s.open)] + if s.open then Attempts(s, s1) else [];
  }

  /** The calls start-up makes, for each possible first failure, in the order they are made. */
  lemma AttemptsCases(s: Outcomes)
    ensures !s.open ==> Attempts(s, Steps) == [Call(OpenPort, false)]
    ensures s.open && !s.ioctl ==> Attempts(s, Steps) == [Call(OpenPort, true)] + [Call(ClearDtr, false)]
    ensures s.open && s.ioctl && !s.init ==>
      Attempts(s, Steps) == [Call(OpenPort, true)] + [Call(ClearDtr, true)] + [Call(NvmlInit, false)]
    ensures s.open && s.ioctl && s.init && !s.handle ==>
      Attempts(s, Steps) == [Call(OpenPort, true)] + [Call(ClearDtr, true)] + [Call(NvmlInit, true)] +
                            [Call(GetHandle, false)]
    ensures s.open && s.ioctl && s.init && s.handle ==>
      Attempts(s, Steps) == [Call(OpenPort, true)] + [Call(ClearDtr, true)] + [Call(NvmlInit, true)] +
                            [Call(GetHandle, true)] + [Call(Identify, s.info)]
  {
    AttemptsUnfold(s);
    var c1, c2, c3 := [Call(OpenPort, s.open)], [Call(ClearDtr, s.ioctl)], [Call(NvmlInit, s.init)];
    var c4, c5 := [Call(GetHandle, s.handle)], [Call(Identify, s.info)];
    if s.open && s.ioctl {
      assert c1 + (c2 + []) == c1 + c2;
      assert c1 + (c2 + (c3 + [])) == c1 + c2 + c3;
      assert c1 + (c2 + (c3 + (c4 + []))) == c1 + c2 + c3 + c4;
      assert c1 + (c2 + (c3 + (c4 + c5))) == c1 + c2 + c3 + c4 + c5;
    } else if s.open {
      assert c1 + (c2 + []) == c1 + c2;
    }
  }

  /** A failed start-up is its calls followed by its cleanup. */
  lemma FailedStartup(s: Outcomes, calls: seq<Event>, held: seq<Resource>, cleanup: seq<Event>)
    requires Attempts(s, Steps) == calls && !AllSucceed(s)
    requires Held(s) == held && Releases(held) + [ExitFailure] == cleanup
    ensures StartupTrace(s) == calls + cleanup
  {
  }

  /** When the control device cannot be opened nothing else is attempted: no ioctl and
      no library call; the process exits at once. */
  lemma OpenFailureTrace(s: Outcomes)
    requires !s.open
    ensures !AllSucceed(s)
    ensures StartupTrace(s) == [Call(OpenPort, false)] + [ExitFailure]
  {
    AttemptsCases(s);
    ProgressCases(s);
    HeldCases(s);
    ReleaseOrder();
    FailedStartup(s, [Call(OpenPort, false)], [], [ExitFailure]);
  }

  /** A failed ioctl closes the device it opened. */
  lemma IoctlFailureTrace(s: Outcomes)
    requires s.open && !s.ioctl
    ensures !AllSucceed(s)
    ensures StartupTrace(s) == [Call(OpenPort, true)] + [Call(ClearDtr, false)] + [Close, ExitFailure]
  {
    var a := [Call(OpenPort, true)] + [Call(ClearDtr, false)];
    AttemptsCases(s);
    ProgressCases(s);
    HeldCases(s);
    ReleaseOrder();
    FailedStartup(s, a, [ControlPort], [Close, ExitFailure]);
  }

  /** A failed library initialisation closes the device but does not shut the library down. */
  lemma InitFailureTrace(s: Outcomes)
    requires s.open && s.ioctl && !s.init
    ensures !AllSucceed(s)
    ensures StartupTrace(s) == [Call(OpenPort, true)] + [Call(ClearDtr, true)] + [Call(NvmlInit, false)] + [Close, ExitFailure]
  {
    var a := [Call(OpenPort, true)] + [Call(ClearDtr, true)] + [Call(NvmlInit, false)];
    AttemptsCases(s);
    ProgressCases(s);
    HeldCases(s);
    ReleaseOrder();
    FailedStartup(s, a, [ControlPort], [Close, ExitFailure]);
  }

  /** A failure to resolve the device handle shuts the library down, then closes the device. */
  lemma HandleFailureTrace(s: Outcomes)
    requires s.open && s.ioctl && s.init && !s.handle
    ensures !AllSucceed(s)
    ensures StartupTrace(s) == [Call(OpenPort, true)] + [Call(ClearDtr, true)] + [Call(NvmlInit, true)] +
                                [Call(GetHandle, false)] + [Shutdown, Close, ExitFailure]
  {
    var a := [Call(OpenPort, true)] + [Call(ClearDtr, true)] + [Call(NvmlInit, true)] + [Call(GetHandle, false)];
    AttemptsCases(s);
    ProgressCases(s);
    HeldCases(s);
    ReleaseOrder();
    FailedStartup(s, a, AllResources, [Shutdown, Close, ExitFailure]);
  }

  /** So does a failure to identify the device. */
  lemma IdentifyFailureTrace(s: Outcomes)
    requires s.open && s.ioctl && s.init && s.handle && !s.info
    ensures !AllSucceed(s)
    ensures StartupTrace(s) == [Call(OpenPort, true)] + [Call(ClearDtr, true)] + [Call(NvmlInit, true)] +
                                [Call(GetHandle, true)] + [Call(Identify, false)] + [Shutdown, Close, ExitFailure]
  {
    var a := [Call(OpenPort, true)] + [Call(ClearDtr, true)] + [Call(NvmlInit, true)] + [Call(GetHandle, true)] +
             [Call(Identify, false)];
    AttemptsCases(s);
    ProgressCases(s);
    HeldCases(s);
    ReleaseOrder();
    FailedStartup(s, a, AllResources, [Shutdown, Close, ExitFailure]);
  }

  /** A successful start-up makes the five calls and holds both resources. */
  lemma SuccessTrace(s: Outcomes)
    requires s.open && s.ioctl && s.init && s.handle && s.info
    ensures AllSucceed(s) && Held(s) == AllResources
    ensures StartupTrace(s) == [Call(OpenPort, true)] + [Call(ClearDtr, true)] + [Call(NvmlInit, true)] +
                                [Call(GetHandle, true)] + [Call(Identify, true)]
  {
    var a := [Call(OpenPort, true)] + [Call(ClearDtr, true)] + [Call(NvmlInit, true)] + [Call(GetHandle, true)] +
             [Call(Identify, true)];
    AttemptsCases(s);
    ProgressCases(s);
    HeldCases(s);
    assert a + [] == a;
  }

  /** Start-up as the program performs it: each call, and on failure its own cleanup. */
  method Acquire(s: Outcomes) returns (trace: seq<Event>, ok: bool)
    ensures ok == AllSucceed(s)
    ensures trace == StartupTrace(s)
  {
    ok := false;
    trace := [Call(OpenPort, s.open)];
    if !s.open {
      OpenFailureTrace(s);
      trace := trace + [ExitFailure];
      return;
    }
    trace := trace + [Call(ClearDtr, s.ioctl)];
    if !s.ioctl {
      IoctlFailureTrace(s);
      trace := trace + [Close, ExitFailure];
      return;
    }
    trace := trace + [Call(NvmlInit, s.init)];
    if !s.init {
      InitFailureTrace(s);
      trace := trace + [Close, ExitFailure];
      return;
    }
    trace := trace + [Call(GetHandle, s.handle)];
    if !s.handle {
      HandleFailureTrace(s);
      trace := trace + [Shutdown, Close, ExitFailure];
      return;
    }
    trace := trace + [Call(Identify, s.info)];
    if !s.info {
      IdentifyFailureTrace(s);
      trace := trace + [Shutdown, Close, ExitFailure];
      return;
    }
    SuccessTrace(s);
    ok := true;
  }

  /** Start-up itself makes only start-up calls; releases come after them. */
  lemma {:induction false} AttemptsAreCalls(s: Outcomes, ops: seq<Op>)
    ensures forall e :: e in Attempts(s, ops) ==> e.Call?
  {
    if ops != [] && Succeeds(s, ops[0]) {
      AttemptsAreCalls(s, ops[1..]);
    }
  }

  /** How many of each resource start-up holds when it stops. */
  lemma HeldCounts(s: Outcomes)
    ensures multiset(Held(s))[ControlPort] == if s.open then 1 else 0
    ensures multiset(Held(s))[Nvml] == if s.open && s.ioctl && s.init then 1 else 0
  {
    HeldCases(s);
  }

  /** A run of start-up calls releases nothing and does not exit. */
  lemma CallsReleaseNothing(calls: seq<Event>)
    requires forall e :: e in calls ==> e.Call?
    ensures multiset(calls)[Close] == 0 && multiset(calls)[Shutdown] == 0
    ensures ExitFailure !in calls
  {
    assert Close !in calls && Shutdown !in calls;
  }

  /** Calls followed by the cleanup of `held` release each held resource once and exit. */
  lemma CleanupCounts(calls: seq<Event>, held: seq<Resource>)
    requires forall e :: e in calls ==> e.Call?
    ensures multiset(calls + (Releases(held) + [ExitFailure]))[Close] == multiset(held)[ControlPort]
    ensures multiset(calls + (Releases(held) + [ExitFailure]))[Shutdown] == multiset(held)[Nvml]
    ensures ExitFailure in calls + (Releases(held) + [ExitFailure])
  {
    var c := Releases(held) + [ExitFailure];
    CallsReleaseNothing(calls);
    ReleasesCount(held);
    assert multiset(c)[Close] == multiset(Releases(held))[Close];
    assert multiset(c)[Shutdown] == multiset(Releases(held))[Shutdown];
    assert multiset(calls + c)[Close] == multiset(calls)[Close] + multiset(c)[Close];
    assert multiset(calls + c)[Shutdown] == multiset(calls)[Shutdown] + multiset(c)[Shutdown];
    assert (calls + c)[|calls + c| - 1] == ExitFailure;
  }

  /** A failed start-up closes the control device exactly when it was opened, and shuts
      the library down exactly when it was initialised; a successful one releases nothing. */
  lemma StartupReleasesWhatItAcquired(s: Outcomes)
    ensures multiset(StartupTrace(s))[Close] == if s.open && !AllSucceed(s) then 1 else 0
    ensures multiset(StartupTrace(s))[Shutdown] == if s.open && s.ioctl && s.init && !AllSucceed(s) then 1 else 0
    ensures ExitFailure in StartupTrace(s) <==> !AllSucceed(s)
  {
    var a := Attempts(s, Steps);
    AttemptsAreCalls(s, Steps);
    if AllSucceed(s) {
      CallsReleaseNothing(a);
      assert StartupTrace(s) == a + [];
      assert a + [] == a;
    } else {
      CleanupCounts(a, Held(s));
      HeldCounts(s);
    }
  }

  /** Start-up emits only its own calls, the releases and the exit: it never samples,
      never writes the control device and never sleeps. */
  lemma StartupEventsAreStartup(s: Outcomes)
    ensures forall e :: e in StartupTrace(s) ==> e.Call? || e == Close || e == Shutdown || e == ExitFailure
  {
    AttemptsAreCalls(s, Steps);
    ReleasesOnly(Held(s));
  }
}

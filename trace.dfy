/** The observable behaviour of the daemon: the sequence of calls it makes to the
    operating system and to the GPU management library. */
module Trace {
  import opened ControlLaw

  /** The acquisition steps of start-up, in the order the program attempts them:
      open the control device, clear its DTR line, initialise the management library,
      resolve the device handle, print the device identification. */
  datatype Op = OpenPort | ClearDtr | NvmlInit | GetHandle | Identify

  /** What start-up acquires and must release on a fatal path. */
  datatype Resource = ControlPort | Nvml

  datatype Event =
    | Call(op: Op, ok: bool)   // a start-up step and whether it succeeded
    | ReadTemp(temp: nat)      // a successful temperature query
    | ReadError                // a failed temperature query
    | Write(b: byte)           // one byte written to the control device
    | Fsync                    // the control device flushed
    | Sleep(seconds: nat)      // the end-of-iteration sleep
    | Shutdown                 // the management library shut down
    | Close                    // the control device closed
    | ExitFailure              // the process exits with EXIT_FAILURE

  /** Everything start-up holds once it has succeeded, in acquisition order. */
  const AllResources: seq<Resource> := [ControlPort, Nvml]

  function Release(r: Resource): Event
  {
    match r
    case ControlPort => Close
    case Nvml => Shutdown
  }

  /** The release calls for the held resources, last acquired first. */
  function Releases(held: seq<Resource>): (t: seq<Event>)
    ensures |t| == |held|
  {
    if held == [] then [] else Releases(held[1..]) + [Release(held[0])]
  }

  /** Each held resource is released exactly once, and releasing never exits. */
  lemma {:induction false} ReleasesCount(held: seq<Resource>)
    ensures multiset(Releases(held))[Close] == multiset(held)[ControlPort]
    ensures multiset(Releases(held))[Shutdown] == multiset(held)[Nvml]
    ensures ExitFailure !in Releases(held)
  {
    if held != [] {
      var first, rest := held[0], held[1..];
      ReleasesCount(rest);
      assert held == [first] + rest;
      assert Releases(held) == Releases(rest) + [Release(first)];
      assert multiset(held)[ControlPort] == multiset(rest)[ControlPort] + (if first == ControlPort then 1 else 0);
      assert multiset(held)[Nvml] == multiset(rest)[Nvml] + (if first == Nvml then 1 else 0);
      assert multiset(Releases(held))[Close] ==
             multiset(Releases(rest))[Close] + (if Release(first) == Close then 1 else 0);
      assert multiset(Releases(held))[Shutdown] ==
             multiset(Releases(rest))[Shutdown] + (if Release(first) == Shutdown then 1 else 0);
    }
  }

  /** `t` ends with `suffix`. */
  predicate EndsWith(t: seq<Event>, suffix: seq<Event>)
  {
    |t| >= |suffix| && t[|t| - |suffix|..] == suffix
  }

  /** Events put in front keep the ending. */
  lemma EndsWithAppend(head: seq<Event>, t: seq<Event>, suffix: seq<Event>)
    requires EndsWith(t, suffix)
    ensures EndsWith(head + t, suffix)
  {
    assert (head + t)[|head + t| - |suffix|..] == t[|t| - |suffix|..];
  }

  /** An ending minus its first event is still an ending. */
  lemma EndsWithTail(t: seq<Event>, e: Event, suffix: seq<Event>)
    requires EndsWith(t, [e] + suffix)
    ensures EndsWith(t, suffix)
  {
    assert t[|t| - |suffix|..] == t[|t| - |[e] + suffix|..][1..];
  }

  /** The same, for an ending given as the first event, a middle part and a last part. */
  lemma EndsWithTailOf(t: seq<Event>, e: Event, middle: seq<Event>, last: seq<Event>)
    requires EndsWith(t, [e] + middle + last)
    ensures EndsWith(t, middle + last)
  {
    assert [e] + middle + last == [e] + (middle + last);
    EndsWithTail(t, e, middle + last);
  }

  /** Releasing emits only the release calls. */
  lemma {:induction false} ReleasesOnly(held: seq<Resource>)
    ensures forall e :: e in Releases(held) ==> e == Close || e == Shutdown
  {
    if held != [] {
      ReleasesOnly(held[1..]);
    }
  }

  /** The cleanup for each set of resources start-up can hold: nothing, the control device
      alone, or the library and the device, library first. */
  lemma ReleaseOrder()
    ensures Releases([]) + [ExitFailure] == [ExitFailure]
    ensures Releases([ControlPort]) + [ExitFailure] == [Close, ExitFailure]
    ensures Releases(AllResources) + [ExitFailure] == [Shutdown, Close, ExitFailure]
  {
    assert Releases([ControlPort]) == [Close];
    assert AllResources[1..] == [Nvml];
    assert Releases(AllResources) == [Shutdown, Close];
  }
}

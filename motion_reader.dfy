/**
 * The background reader (`SpaceMouseThread` in spacemouse_plugin.py).
 *
 * `Run` enumerates the HID devices, picks the SpaceMouse, opens it and polls
 * it until the running flag is cleared; every report with visible movement
 * is delivered on the movement channel. What the host hands the thread (the
 * enumeration, and how the opened device behaves) is a `HidEnvironment`
 * value; the controller's `stop`, which clears the flag from another thread,
 * is a number of polls after which the flag is observed cleared. The two Qt
 * signals are one ordered log of `Signal` values.
 */
module MotionReader {
  import opened Wrappers
  import opened ReportParser
  import opened DeviceLocator

  /** Outcome of one `read(64)` on the non-blocking device. */
  datatype ReadResult = Data(bytes: seq<byte>) | Empty | Fail(reason: string)

  /** What the thread delivers: `movement_signal(x, y, z)` or `error_signal(message)`. */
  datatype Signal = Movement(v: MotionVector) | Error(message: string)

  /** Result of `hid.enumerate()`. */
  datatype Enumeration = Devices(list: seq<Descriptor>) | EnumerateFailed(reason: string)

  /**
   * How the device object behaves once created: whether `open` (with
   * `set_nonblocking`) raises, what successive reads return (reads past the
   * end return nothing) and whether `close` raises.
   */
  datatype DeviceScript = DeviceScript(openError: Option<string>, results: seq<ReadResult>, closeFails: bool)

  datatype HidEnvironment = HidEnvironment(enumeration: Enumeration, device: DeviceScript)

  const NotFoundMessage: string := "No SpaceMouse device found. Make sure it's plugged in."

  /** Movement below this magnitude on every axis is not delivered. */
  const Epsilon: real := 0.001

  /** The message of an exception caught outside the read loop. */
  function ErrorMessage(reason: string): (m: string)
    ensures |m| == 18 + |reason|
    ensures m[..18] == "SpaceMouse error: " && m[18..] == reason
  {
    "SpaceMouse error: " + reason
  }

  /** Some axis has magnitude above the threshold. */
  predicate Significant(v: MotionVector)
  {
    Abs(v.x) > Epsilon || Abs(v.y) > Epsilon || Abs(v.z) > Epsilon
  }

  /** The n-th read of a device script; reads past its end return nothing. */
  function ReadAt(results: seq<ReadResult>, n: nat): ReadResult
  {
    if n < |results| then results[n] else Empty
  }

  /** The results of the first n polls. */
  function Polled(results: seq<ReadResult>, n: nat): (p: seq<ReadResult>)
    ensures |p| == n
    ensures forall k :: 0 <= k < n ==> p[k] == ReadAt(results, k)
  {
    seq(n, k requires 0 <= k < n => ReadAt(results, k))
  }

  predicate NoFail(polls: seq<ReadResult>)
  {
    forall k :: 0 <= k < |polls| ==> !polls[k].Fail?
  }

  /** What one non-empty report contributes to the movement channel. */
  function ReportSignals(bytes: seq<byte>): seq<Signal>
  {
    if |bytes| > 0 && Significant(Parse(bytes)) then [Movement(Parse(bytes))] else []
  }

  /**
   * The signals the read loop delivers for these poll results: reports in
   * order, up to the first failed read.
   */
  function Emitted(polls: seq<ReadResult>): (s: seq<Signal>)
    ensures forall k :: 0 <= k < |s| ==> s[k].Movement? && Significant(s[k].v)
    decreases |polls|
  {
    if polls == [] then []
    else match polls[0]
      case Fail(_) => []
      case Empty => Emitted(polls[1..])
      case Data(bytes) => ReportSignals(bytes) + Emitted(polls[1..])
  }

  /** How many reads the loop performs on these poll results. */
  function Processed(polls: seq<ReadResult>): (n: nat)
    ensures n <= |polls|
    decreases |polls|
  {
    if polls == [] then 0
    else if polls[0].Fail? then 1
    else 1 + Processed(polls[1..])
  }

  /** The descriptor `run` opens, if it gets that far. */
  function Target(env: HidEnvironment): Option<Descriptor>
  {
    match env.enumeration
    case EnumerateFailed(_) => None
    case Devices(list) => Locate(list)
  }

  /** The device opened without error, so the read loop runs. */
  predicate ReachesReadLoop(env: HidEnvironment)
  {
    Target(env).Some? && env.device.openError.None?
  }

  /** Everything one execution of `run` delivers, in order. */
  function RunSignals(env: HidEnvironment, stopAfter: nat): seq<Signal>
  {
    match env.enumeration
    case EnumerateFailed(reason) => [Error(ErrorMessage(reason))]
    case Devices(list) =>
      match Locate(list)
      case None => [Error(NotFoundMessage)]
      case Some(_) =>
        match env.device.openError
        case Some(reason) => [Error(ErrorMessage(reason))]
        case None => Emitted(Polled(env.device.results, stopAfter))
  }

  // ---------------------------------------------------------------------
  // Properties of the read loop and of one run

  /** Empty reads and skipped reports leave no trace; reports keep their order. */
  lemma {:induction false} EmittedAppend(a: seq<ReadResult>, b: seq<ReadResult>)
    requires NoFail(a)
    ensures Emitted(a + b) == Emitted(a) + Emitted(b)
    decreases |a|
  {
    if a == [] {
      assert a + b == b;
    } else {
      assert (a + b)[0] == a[0];
      assert (a + b)[1..] == a[1..] + b;
      EmittedAppend(a[1..], b);
    }
  }

  /** The reads counted before a failure are all performed, and nothing after it. */
  lemma {:induction false} ProcessedAppend(a: seq<ReadResult>, b: seq<ReadResult>)
    requires NoFail(a)
    ensures Processed(a + b) == |a| + Processed(b)
    decreases |a|
  {
    if a == [] {
      assert a + b == b;
    } else {
      assert (a + b)[0] == a[0];
      assert (a + b)[1..] == a[1..] + b;
      ProcessedAppend(a[1..], b);
    }
  }

  /** A failed read ends the loop: later reads are neither performed nor delivered. */
  lemma FailureEndsLoop(a: seq<ReadResult>, reason: string, b: seq<ReadResult>)
    requires NoFail(a)
    ensures Emitted(a + [Fail(reason)] + b) == Emitted(a)
    ensures Processed(a + [Fail(reason)] + b) == |a| + 1
  {
    assert a + [Fail(reason)] + b == a + ([Fail(reason)] + b);
    EmittedAppend(a, [Fail(reason)] + b);
    ProcessedAppend(a, [Fail(reason)] + b);
  }

  /**
   * `s` is the movement decoded from the non-empty report at poll `j`, which
   * comes before any failed read.
   */
  predicate ReportAt(polls: seq<ReadResult>, j: int, s: Signal)
  {
    0 <= j < |polls| && polls[j].Data? && |polls[j].bytes| > 0
    && NoFail(polls[..j]) && s == Movement(Parse(polls[j].bytes))
  }

  /** A report found after a first poll that did not fail is found one further along. */
  lemma ReportAtShift(polls: seq<ReadResult>, j: int, s: Signal)
    requires polls != [] && !polls[0].Fail? && ReportAt(polls[1..], j, s)
    ensures ReportAt(polls, j + 1, s)
  {
    assert polls[..j + 1] == [polls[0]] + polls[1..][..j];
    assert polls[j + 1] == polls[1..][j];
  }

  /** Every delivered vector is the decoding of a non-empty report read before any failure. */
  lemma {:induction false} EmittedComeFromReports(polls: seq<ReadResult>, k: nat)
    requires k < |Emitted(polls)|
    ensures exists j :: ReportAt(polls, j, Emitted(polls)[k])
    decreases |polls|
  {
    assert polls != [];
    match polls[0]
    case Fail(_) =>
    case Empty =>
      EmittedComeFromReports(polls[1..], k);
      var j :| ReportAt(polls[1..], j, Emitted(polls[1..])[k]);
      ReportAtShift(polls, j, Emitted(polls)[k]);
    case Data(bytes) =>
      var head := ReportSignals(bytes);
      if k < |head| {
        assert polls[..0] == [];
        assert ReportAt(polls, 0, Emitted(polls)[k]);
      } else {
        EmittedComeFromReports(polls[1..], k - |head|);
        var j :| ReportAt(polls[1..], j, Emitted(polls[1..])[k - |head|]);
        ReportAtShift(polls, j, Emitted(polls)[k]);
      }
  }

  /**
   * Conversely, a non-empty report with visible movement read before any
   * failure is delivered, in its place among the other reports.
   */
  lemma ReportIsDelivered(a: seq<ReadResult>, bytes: seq<byte>, c: seq<ReadResult>)
    requires NoFail(a)
    ensures Emitted(a + [Data(bytes)] + c) == Emitted(a) + ReportSignals(bytes) + Emitted(c)
    ensures |bytes| > 0 && Significant(Parse(bytes)) ==>
      Emitted(a + [Data(bytes)] + c)[|Emitted(a)|] == Movement(Parse(bytes))
  {
    assert a + [Data(bytes)] + c == a + ([Data(bytes)] + c);
    EmittedAppend(a, [Data(bytes)] + c);
    assert ([Data(bytes)] + c)[1..] == c;
  }

  /** One more poll that did not fail extends what the loop has delivered by its report. */
  lemma PollStep(polls: seq<ReadResult>, i: nat)
    requires i < |polls| && NoFail(polls[..i]) && !polls[i].Fail?
    ensures NoFail(polls[..i + 1])
    ensures Emitted(polls[..i + 1])
      == Emitted(polls[..i]) + (if polls[i].Data? then ReportSignals(polls[i].bytes) else [])
  {
    assert polls[..i + 1] == polls[..i] + [polls[i]];
    EmittedAppend(polls[..i], [polls[i]]);
  }

  /** A failed poll after `i` good ones ends the loop after `i + 1` reads. */
  lemma PollFails(polls: seq<ReadResult>, i: nat)
    requires i < |polls| && NoFail(polls[..i]) && polls[i].Fail?
    ensures Emitted(polls) == Emitted(polls[..i]) && Processed(polls) == i + 1
    ensures !NoFail(polls)
  {
    var rest := polls[i..];
    assert rest[0] == polls[i];
    assert polls == polls[..i] + rest;
    EmittedAppend(polls[..i], rest);
    ProcessedAppend(polls[..i], rest);
  }

  /** Without a failed poll every poll is a read. */
  lemma PollsDone(polls: seq<ReadResult>)
    requires NoFail(polls)
    ensures Processed(polls) == |polls|
  {
    ProcessedAppend(polls, []);
    assert polls + [] == polls;
  }

  /** The threshold test only drops reports that decode to exactly zero. */
  lemma SignificantIffNonzero(bytes: seq<byte>)
    ensures Significant(Parse(bytes)) <==> Parse(bytes) != Zero
  {
    if |bytes| >= MinReportLength && bytes[0] == TranslationReport {
      AxisMagnitude(bytes[1], bytes[2]);
      AxisMagnitude(bytes[3], bytes[4]);
      AxisMagnitude(bytes[5], bytes[6]);
      assert 1.0 / Scale > Epsilon;
    }
  }

  /**
   * A run delivers either one error and nothing else (enumeration failed, no
   * device matched, or open failed) or only movements (a failed read is not
   * reported).
   */
  lemma RunErrorsAreSingle(env: HidEnvironment, stopAfter: nat)
    ensures !ReachesReadLoop(env) ==> |RunSignals(env, stopAfter)| == 1 && RunSignals(env, stopAfter)[0].Error?
    ensures ReachesReadLoop(env) ==>
      forall k :: 0 <= k < |RunSignals(env, stopAfter)| ==> RunSignals(env, stopAfter)[k].Movement?
  {
  }

  /** With no matching device the one signal is the not-found message. */
  lemma NotFoundSignal(list: seq<Descriptor>, script: DeviceScript, stopAfter: nat)
    requires forall j :: 0 <= j < |list| ==> !IsSpaceMouse(list[j])
    ensures RunSignals(HidEnvironment(Devices(list), script), stopAfter) == [Error(NotFoundMessage)]
  {
    LocateIsFirstMatch(list);
  }

  // ---------------------------------------------------------------------
  // The device and the thread

  /** A HID device object created by `hid.device()`. */
  class HidDevice {
    const script: DeviceScript
    var openedWith: Option<(int, int)>
    var isOpen: bool
    var readCalls: nat
    var closeCalls: nat

    constructor (script: DeviceScript)
      ensures this.script == script && openedWith == None && !isOpen
      ensures readCalls == 0 && closeCalls == 0
    {
      this.script := script;
      openedWith := None;
      isOpen := false;
      readCalls := 0;
      closeCalls := 0;
    }

    /** `open(vendor_id, product_id)` followed by `set_nonblocking(1)`. */
    method Open(vendorId: int, productId: int) returns (error: Option<string>)
      modifies this
      ensures error == script.openError
      ensures openedWith == Some((vendorId, productId)) && isOpen == error.None?
      ensures readCalls == old(readCalls) && closeCalls == old(closeCalls)
    {
      openedWith := Some((vendorId, productId));
      error := script.openError;
      isOpen := error.None?;
    }

    /** `read(64)`: the next scripted result. */
    method Read() returns (r: ReadResult)
      modifies this
      ensures r == ReadAt(script.results, old(readCalls))
      ensures readCalls == old(readCalls) + 1
      ensures openedWith == old(openedWith) && isOpen == old(isOpen) && closeCalls == old(closeCalls)
    {
      r := ReadAt(script.results, readCalls);
      readCalls := readCalls + 1;
    }

    /** `close()`; `failed` says it raised, in which case the handle's state is unknown and kept. */
    method Close() returns (failed: bool)
      modifies this
      ensures failed == script.closeFails
      ensures closeCalls == old(closeCalls) + 1
      ensures isOpen == (old(isOpen) && failed)
      ensures openedWith == old(openedWith) && readCalls == old(readCalls)
    {
      failed := script.closeFails;
      closeCalls := closeCalls + 1;
      if !failed {
        isOpen := false;
      }
    }
  }

  class SpaceMouseThread {
    /** The polling flag, cleared by `stop`. */
    var running: bool
    /** `self.device`: the device object once created. */
    var device: HidDevice?
    /** Everything delivered on the movement and error channels, in order. */
    var signals: seq<Signal>
    /** The thread has been started / its run has returned (`isRunning` is between). */
    var started: bool
    var finished: bool

    constructor ()
      ensures !running && device == null && signals == [] && !started && !finished
    {
      running := false;
      device := null;
      signals := [];
      started := false;
      finished := false;
    }

    predicate IsRunning()
      reads this
    {
      started && !finished
    }

    /** `start()`: the thread begins executing `Run`. */
    method Start()
      modifies this
      ensures started && finished == old(finished)
      ensures running == old(running) && device == old(device) && signals == old(signals)
    {
      started := true;
    }

    /**
     * `stop()`: clear the flag, then wait until `Run` has returned, so no
     * signal follows.
     */
    method Stop()
      modifies this
      ensures !running && (old(started) ==> finished) && finished == (old(finished) || old(started))
      ensures started == old(started) && device == old(device) && signals == old(signals)
    {
      running := false;
      if started {
        finished := true;
      }
    }

    /**
     * The thread body. `env` is what the HID library and the device do;
     * after `stopAfter` polls the controller's `stop` has cleared the flag.
     */
    method Run(env: HidEnvironment, stopAfter: nat)
      requires started && !finished && device == null
      modifies this
      ensures signals == old(signals) + RunSignals(env, stopAfter)
      ensures (device != null) <==> Target(env).Some?
      ensures device != null ==>
        && fresh(device)
        && device.script == env.device
        && device.openedWith == Some((Target(env).value.vendorId, Target(env).value.productId))
        && device.closeCalls == 1
        && device.isOpen == (ReachesReadLoop(env) && env.device.closeFails)
        && device.readCalls == (if ReachesReadLoop(env) then Processed(Polled(env.device.results, stopAfter)) else 0)
      ensures running == !(ReachesReadLoop(env) && NoFail(Polled(env.device.results, stopAfter)))
      ensures finished && started == old(started)
    {
      running := true;
      match env.enumeration {
        case EnumerateFailed(reason) =>
          signals := signals + [Error(ErrorMessage(reason))];
        case Devices(list) =>
          var found := FindDevice(list);
          if found.None? {
            signals := signals + [Error(NotFoundMessage)];
          } else {
            var info := found.value;
            var dev := new HidDevice(env.device);
            device := dev;
            var openError := dev.Open(info.vendorId, info.productId);
            if openError.Some? {
              signals := signals + [Error(ErrorMessage(openError.value))];
            } else {
              ReadLoop(dev, stopAfter);
            }
            // finally: close the device, swallowing a failure.
            var closeFailed := dev.Close();
          }
      }
      finished := true;
    }

    /** The `while self.running` loop over the opened device. */
    method ReadLoop(dev: HidDevice, stopAfter: nat)
      requires dev.isOpen && dev.readCalls == 0
      modifies this, dev
      ensures signals == old(signals) + Emitted(Polled(dev.script.results, stopAfter))
      ensures dev.readCalls == Processed(Polled(dev.script.results, stopAfter))
      ensures running == !NoFail(Polled(dev.script.results, stopAfter))
      ensures dev.isOpen && dev.closeCalls == old(dev.closeCalls) && dev.openedWith == old(dev.openedWith)
      ensures device == old(device) && started == old(started) && finished == old(finished)
    {
      ghost var polls := Polled(dev.script.results, stopAfter);
      var i := 0;
      running := i < stopAfter;
      var broke := false;
      while running
        invariant 0 <= i <= stopAfter && running == (i < stopAfter) && !broke
        invariant device == old(device) && started == old(started) && finished == old(finished)
        invariant dev.readCalls == i && dev.isOpen
        invariant dev.closeCalls == old(dev.closeCalls) && dev.openedWith == old(dev.openedWith)
        invariant NoFail(polls[..i])
        invariant signals == old(signals) + Emitted(polls[..i])
        decreases stopAfter - i
      {
        var r := dev.Read();
        if r.Fail? {
          broke := true;
          PollFails(polls, i);
          break;
        }
        PollStep(polls, i);
        if r.Data? && |r.bytes| > 0 {
          var v := Parse(r.bytes);
          if Abs(v.x) > Epsilon || Abs(v.y) > Epsilon || Abs(v.z) > Epsilon {
            signals := signals + [Movement(v)];
          }
        }
        i := i + 1;
        // The controller's stop() becomes visible to the thread here.
        running := i < stopAfter;
      }
      if !broke {
        assert polls[..i] == polls;
        PollsDone(polls);
      }
    }
  }
}

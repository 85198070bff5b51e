/** Replaying a recorded sequence (OperationReplayer and the execute method of
    each operation kind in recorder.py). Each operation calls the one driver
    method it names with its stored fields; a pause sleeps and leaves the
    driver alone. The effect of a replay on everything it can change (the
    frames sent, the log of a recorder attached to the driver, the clock) is
    given by the pure fold Replayed, and Replay is proved against it. */
module Replayer {
  import opened Wrappers
  import opened Protocol
  import opened Models
  import opened Recorder
  import opened Driver

  /** What executing operations can change: the frames the adapter has sent,
      the state of the recorder attached to the driver (None when there is
      none) and the clock. */
  datatype World = World(sent: seq<Packet>, log: Option<RecorderState>, now: int)

  /** The frames one operation sends on a driver with the given screen size. */
  function ExecutedFrames(op: Operation, width: int, height: int): (frames: seq<Packet>)
    ensures |frames| == (if op.Delay? || Fails(op, width, height) then 0 else 1)
  {
    match op
    case KeyDown(key, shift, ctrl, alt, windows) => [KeyDownFrame(key, shift, ctrl, alt, windows)]
    case KeyUp => [BuildKeyboardRelease()]
    case MouseButtonDown(button) => [StillMouseFrame(ButtonBit(button), 0)]
    case MouseButtonUp => [StillMouseFrame(0, 0)]
    case MediaKeyDown(key) => [MediaKeyFrame(key)]
    case MediaKeyUp => [BuildMediaRelease()]
    case MouseMoveAbsolute(x, y) =>
      var frame := MoveAbsoluteFrame(x, y, width, height);
      if frame.Ok? then [frame.value] else []
    case MouseMoveRelative(x, y) => [BuildMouseRel(0x00, x, y, 0).value]
    case MouseScroll(amount) => [StillMouseFrame(0, amount)]
    case Delay(_) => []
  }

  /** The operations whose execute raises: a pause of negative length, and
      an absolute move on a driver whose screen has a zero side. */
  predicate Fails(op: Operation, width: int, height: int)
  {
    (op.Delay? && op.ticks < 0) || (op.MouseMoveAbsolute? && (width == 0 || height == 0))
  }

  /** The recorder's log after the driver records op at time now. */
  function Logged(log: Option<RecorderState>, op: Operation, now: int): Option<RecorderState>
  {
    if log.Some? then Some(Recorded(log.value, op, now)) else None
  }

  /** execute(driver) of one operation that sends frame when it does not
      raise, as a function of the world before. */
  function Step(world: World, op: Operation, frame: seq<Packet>, width: int, height: int): (result: (World, Outcome))
    ensures result.1.Fail? <==> Fails(op, width, height)
    ensures result.1.Fail? ==> result.0 == world
    ensures result.0.now != world.now ==> op.Delay?
    ensures result.0.sent != world.sent ==> !op.Delay? && result.0.sent == world.sent + frame
  {
    if Fails(op, width, height) then
      (world, Fail(if op.Delay? then NegativeSleep(op.ticks) else ZeroDivision))
    else if op.Delay? then
      (world.(now := world.now + op.ticks), Pass)
    else
      (world.(sent := world.sent + frame, log := Logged(world.log, op, world.now)), Pass)
  }

  /** replay(operations, driver), where frames[k] is what operation k sends:
      each operation executed once, in list order; the first exception ends
      the replay and propagates. */
  function Replayed(world: World, operations: seq<Operation>, frames: seq<seq<Packet>>, width: int, height: int)
    : (result: (World, Outcome))
    requires |frames| == |operations|
    ensures world.sent <= result.0.sent
    ensures world.now <= result.0.now
    decreases |operations|
  {
    if |operations| == 0 then (world, Pass)
    else
      var (next, outcome) := Step(world, operations[0], frames[0], width, height);
      if outcome.Fail? then (next, outcome) else Replayed(next, operations[1..], frames[1..], width, height)
  }

  /** What each of the operations sends on a driver with the given screen size. */
  function FramesOf(operations: seq<Operation>, width: int, height: int): (frames: seq<seq<Packet>>)
    ensures |frames| == |operations|
  {
    seq(|operations|, k requires 0 <= k < |operations| => ExecutedFrames(operations[k], width, height))
  }

  /** The frames, one list after the other. */
  function Flatten(frames: seq<seq<Packet>>): seq<Packet>
  {
    if |frames| == 0 then [] else frames[0] + Flatten(frames[1..])
  }

  /** The total length of the pauses among the operations. */
  function TotalDelay(operations: seq<Operation>): int
  {
    if |operations| == 0 then 0
    else (if operations[0].Delay? then operations[0].ticks else 0) + TotalDelay(operations[1..])
  }

  /** The world a driver and a clock are in. */
  function WorldOf(driver: CH9329Driver, clock: Clock): World
    reads driver.adapter, driver.recorder, clock
  {
    World(driver.adapter.sent, if driver.recorder == null then None else Some(driver.recorder.State()), clock.now)
  }

  // ---------------------------------------------------------------------
  // Properties of a replay
  // ---------------------------------------------------------------------

  /** A pause never touches the driver: no frame, no record, only the clock
      moves, by exactly the pause when it can be slept. */
  lemma DelayLeavesDriverAlone(world: World, ticks: int, width: int, height: int)
    ensures var (after, outcome) := Step(world, Delay(ticks), ExecutedFrames(Delay(ticks), width, height), width, height);
      after.sent == world.sent && after.log == world.log
      && (ticks >= 0 <==> outcome == Pass)
      && (ticks >= 0 ==> after.now == world.now + ticks)
      && (ticks < 0 ==> after == world && outcome == Fail(NegativeSleep(ticks)))
  {
  }

  /** Any other operation sends its one frame and is recorded at the current
      time, unless it raises, in which case nothing happens at all. */
  lemma OperationSendsItsFrame(world: World, op: Operation, width: int, height: int)
    requires !op.Delay?
    ensures var frames := ExecutedFrames(op, width, height);
      !Fails(op, width, height) ==>
        |frames| == 1 && Step(world, op, frames, width, height) == (World(world.sent + frames, Logged(world.log, op, world.now), world.now), Pass)
    ensures Fails(op, width, height) ==>
      Step(world, op, ExecutedFrames(op, width, height), width, height) == (world, Fail(ZeroDivision))
  {
  }

  /** A replay succeeds exactly when no operation in the list raises. */
  lemma {:induction false} ReplayPassesIffNoneFails(world: World, operations: seq<Operation>, frames: seq<seq<Packet>>, width: int, height: int)
    requires |frames| == |operations|
    ensures Replayed(world, operations, frames, width, height).1 == Pass <==>
      forall k :: 0 <= k < |operations| ==> !Fails(operations[k], width, height)
    decreases |operations|
  {
    if |operations| > 0 {
      var next := Step(world, operations[0], frames[0], width, height).0;
      ReplayPassesIffNoneFails(next, operations[1..], frames[1..], width, height);
      assert forall k :: 1 <= k < |operations| ==> operations[k] == operations[1..][k - 1];
    }
  }

  /** A replay in which nothing raises executes every operation once, in
      order: it sends exactly the operations' frames and advances the clock
      by the sum of the pauses. */
  lemma {:induction false} ReplaySendsEveryFrame(world: World, operations: seq<Operation>, frames: seq<seq<Packet>>, width: int, height: int)
    requires |frames| == |operations|
    requires forall k :: 0 <= k < |operations| ==> !Fails(operations[k], width, height)
    requires forall k :: 0 <= k < |operations| && operations[k].Delay? ==> frames[k] == []
    ensures Replayed(world, operations, frames, width, height).1 == Pass
    ensures Replayed(world, operations, frames, width, height).0.sent == world.sent + Flatten(frames)
    ensures Replayed(world, operations, frames, width, height).0.now == world.now + TotalDelay(operations)
    decreases |operations|
  {
    if |operations| > 0 {
      var next := Step(world, operations[0], frames[0], width, height).0;
      assert !Fails(operations[0], width, height);
      assert forall k :: 0 <= k < |operations[1..]| ==> operations[1..][k] == operations[k + 1] && frames[1..][k] == frames[k + 1];
      ReplaySendsEveryFrame(next, operations[1..], frames[1..], width, height);
      assert next.sent == world.sent + frames[0];
      assert world.sent + Flatten(frames) == (world.sent + frames[0]) + Flatten(frames[1..]);
    }
  }

  /** A replay that raises stops at the first operation that raises, with
      that operation's error, and leaves the world exactly as the operations
      before it left it. */
  lemma {:induction false} ReplayStopsAtFirstFailure(world: World, operations: seq<Operation>, frames: seq<seq<Packet>>,
                                                     width: int, height: int, n: nat)
    requires |frames| == |operations|
    requires n < |operations| && Fails(operations[n], width, height)
    requires forall k :: 0 <= k < n ==> !Fails(operations[k], width, height)
    ensures Replayed(world, operations, frames, width, height).1
      == Fail(if operations[n].Delay? then NegativeSleep(operations[n].ticks) else ZeroDivision)
    ensures Replayed(world, operations, frames, width, height).0 == Replayed(world, operations[..n], frames[..n], width, height).0
    decreases n
  {
    if n > 0 {
      var next := Step(world, operations[0], frames[0], width, height).0;
      assert !Fails(operations[0], width, height);
      assert forall k :: 0 <= k < |operations[1..]| ==> operations[1..][k] == operations[k + 1];
      ReplayStopsAtFirstFailure(next, operations[1..], frames[1..], width, height, n - 1);
      assert operations[..n][0] == operations[0] && frames[..n][0] == frames[0];
      assert operations[..n][1..] == operations[1..][..n - 1] && frames[..n][1..] == frames[1..][..n - 1];
    }
  }

  /** Replaying on a driver whose recorder is recording records the replayed
      operations again: with the pauses taken out, the log grows by exactly
      the replayed operations without their pauses. */
  lemma {:induction false} ReplayIsRecorded(world: World, operations: seq<Operation>, frames: seq<seq<Packet>>, width: int, height: int)
    requires |frames| == |operations|
    requires world.log.Some? && world.log.value.recording
    requires forall k :: 0 <= k < |operations| ==> !Fails(operations[k], width, height)
    ensures Replayed(world, operations, frames, width, height).0.log.Some?
    ensures Replayed(world, operations, frames, width, height).0.log.value.recording
    ensures WithoutDelays(Replayed(world, operations, frames, width, height).0.log.value.operations)
      == WithoutDelays(world.log.value.operations) + WithoutDelays(operations)
    decreases |operations|
  {
    if |operations| > 0 {
      var op := operations[0];
      assert !Fails(op, width, height);
      var next := Step(world, op, frames[0], width, height).0;
      StepIsRecorded(world, op, frames[0], width, height);
      assert Replayed(world, operations, frames, width, height) == Replayed(next, operations[1..], frames[1..], width, height);
      assert forall k :: 0 <= k < |operations[1..]| ==> operations[1..][k] == operations[k + 1];
      ReplayIsRecorded(next, operations[1..], frames[1..], width, height);
      WithoutDelaysAppend([op], operations[1..]);
      assert [op] + operations[1..] == operations;
    }
  }

  /** One step that does not raise keeps a recording log recording and adds
      the operation to it unless it is a pause. */
  lemma StepIsRecorded(world: World, op: Operation, frame: seq<Packet>, width: int, height: int)
    requires world.log.Some? && world.log.value.recording
    requires !Fails(op, width, height)
    ensures var next := Step(world, op, frame, width, height);
      && next.1 == Pass && next.0.log.Some? && next.0.log.value.recording
      && WithoutDelays(next.0.log.value.operations) == WithoutDelays(world.log.value.operations) + WithoutDelays([op])
  {
    assert WithoutDelays([op]) == (if op.Delay? then [] else [op]) + WithoutDelays([]);
    if !op.Delay? {
      RecordKeepsOperations(world.log.value, op, world.now);
    }
  }


  /** Replaying two lists one after the other is replaying their concatenation. */
  lemma {:induction false} ReplayConcatenation(world: World, first: seq<Operation>, second: seq<Operation>,
                                               firstFrames: seq<seq<Packet>>, secondFrames: seq<seq<Packet>>, width: int, height: int)
    requires |firstFrames| == |first| && |secondFrames| == |second|
    requires Replayed(world, first, firstFrames, width, height).1 == Pass
    ensures Replayed(world, first + second, firstFrames + secondFrames, width, height)
      == Replayed(Replayed(world, first, firstFrames, width, height).0, second, secondFrames, width, height)
    decreases |first|
  {
    if |first| > 0 {
      var next := Step(world, first[0], firstFrames[0], width, height).0;
      assert (first + second)[0] == first[0] && (firstFrames + secondFrames)[0] == firstFrames[0];
      assert (first + second)[1..] == first[1..] + second;
      assert (firstFrames + secondFrames)[1..] == firstFrames[1..] + secondFrames;
      ReplayConcatenation(next, first[1..], second, firstFrames[1..], secondFrames, width, height);
    } else {
      assert first + second == second && firstFrames + secondFrames == secondFrames;
    }
  }

  /** The frames of a concatenation are the two lists' frames. */
  lemma FramesOfConcatenation(first: seq<Operation>, second: seq<Operation>, width: int, height: int)
    ensures FramesOf(first + second, width, height) == FramesOf(first, width, height) + FramesOf(second, width, height)
  {
    var f := op => ExecutedFrames(op, width, height);
    ImagesOfConcatenation(f, first, second);
    assert FramesOf(first + second, width, height) == Images(f, first + second);
    assert FramesOf(first, width, height) == Images(f, first);
    assert FramesOf(second, width, height) == Images(f, second);
  }

  /** f applied to each element in turn. */
  function Images<T, U>(f: T -> U, s: seq<T>): (images: seq<U>)
    ensures |images| == |s|
  {
    seq(|s|, k requires 0 <= k < |s| => f(s[k]))
  }

  lemma ImagesOfConcatenation<T, U>(f: T -> U, a: seq<T>, b: seq<T>)
    ensures Images(f, a + b) == Images(f, a) + Images(f, b)
  {
    var whole, head, tail := Images(f, a + b), Images(f, a), Images(f, b);
    forall k | 0 <= k < |whole| ensures whole[k] == (head + tail)[k] {
      if k < |a| {
        assert (a + b)[k] == a[k];
      } else {
        assert (a + b)[k] == b[k - |a|];
      }
    }
  }

  /** A replay in which nothing raises sends one frame per operation other
      than a pause, so exactly as many frames as the recording, with its
      pauses taken out, has operations. */
  lemma OneFramePerOperation(operations: seq<Operation>, width: int, height: int)
    requires forall k :: 0 <= k < |operations| ==> !Fails(operations[k], width, height)
    ensures |Flatten(FramesOf(operations, width, height))| == |WithoutDelays(operations)|
  {
    var frames := FramesOf(operations, width, height);
    forall k | 0 <= k < |operations|
      ensures |frames[k]| == (if operations[k].Delay? then 0 else 1)
    {
      assert frames[k] == ExecutedFrames(operations[k], width, height);
    }
    FlattenCountsFrames(operations, frames);
  }

  /** Frames of which each pause has none and every other operation one
      flatten to as many frames as there are operations other than pauses. */
  lemma {:induction false} FlattenCountsFrames(operations: seq<Operation>, frames: seq<seq<Packet>>)
    requires |frames| == |operations|
    requires forall k :: 0 <= k < |operations| ==> |frames[k]| == (if operations[k].Delay? then 0 else 1)
    ensures |Flatten(frames)| == |WithoutDelays(operations)|
    decreases |operations|
  {
    if |operations| > 0 {
      assert forall k :: 0 <= k < |operations[1..]| ==> operations[1..][k] == operations[k + 1] && frames[1..][k] == frames[k + 1];
      FlattenCountsFrames(operations[1..], frames[1..]);
    }
  }

  // ---------------------------------------------------------------------
  // The replayer on a driver
  // ---------------------------------------------------------------------

  /** execute(driver) of one operation: a pause sleeps on the clock, any
      other operation calls the driver method it names. The recorder, when
      the driver has one, reads the same clock as the pause sleeps on. */
  method Execute(op: Operation, driver: CH9329Driver, clock: Clock) returns (outcome: Outcome)
    requires driver.recorder != null ==> driver.recorder.clock == clock
    modifies driver.adapter, driver.recorder, clock
    ensures (WorldOf(driver, clock), outcome)
      == Step(old(WorldOf(driver, clock)), op, ExecutedFrames(op, driver.screenWidth, driver.screenHeight), driver.screenWidth, driver.screenHeight)
  {
    if op.Delay? {
      outcome := clock.Sleep(op.ticks);
    } else {
      outcome := ExecuteOnDriver(op, driver);
    }
  }

  /** execute(driver) of an operation other than a pause: the driver method
      it names, called with the operation's stored fields. It sends the
      operation's frames and records the operation, or raises and changes
      nothing. */
  method ExecuteOnDriver(op: Operation, driver: CH9329Driver) returns (outcome: Outcome)
    requires !op.Delay?
    modifies driver.adapter, driver.recorder
    ensures Fails(op, driver.screenWidth, driver.screenHeight) ==>
      outcome == Fail(ZeroDivision) && driver.adapter.sent == old(driver.adapter.sent)
      && (driver.recorder != null ==> driver.recorder.State() == old(driver.recorder.State()))
    ensures !Fails(op, driver.screenWidth, driver.screenHeight) ==>
      outcome == Pass
      && driver.adapter.sent == old(driver.adapter.sent) + ExecutedFrames(op, driver.screenWidth, driver.screenHeight)
      && (driver.recorder != null ==>
        driver.recorder.State() == Recorded(old(driver.recorder.State()), op, driver.recorder.clock.now))
  {
    outcome := Pass;
    match op
    case KeyDown(key, shift, ctrl, alt, windows) =>
      driver.KeyDown(key, shift, ctrl, alt, windows);
    case KeyUp =>
      driver.KeyUp();
    case MouseButtonDown(button) =>
      driver.MouseButtonDown(button);
    case MouseButtonUp =>
      driver.MouseButtonUp();
    case MediaKeyDown(key) =>
      driver.MediaKeyDown(key);
    case MediaKeyUp =>
      driver.MediaKeyUp();
    case MouseMoveAbsolute(x, y) =>
      outcome := driver.MouseMoveAbsolute(x, y);
    case MouseMoveRelative(x, y) =>
      driver.MouseMoveRelative(x, y);
    case MouseScroll(amount) =>
      driver.MouseScroll(amount);
  }

  /** replay(operations, driver): executes the operations in list order and
      stops at the first one that raises. */
  method Replay(operations: seq<Operation>, driver: CH9329Driver, clock: Clock) returns (outcome: Outcome)
    requires driver.recorder != null ==> driver.recorder.clock == clock
    modifies driver.adapter, driver.recorder, clock
    ensures (WorldOf(driver, clock), outcome)
      == Replayed(old(WorldOf(driver, clock)), operations, FramesOf(operations, driver.screenWidth, driver.screenHeight),
                  driver.screenWidth, driver.screenHeight)
  {
    ghost var frames := FramesOf(operations, driver.screenWidth, driver.screenHeight);
    var i := 0;
    while i < |operations|
      invariant 0 <= i <= |operations|
      invariant Replayed(old(WorldOf(driver, clock)), operations, frames, driver.screenWidth, driver.screenHeight)
        == Replayed(WorldOf(driver, clock), operations[i..], frames[i..], driver.screenWidth, driver.screenHeight)
    {
      assert operations[i..][0] == operations[i] && operations[i..][1..] == operations[i + 1..];
      assert frames[i..][0] == frames[i] && frames[i..][1..] == frames[i + 1..];
      var step := Execute(operations[i], driver, clock);
      if step.Fail? {
        return step;
      }
      i := i + 1;
    }
    return Pass;
  }
}

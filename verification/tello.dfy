/** The tello robot (robot/tello.go): command dispatch and the command loop that
    runs while the input source is open. */
module RobotTello {
  import opened InputCommand
  import Drone
  import W = Wrappers
  import Channels
  import InputSource
  import InputKeyboard
  import Termbox

  /** An error returned by the driver for the call `op`. */
  datatype Failure = Failure(op: Drone.Op)

  /** `executeCommand`'s choice of driver call: each command but `None` and the
      undeclared `Exit` has its own call, which carries out that very command,
      and moves and turns carry `move`. */
  function Dispatch(move: int, c: Command): (op: W.Option<Drone.Op>)
    ensures op.None? <==> c == None || c == Exit
    ensures op.Some? ==> CommandOf(op.value) == W.Some(c)
  {
    match c
    case TakeOff => W.Some(Drone.TakeOff)
    case Land => W.Some(Drone.Land)
    case PalmLand => W.Some(Drone.PalmLand)
    case Left => W.Some(Drone.Left(move))
    case Right => W.Some(Drone.Right(move))
    case RotateRight => W.Some(Drone.Clockwise(move))
    case RotateLeft => W.Some(Drone.CounterClockwise(move))
    case Forward => W.Some(Drone.Forward(move))
    case Backward => W.Some(Drone.Backward(move))
    case Up => W.Some(Drone.Up(move))
    case Down => W.Some(Drone.Down(move))
    case FrontFlip => W.Some(Drone.FrontFlip)
    case BackFlip => W.Some(Drone.BackFlip)
    case LeftFlip => W.Some(Drone.LeftFlip)
    case RightFlip => W.Some(Drone.RightFlip)
    case Bounce => W.Some(Drone.Bounce)
    case _ => W.None
  }

  /** The command that `executeCommand` carries out with a given driver call, if any. */
  function CommandOf(op: Drone.Op): W.Option<Command>
  {
    match op
    case TakeOff => W.Some(TakeOff)
    case Land => W.Some(Land)
    case PalmLand => W.Some(PalmLand)
    case Left(_) => W.Some(Left)
    case Right(_) => W.Some(Right)
    case Clockwise(_) => W.Some(RotateRight)
    case CounterClockwise(_) => W.Some(RotateLeft)
    case Forward(_) => W.Some(Forward)
    case Backward(_) => W.Some(Backward)
    case Up(_) => W.Some(Up)
    case Down(_) => W.Some(Down)
    case FrontFlip => W.Some(FrontFlip)
    case BackFlip => W.Some(BackFlip)
    case LeftFlip => W.Some(LeftFlip)
    case RightFlip => W.Some(RightFlip)
    case Bounce => W.Some(Bounce)
    case _ => W.None
  }

  /** A dispatched call has magnitude `move` if it takes one, and is never a
      stabilising Hover or CeaseRotation. Conversely every call carrying out a
      command, with magnitude `move`, is the one dispatched for it. */
  lemma DispatchRoundTrip(move: int, c: Command, op: Drone.Op)
    ensures Dispatch(move, c).Some? && Drone.HasMagnitude(Dispatch(move, c).value) ==>
      Dispatch(move, c).value.amount == move
    ensures Dispatch(move, c) != W.Some(Drone.Hover) && Dispatch(move, c) != W.Some(Drone.CeaseRotation)
    ensures CommandOf(op) == W.Some(c) && (Drone.HasMagnitude(op) ==> op.amount == move) ==>
      Dispatch(move, c) == W.Some(op)
  {
  }

  /** A command is a rotation exactly when the drone executes it as a turn. */
  lemma RotationIsTurn(move: int, c: Command)
    ensures IsRotation(c) <==>
      Dispatch(move, c).Some? && (Dispatch(move, c).value.Clockwise? || Dispatch(move, c).value.CounterClockwise?)
  {
  }

  /** The magnitude-free commands and their calls. */
  lemma DispatchManoeuvres(move: int)
    ensures Dispatch(move, TakeOff) == W.Some(Drone.TakeOff)
    ensures Dispatch(move, Land) == W.Some(Drone.Land)
    ensures Dispatch(move, PalmLand) == W.Some(Drone.PalmLand)
    ensures Dispatch(move, FrontFlip) == W.Some(Drone.FrontFlip)
    ensures Dispatch(move, BackFlip) == W.Some(Drone.BackFlip)
    ensures Dispatch(move, LeftFlip) == W.Some(Drone.LeftFlip)
    ensures Dispatch(move, RightFlip) == W.Some(Drone.RightFlip)
    ensures Dispatch(move, Bounce) == W.Some(Drone.Bounce)
  {
  }

  /** The moves and turns and their calls, each with magnitude `move`. */
  lemma DispatchMoves(move: int)
    ensures Dispatch(move, Left) == W.Some(Drone.Left(move))
    ensures Dispatch(move, Right) == W.Some(Drone.Right(move))
    ensures Dispatch(move, Forward) == W.Some(Drone.Forward(move))
    ensures Dispatch(move, Backward) == W.Some(Drone.Backward(move))
    ensures Dispatch(move, Up) == W.Some(Drone.Up(move))
    ensures Dispatch(move, Down) == W.Some(Drone.Down(move))
    ensures Dispatch(move, RotateRight) == W.Some(Drone.Clockwise(move))
    ensures Dispatch(move, RotateLeft) == W.Some(Drone.CounterClockwise(move))
  {
  }

  /** The error `executeCommand` returns when the driver call fails or not:
      an error exactly when a call is made and fails, naming that call. */
  function Execute(move: int, c: Command, fails: bool): (err: W.Option<Failure>)
    ensures err.Some? <==> fails && c != None && c != Exit
    ensures err.Some? ==> Dispatch(move, c) == W.Some(err.value.op)
  {
    if Dispatch(move, c).Some? && fails then W.Some(Failure(Dispatch(move, c).value)) else W.None
  }

  /** The error pushed on the error channel for a returned error, if any. */
  function ErrorOf(err: W.Option<Failure>): seq<Failure>
  {
    if err.Some? then [err.value] else []
  }

  /** The calls made for one command in the loop: its own call, if any, then a
      Hover, then a CeaseRotation for rotations. */
  function Calls(move: int, c: Command): seq<Drone.Op>
  {
    (if Dispatch(move, c).Some? then [Dispatch(move, c).value] else [])
    + [Drone.Hover]
    + (if IsRotation(c) then [Drone.CeaseRotation] else [])
  }

  /** The calls made by the loop for a stream of commands, in stream order. */
  function LoopTrace(move: int, cmds: seq<Command>): seq<Drone.Op>
    decreases |cmds|
  {
    if cmds == [] then []
    else LoopTrace(move, cmds[..|cmds| - 1]) + Calls(move, cmds[|cmds| - 1])
  }

  /** The errors pushed by the loop, in stream order; `fails[i]` says whether the
      driver call for command `i`, if one is made, fails. At most one per command. */
  function LoopErrors(move: int, cmds: seq<Command>, fails: seq<bool>): (errs: seq<Failure>)
    requires |fails| == |cmds|
    ensures |errs| <= |cmds|
    decreases |cmds|
  {
    if cmds == [] then []
    else
      var n := |cmds| - 1;
      LoopErrors(move, cmds[..n], fails[..n])
      + ErrorOf(Execute(move, cmds[n], fails[n]))
  }

  /** Taking one more command of the stream adds its calls and its error after
      whatever was recorded before the loop (`trace0`, `sent0`). */
  lemma LoopStep(move: int, cmds: seq<Command>, fails: seq<bool>, i: nat, trace0: seq<Drone.Op>, sent0: seq<Failure>)
    requires |fails| == |cmds| && i < |cmds|
    ensures trace0 + LoopTrace(move, cmds[..i + 1]) == trace0 + LoopTrace(move, cmds[..i]) + Calls(move, cmds[i])
    ensures sent0 + LoopErrors(move, cmds[..i + 1], fails[..i + 1]) == sent0 + LoopErrors(move, cmds[..i], fails[..i])
      + ErrorOf(Execute(move, cmds[i], fails[i]))
  {
    assert cmds[..i + 1][..i] == cmds[..i] && cmds[..i + 1][i] == cmds[i];
    assert fails[..i + 1][..i] == fails[..i] && fails[..i + 1][i] == fails[i];
  }

  /** All calls of a session: the loop's, then the final Land. */
  function SessionTrace(move: int, cmds: seq<Command>): (ops: seq<Drone.Op>)
    ensures |ops| > 0 && ops[|ops| - 1] == Drone.Land
  {
    LoopTrace(move, cmds) + [Drone.Land]
  }

  /** All errors of a session: the loop's, then the final Land's, if it failed.
      At most one per command plus one. */
  function SessionErrors(move: int, cmds: seq<Command>, fails: seq<bool>, landFails: bool): (errs: seq<Failure>)
    requires |fails| == |cmds|
    ensures |errs| <= |cmds| + 1
    ensures landFails ==> |errs| > 0 && errs[|errs| - 1] == Failure(Drone.Land)
  {
    LoopErrors(move, cmds, fails) + (if landFails then [Failure(Drone.Land)] else [])
  }

  /** The loop handles a stream piece by piece: its calls for `a + b` are its calls for `a`, then for `b`. */
  lemma {:induction false} LoopTraceAppend(move: int, a: seq<Command>, b: seq<Command>)
    ensures LoopTrace(move, a + b) == LoopTrace(move, a) + LoopTrace(move, b)
    decreases |b|
  {
    if b == [] {
      assert a + b == a;
    } else {
      var n := |b| - 1;
      assert (a + b)[..|a + b| - 1] == a + b[..n];
      assert (a + b)[|a + b| - 1] == b[n];
      LoopTraceAppend(move, a, b[..n]);
    }
  }

  /** In stream order, the calls of command `k` follow those of every earlier
      command and precede those of every later one and the final Land. */
  lemma SessionTraceOrder(move: int, cmds: seq<Command>, k: nat)
    requires k < |cmds|
    ensures SessionTrace(move, cmds) ==
      LoopTrace(move, cmds[..k]) + Calls(move, cmds[k]) + LoopTrace(move, cmds[k + 1..]) + [Drone.Land]
  {
    assert cmds == cmds[..k] + ([cmds[k]] + cmds[k + 1..]);
    LoopTraceAppend(move, cmds[..k], [cmds[k]] + cmds[k + 1..]);
    LoopTraceAppend(move, [cmds[k]], cmds[k + 1..]);
    assert LoopTrace(move, [cmds[k]]) == Calls(move, cmds[k]) by {
      assert [cmds[k]][..0] == [];
    }
  }

  /** One command's calls hold one Hover, a CeaseRotation exactly for a rotation,
      and a Land exactly for a Land command. */
  lemma CallsCounts(move: int, c: Command)
    ensures multiset(Calls(move, c))[Drone.Hover] == 1
    ensures multiset(Calls(move, c))[Drone.CeaseRotation] == if IsRotation(c) then 1 else 0
    ensures multiset(Calls(move, c))[Drone.Land] == if c == Land then 1 else 0
  {
    DispatchRoundTrip(move, c, Drone.Hover);
  }

  /** The order of one command's calls: its own call first, if it makes one,
      then Hover, and CeaseRotation last after a rotation. */
  lemma CallsOrder(move: int, c: Command)
    ensures |Calls(move, c)| == (if Dispatch(move, c).Some? then 1 else 0) + 1 + (if IsRotation(c) then 1 else 0)
    ensures Dispatch(move, c).Some? ==> Calls(move, c)[0] == Dispatch(move, c).value
    ensures Calls(move, c)[|Calls(move, c)| - 1] == if IsRotation(c) then Drone.CeaseRotation else Drone.Hover
    ensures IsRotation(c) ==> Calls(move, c)[|Calls(move, c)| - 2] == Drone.Hover
  {
  }

  /** The loop's calls for a stream, counted by kind: those of the stream
      without its last command, plus those of the last command. */
  lemma LoopTraceLast(move: int, cmds: seq<Command>)
    requires cmds != []
    ensures multiset(LoopTrace(move, cmds)) ==
      multiset(LoopTrace(move, cmds[..|cmds| - 1])) + multiset(Calls(move, cmds[|cmds| - 1]))
    ensures multiset(cmds) == multiset(cmds[..|cmds| - 1]) + multiset{cmds[|cmds| - 1]}
  {
    assert cmds == cmds[..|cmds| - 1] + [cmds[|cmds| - 1]];
  }

  /** Every command is followed by exactly one Hover, every rotation by exactly
      one CeaseRotation and nothing else by one, and the loop lands exactly when
      the stream says Land. */
  lemma {:induction false} LoopTraceCounts(move: int, cmds: seq<Command>)
    ensures multiset(LoopTrace(move, cmds))[Drone.Hover] == |cmds|
    ensures multiset(LoopTrace(move, cmds))[Drone.CeaseRotation] ==
      multiset(cmds)[RotateLeft] + multiset(cmds)[RotateRight]
    ensures multiset(LoopTrace(move, cmds))[Drone.Land] == multiset(cmds)[Land]
    decreases |cmds|
  {
    if cmds != [] {
      var n := |cmds| - 1;
      LoopTraceCounts(move, cmds[..n]);
      CallsCounts(move, cmds[n]);
      LoopTraceLast(move, cmds);
    }
  }

  /** Over a session, exactly one Land is added to those the stream asks for. */
  lemma SessionLands(move: int, cmds: seq<Command>)
    ensures multiset(SessionTrace(move, cmds))[Drone.Land] == multiset(cmds)[Land] + 1
  {
    LoopTraceCounts(move, cmds);
  }

  /** Every move and turn of a session carries the magnitude fixed at construction. */
  lemma {:induction false} SessionMagnitude(move: int, cmds: seq<Command>)
    ensures forall op :: op in SessionTrace(move, cmds) && Drone.HasMagnitude(op) ==> op.amount == move
    decreases |cmds|
  {
    if cmds != [] {
      var n := |cmds| - 1;
      SessionMagnitude(move, cmds[..n]);
      DispatchRoundTrip(move, cmds[n], Drone.Hover);
    }
  }

  /** An error is reported only for a call that was made and failed: every error
      names a call of the trace, and without failing calls there are no errors. */
  lemma {:induction false} ErrorsFromCalls(move: int, cmds: seq<Command>, fails: seq<bool>)
    requires |fails| == |cmds|
    ensures forall e :: e in LoopErrors(move, cmds, fails) ==> e.op in LoopTrace(move, cmds)
    ensures (forall i :: 0 <= i < |fails| ==> !fails[i]) ==> LoopErrors(move, cmds, fails) == []
    decreases |cmds|
  {
    if cmds != [] {
      var n := |cmds| - 1;
      ErrorsFromCalls(move, cmds[..n], fails[..n]);
    }
  }

  /** When the stream ends with the keyboard's `Exit`, that command makes no
      driver call, so the session ends with its Hover and then the final Land. */
  lemma ExitThenLand(move: int, cmds: seq<Command>)
    requires cmds != [] && cmds[|cmds| - 1] == Exit
    ensures |SessionTrace(move, cmds)| >= 2
    ensures SessionTrace(move, cmds)[|SessionTrace(move, cmds)| - 2..] == [Drone.Hover, Drone.Land]
  {
  }

  /** A keyboard session that was closed ends, on the drone, with Hover and the final Land. */
  lemma KeyboardSessionEndsLanded(move: int, started: bool, events: seq<Termbox.Event>)
    requires InputSource.Run(InputKeyboard.KeyboardStep, started, events).closed
    ensures var trace := SessionTrace(move, InputSource.Run(InputKeyboard.KeyboardStep, started, events).sent);
      |trace| >= 2 && trace[|trace| - 2..] == [Drone.Hover, Drone.Land]
  {
    InputKeyboard.KeyboardExitIsLast(started, events);
    ExitThenLand(move, InputSource.Run(InputKeyboard.KeyboardStep, started, events).sent);
  }

  /** The tello robot. `move` is the fixed magnitude of every move and turn;
      `trace` records the calls made on the driver; `errors` is the error channel. */
  class Tello {
    const move: int
    const enableVideo: bool
    const errors: Channels.Channel<Failure>
    var trace: seq<Drone.Op>

    /** `NewTello`: the magnitude is fixed here, for the robot's lifetime. */
    constructor (move: int, enableVideo: bool)
      ensures this.move == move && this.enableVideo == enableVideo
      ensures fresh(errors) && errors.sent == [] && !errors.closed
      ensures trace == []
    {
      this.move := move;
      this.enableVideo := enableVideo;
      errors := new Channels.Channel<Failure>();
      trace := [];
    }

    /** `executeCommand`: makes the command's driver call, if any, and returns
        the driver's error; `fails` is the driver's answer. */
    method ExecuteCommand(c: Command, fails: bool) returns (err: W.Option<Failure>)
      modifies this
      ensures trace == old(trace) + (if Dispatch(move, c).Some? then [Dispatch(move, c).value] else [])
      ensures err == Execute(move, c, fails)
    {
      var op := Dispatch(move, c);
      if op.Some? {
        trace := trace + [op.value];
        if fails {
          return W.Some(Failure(op.value));
        }
      }
      return W.None;
    }

    /** One pass of `Connect`'s loop: execute the command, push its error if it
        failed, hover, and stop rotating after a rotation. */
    method Handle(cmd: Command, fails: bool)
      requires !errors.closed
      modifies this, errors
      ensures trace == old(trace) + Calls(move, cmd)
      ensures errors.sent == old(errors.sent) + ErrorOf(Execute(move, cmd, fails))
      ensures !errors.closed
    {
      var err := ExecuteCommand(cmd, fails);
      if err.Some? {
        errors.Send(err.value);
      }
      trace := trace + [Drone.Hover];
      if IsRotation(cmd) {
        trace := trace + [Drone.CeaseRotation];
      }
    }

    /** The end of `Connect`'s loop, once the stream is closed: land, push the
        error if landing failed, and close the error channel. */
    method Shutdown(landFails: bool)
      requires !errors.closed
      modifies this, errors
      ensures trace == old(trace) + [Drone.Land]
      ensures errors.sent == old(errors.sent) + (if landFails then [Failure(Drone.Land)] else [])
      ensures errors.closed
    {
      var err := ExecuteCommand(Land, landFails);
      if err.Some? {
        errors.Send(err.value);
      }
      errors.Close();
    }

    /** The `range` loop of `Connect` over the commands of the stream: each one is
        handled in stream order. `fails[i]` is the driver's answer for command `i`. */
    method Serve(cmds: seq<Command>, fails: seq<bool>)
      requires |fails| == |cmds|
      requires !errors.closed
      modifies this, errors
      ensures trace == old(trace) + LoopTrace(move, cmds)
      ensures errors.sent == old(errors.sent) + LoopErrors(move, cmds, fails)
      ensures !errors.closed
    {
      ghost var trace0, sent0 := trace, errors.sent;
      var i := 0;
      while i < |cmds|
        invariant i <= |cmds|
        invariant !errors.closed
        invariant trace == trace0 + LoopTrace(move, cmds[..i])
        invariant errors.sent == sent0 + LoopErrors(move, cmds[..i], fails[..i])
      {
        LoopStep(move, cmds, fails, i, trace0, sent0);
        Handle(cmds[i], fails[i]);
        i := i + 1;
      }
      assert cmds[..i] == cmds && fails[..i] == fails;
    }

    /** The goroutine of `Connect` over the whole stream of a closed source: the
        commands are served in stream order, then the session is shut down.
        `fails` and `landFails` are the driver's answers. */
    method Connect(source: Channels.Channel<Command>, fails: seq<bool>, landFails: bool)
      requires source.closed && |fails| == |source.sent|
      requires !errors.closed
      modifies this, errors
      ensures trace == old(trace) + SessionTrace(move, old(source.sent))
      ensures errors.sent == old(errors.sent) + SessionErrors(move, old(source.sent), fails, landFails)
      ensures errors.closed
    {
      var cmds := source.sent;
      ghost var trace0, sent0 := trace, errors.sent;
      Serve(cmds, fails);
      Shutdown(landFails);
      assert trace == trace0 + (LoopTrace(move, cmds) + [Drone.Land]);
      assert errors.sent == sent0 + (LoopErrors(move, cmds, fails) + if landFails then [Failure(Drone.Land)] else []);
    }
  }
}

/** The command enumeration shared by the input sources and the robots
    (input/command.go). */
module InputCommand {
  import W = Wrappers

  /** Go's `int8`, the underlying type of `Command`. */
  newtype int8 = x: int | -128 <= x < 128

  /** The commands, in declaration order. The first seventeen are the constants
      `None` (= 0) .. `Bounce` (= 16) of input/command.go. `Exit` is sent by the
      keyboard source as its termination sentinel but is NOT declared among those
      constants in the source; the model adds it here and gives it no code. */
  datatype Command =
    | None | TakeOff | Land | PalmLand
    | Up | Down | Forward | Backward | Left | Right | RotateRight | RotateLeft
    | FrontFlip | BackFlip | LeftFlip | RightFlip | Bounce
    | Exit

  /** The `iota` value of a declared constant; `Exit` has none. */
  function Code(c: Command): (n: W.Option<int8>)
    ensures n.Some? <==> c != Exit
    ensures n.Some? ==> 0 <= n.value <= 16
  {
    match c
    case None => W.Some(0)
    case TakeOff => W.Some(1)
    case Land => W.Some(2)
    case PalmLand => W.Some(3)
    case Up => W.Some(4)
    case Down => W.Some(5)
    case Forward => W.Some(6)
    case Backward => W.Some(7)
    case Left => W.Some(8)
    case Right => W.Some(9)
    case RotateRight => W.Some(10)
    case RotateLeft => W.Some(11)
    case FrontFlip => W.Some(12)
    case BackFlip => W.Some(13)
    case LeftFlip => W.Some(14)
    case RightFlip => W.Some(15)
    case Bounce => W.Some(16)
    case Exit => W.None
  }

  /** The declared constant a raw `int8` value stands for, if any: exactly the
      values 0 .. 16 stand for one, and its code is that value. */
  function FromCode(n: int8): (c: W.Option<Command>)
    ensures c.Some? <==> 0 <= n <= 16
    ensures c.Some? ==> Code(c.value) == W.Some(n)
  {
    if n == 0 then W.Some(None)
    else if n == 1 then W.Some(TakeOff)
    else if n == 2 then W.Some(Land)
    else if n == 3 then W.Some(PalmLand)
    else if n == 4 then W.Some(Up)
    else if n == 5 then W.Some(Down)
    else if n == 6 then W.Some(Forward)
    else if n == 7 then W.Some(Backward)
    else if n == 8 then W.Some(Left)
    else if n == 9 then W.Some(Right)
    else if n == 10 then W.Some(RotateRight)
    else if n == 11 then W.Some(RotateLeft)
    else if n == 12 then W.Some(FrontFlip)
    else if n == 13 then W.Some(BackFlip)
    else if n == 14 then W.Some(LeftFlip)
    else if n == 15 then W.Some(RightFlip)
    else if n == 16 then W.Some(Bounce)
    else W.None
  }

  /** The constants in the order input/command.go declares them. */
  const Declared: seq<Command> := [
    None, TakeOff, Land, PalmLand,
    Up, Down, Forward, Backward, Left, Right, RotateRight, RotateLeft,
    FrontFlip, BackFlip, LeftFlip, RightFlip, Bounce]

  /** `iota`: the constant declared at position `i` has code `i`, and every
      command with a code is declared exactly once. */
  lemma CodesFollowDeclarationOrder(c: Command)
    ensures |Declared| == 17
    ensures forall i | 0 <= i < |Declared| :: Code(Declared[i]) == W.Some(i as int8)
    ensures c in Declared <==> Code(c).Some?
  {
  }

  /** Every declared constant is found again from its code, so with `FromCode`'s
      contract the constants occupy exactly the codes 0 .. 16, one each. */
  lemma CodesAreConsecutive(c: Command)
    ensures Code(c).Some? ==> FromCode(Code(c).value) == W.Some(c)
  {
  }

  /** `Command.String()`: the display name of a command; only `None` and the
      undeclared `Exit` fall to the "Unknown" default. */
  function String(c: Command): (s: string)
    ensures s == "Unknown" <==> c == None || c == Exit
  {
    match c
    case TakeOff => "Takeoff"
    case Land => "Land"
    case PalmLand => "PalmLand"
    case Up => "Up"
    case Down => "Down"
    case Left => "Left"
    case Right => "Right"
    case RotateLeft => "RotateLeft"
    case RotateRight => "RotateRight"
    case Forward => "Forward"
    case Backward => "Backward"
    case FrontFlip => "FrontFlip"
    case BackFlip => "BackFlip"
    case LeftFlip => "LeftFlip"
    case RightFlip => "RightFlip"
    case Bounce => "Bounce"
    case _ => "Unknown"
  }

  /** `String()` applied to a raw `int8` value, which need not be a declared
      constant: every value other than the codes 1 .. 16 renders as "Unknown". */
  function CodeString(n: int8): (s: string)
    ensures s == "Unknown" <==> !(1 <= n <= 16)
  {
    if FromCode(n).Some? then String(FromCode(n).value) else "Unknown"
  }

  /** The name of each of the sixteen commands with one of its own. */
  lemma StringTable()
    ensures String(TakeOff) == "Takeoff" && String(Land) == "Land" && String(PalmLand) == "PalmLand"
    ensures String(Up) == "Up" && String(Down) == "Down"
    ensures String(Left) == "Left" && String(Right) == "Right"
    ensures String(RotateLeft) == "RotateLeft" && String(RotateRight) == "RotateRight"
    ensures String(Forward) == "Forward" && String(Backward) == "Backward"
    ensures String(FrontFlip) == "FrontFlip" && String(BackFlip) == "BackFlip"
    ensures String(LeftFlip) == "LeftFlip" && String(RightFlip) == "RightFlip"
    ensures String(Bounce) == "Bounce"
  {
  }

  /** Distinct commands with a name of their own get distinct names. */
  lemma StringInjective(a: Command, b: Command)
    requires String(a) != "Unknown"
    ensures String(a) == String(b) <==> a == b
  {
  }

  /** `Command.IsRotation()`: the commands with codes 10 and 11. */
  predicate IsRotation(c: Command)
    ensures IsRotation(c) <==> Code(c) == W.Some(10) || Code(c) == W.Some(11)
  {
    c == RotateLeft || c == RotateRight
  }
}

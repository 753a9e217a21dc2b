/** The operations the robot calls on the tello driver, recorded as values. A
    move or turn carries the distance or angle it was called with. */
module Drone {
  datatype Op =
    | TakeOff | Land | PalmLand
    | Up(amount: int) | Down(amount: int)
    | Forward(amount: int) | Backward(amount: int)
    | Left(amount: int) | Right(amount: int)
    | Clockwise(amount: int) | CounterClockwise(amount: int)
    | FrontFlip | BackFlip | LeftFlip | RightFlip | Bounce
    | Hover | CeaseRotation

  /** The calls that take a magnitude. */
  predicate HasMagnitude(op: Op)
  {
    op.Up? || op.Down? || op.Forward? || op.Backward? || op.Left? || op.Right?
    || op.Clockwise? || op.CounterClockwise?
  }
}

/** The part of a termbox event the input sources look at. */
module Termbox {
  /** The keys the sources tell apart; `Other` stands for any other key code
      (function keys, letters reported as characters, and so on). */
  datatype Key =
    | CtrlC | ArrowUp | ArrowDown | ArrowLeft | ArrowRight | PgUp | PgDn | Space
    | MouseLeft
    | Other(code: nat)

  /** A polled event: its key and its character, a Go `rune`. */
  datatype Event = Event(key: Key, ch: int)
}

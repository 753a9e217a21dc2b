/** The keyboard input source (input/keyboard.go). */
module InputKeyboard {
  import opened InputCommand
  import opened InputVerbosity
  import opened Termbox
  import opened InputSource
  import W = Wrappers
  import Channels

  /** Characters that map directly to a command. Rune 74 is 'J', although the
      help text advertises 'U' for "up"; the map is modelled as written. */
  const KeyMap: map<int, Command> := map[
    117 := Up, 74 := Up,
    100 := Down, 68 := Down,
    108 := RotateLeft, 76 := RotateLeft,
    114 := RotateRight, 82 := RotateRight]

  /** `parseCharacter`: the command a character maps to, or `None`; the map never
      yields `None` itself, and only vertical moves and rotations are mapped. */
  function ParseCharacter(ch: int): (cmd: Command)
    ensures cmd != None <==> ch in KeyMap
    ensures cmd in {None, Up, Down, RotateLeft, RotateRight}
  {
    if ch in KeyMap then KeyMap[ch] else None
  }

  /** The eight mapped runes give Up, Down, RotateLeft and RotateRight; every other
      rune (upper-case 'U' among them) gives `None`. */
  lemma ParseCharacterTable(ch: int)
    ensures ParseCharacter(ch) != None <==> ch in {117, 74, 100, 68, 108, 76, 114, 82}
    ensures ParseCharacter('u' as int) == Up && ParseCharacter('J' as int) == Up
    ensures ParseCharacter('d' as int) == Down && ParseCharacter('D' as int) == Down
    ensures ParseCharacter('l' as int) == RotateLeft && ParseCharacter('L' as int) == RotateLeft
    ensures ParseCharacter('r' as int) == RotateRight && ParseCharacter('R' as int) == RotateRight
    ensures ParseCharacter('U' as int) == None
  {
  }

  /** The result of `parseKey`: the new `started` flag and the command. */
  datatype Parsed = Parsed(started: bool, cmd: Command)

  /** `parseKey` as a function of the flag before the call: only Space changes
      the flag, and only Ctrl+C gives `Exit`. */
  function KeyTransition(started: bool, key: Key): (p: Parsed)
    ensures p.started != started <==> key == Space
    ensures p.cmd == Exit <==> key == CtrlC
  {
    match key
    case CtrlC => Parsed(started, Exit)
    case ArrowUp => Parsed(started, Forward)
    case ArrowDown => Parsed(started, Backward)
    case PgUp => Parsed(started, Up)
    case PgDn => Parsed(started, Down)
    case ArrowLeft => Parsed(started, Left)
    case ArrowRight => Parsed(started, Right)
    case Space => if !started then Parsed(true, TakeOff) else Parsed(false, Land)
    case _ => Parsed(started, None)
  }

  /** Space toggles the flag, sending TakeOff when it was clear and Land when it
      was set, and two Spaces restore it. */
  lemma SpaceToggles(started: bool)
    ensures KeyTransition(started, Space).cmd == (if started then Land else TakeOff)
    ensures KeyTransition(KeyTransition(started, Space).started, Space).started == started
  {
  }

  /** The arrows move horizontally, the page keys vertically and Ctrl+C exits;
      every other key gives `None`. */
  lemma KeyTransitionTable(started: bool, key: Key)
    ensures KeyTransition(started, ArrowUp).cmd == Forward
    ensures KeyTransition(started, ArrowDown).cmd == Backward
    ensures KeyTransition(started, ArrowLeft).cmd == Left
    ensures KeyTransition(started, ArrowRight).cmd == Right
    ensures KeyTransition(started, PgUp).cmd == Up
    ensures KeyTransition(started, PgDn).cmd == Down
    ensures KeyTransition(started, CtrlC).cmd == Exit
    ensures KeyTransition(started, key).cmd == None <==> key.MouseLeft? || key.Other?
  {
  }

  /** An event whose character is unmapped is handed to `parseKey`: a `None` from
      it sends nothing and leaves the flag as `parseKey` set it, and any other
      command is sent as is. */
  lemma KeyAfterCharacter(started: bool, ev: Event)
    requires ParseCharacter(ev.ch) == None
    ensures KeyTransition(started, ev.key).cmd == None ==>
      KeyboardStep(started, ev) == Reaction(KeyTransition(started, ev.key).started, [], false)
    ensures KeyTransition(started, ev.key).cmd != None ==>
      KeyboardStep(started, ev).sent == [KeyTransition(started, ev.key).cmd]
    ensures KeyTransition(started, ev.key).cmd !in {None, Exit} ==>
      KeyboardStep(started, ev) == Reaction(KeyTransition(started, ev.key).started, [KeyTransition(started, ev.key).cmd], false)
  {
  }

  /** An event ends the loop exactly when its character is unmapped and its key
      parses to `Exit`, whatever the flag. */
  predicate IsExitEvent(ev: Event)
    ensures IsExitEvent(ev) <==> ParseCharacter(ev.ch) == None && KeyTransition(false, ev.key).cmd == Exit
  {
    ParseCharacter(ev.ch) == None && ev.key == CtrlC
  }

  /** One iteration of the `Start` loop: a mapped character is sent as is and the
      key is not parsed; otherwise the key is parsed, `None` is dropped, and `Exit`
      is sent, clears the flag and closes the channel. */
  function KeyboardStep(started: bool, ev: Event): (r: Reaction)
    ensures |r.sent| <= 1
    ensures r.closed <==> IsExitEvent(ev)
  {
    var c := ParseCharacter(ev.ch);
    if c != None then Reaction(started, [c], false)
    else
      var p := KeyTransition(started, ev.key);
      if p.cmd == None then Reaction(p.started, [], false)
      else if p.cmd == Exit then Reaction(false, [Exit], true)
      else Reaction(p.started, [p.cmd], false)
  }

  /** A mapped character is sent and leaves the flag alone, even when the event's key is Space. */
  lemma CharacterBeforeKey(started: bool, ev: Event)
    requires ParseCharacter(ev.ch) != None
    ensures KeyboardStep(started, ev) == Reaction(started, [ParseCharacter(ev.ch)], false)
  {
  }

  /** One event never sends `None`; it closes the channel exactly when it sends
      `Exit`, and then `Exit` is all it sends and the flag is cleared. */
  lemma StepClosesOnExit(started: bool, ev: Event)
    ensures None !in KeyboardStep(started, ev).sent
    ensures KeyboardStep(started, ev).closed <==> Exit in KeyboardStep(started, ev).sent
    ensures KeyboardStep(started, ev).closed ==> KeyboardStep(started, ev).sent == [Exit] && !KeyboardStep(started, ev).started
  {
  }

  /** `Start` returns on the first exit event and polls nothing after it. */
  lemma KeyboardStopsAtFirstExit(started: bool, events: seq<Event>)
    ensures var r := Run(KeyboardStep, started, events);
      && (r.closed ==>
            && 0 < r.consumed
            && IsExitEvent(events[r.consumed - 1])
            && forall j :: 0 <= j < r.consumed - 1 ==> !IsExitEvent(events[j]))
      && (!r.closed ==> forall j :: 0 <= j < |events| ==> !IsExitEvent(events[j]))
  {
    forall s, ev ensures KeyboardStep(s, ev).closed == IsExitEvent(ev) {
      StepClosesOnExit(s, ev);
    }
    RunStopsAtFirstExit(KeyboardStep, IsExitEvent, started, events);
  }

  /** `Exit` is sent exactly when the channel is closed, as the last command, and
      never before it. */
  lemma {:induction false} KeyboardExitIsLast(started: bool, events: seq<Event>)
    ensures var r := Run(KeyboardStep, started, events);
      && (r.closed <==> Exit in r.sent)
      && (r.closed ==> |r.sent| > 0 && r.sent[|r.sent| - 1] == Exit && Exit !in r.sent[..|r.sent| - 1])
    decreases |events|
  {
    if events != [] {
      var r0 := KeyboardStep(started, events[0]);
      StepClosesOnExit(started, events[0]);
      if !r0.closed {
        KeyboardExitIsLast(r0.started, events[1..]);
        var rest := Run(KeyboardStep, r0.started, events[1..]);
        assert Run(KeyboardStep, started, events).sent == r0.sent + rest.sent;
        assert Run(KeyboardStep, started, events).closed == rest.closed;
        ExitLastAfter(r0.sent, rest.sent, rest.closed);
      }
    }
  }

  /** Sending commands without `Exit` in front of a run keeps `Exit` last. */
  lemma ExitLastAfter(a: seq<Command>, b: seq<Command>, closed: bool)
    requires Exit !in a
    requires closed <==> Exit in b
    requires closed ==> |b| > 0 && b[|b| - 1] == Exit && Exit !in b[..|b| - 1]
    ensures closed <==> Exit in a + b
    ensures closed ==> |a + b| > 0 && (a + b)[|a + b| - 1] == Exit && Exit !in (a + b)[..|a + b| - 1]
  {
    if closed {
      assert (a + b)[..|a + b| - 1] == a + b[..|b| - 1];
    }
  }

  /** The keyboard sends only movement, rotation, TakeOff, Land and Exit: never
      `None`, PalmLand, a flip or Bounce. */
  lemma {:induction false} KeyboardVocabulary(started: bool, events: seq<Event>)
    ensures forall c :: c in Run(KeyboardStep, started, events).sent ==>
      c in {TakeOff, Land, Up, Down, Forward, Backward, Left, Right, RotateLeft, RotateRight, Exit}
    decreases |events|
  {
    if events != [] {
      var r0 := KeyboardStep(started, events[0]);
      StepVocabulary(started, events[0]);
      if !r0.closed {
        KeyboardVocabulary(r0.started, events[1..]);
        assert Run(KeyboardStep, started, events).sent == r0.sent + Run(KeyboardStep, r0.started, events[1..]).sent;
      }
    }
  }

  /** What one event can send. */
  lemma StepVocabulary(started: bool, ev: Event)
    ensures forall c :: c in KeyboardStep(started, ev).sent ==>
      c in {TakeOff, Land, Up, Down, Forward, Backward, Left, Right, RotateLeft, RotateRight, Exit}
  {
  }

  /** One event keeps the toggle: the flag afterwards is the replay of what it sent. */
  lemma StepKeepsToggle(started: bool, ev: Event)
    ensures Replay(started, KeyboardStep(started, ev).sent) == W.Some(KeyboardStep(started, ev).started)
  {
    var c := ParseCharacter(ev.ch);
    ParseCharacterTable(ev.ch);
    if c == None {
      var p := KeyTransition(started, ev.key);
      if p.cmd != None {
        assert [p.cmd][1..] == [];
      }
    } else {
      assert [c][1..] == [];
    }
  }

  /** The commands sent alternate TakeOff and Land starting from the initial flag,
      and the flag at the end is the one that alternation ends with. */
  lemma KeyboardKeepsToggle(started: bool, events: seq<Event>)
    ensures Replay(started, Run(KeyboardStep, started, events).sent) ==
      W.Some(Run(KeyboardStep, started, events).started)
  {
    var r := Run(KeyboardStep, started, events);
    forall s, ev ensures Replay(s, KeyboardStep(s, ev).sent) == W.Some(KeyboardStep(s, ev).started) {
      StepKeepsToggle(s, ev);
    }
    RunKeepsToggle(KeyboardStep, started, events);
    if r.closed {
      KeyboardClosedNotStarted(started, events);
      KeyboardExitIsLast(started, events);
      ReplayEndsWithExit(started, r.sent);
    }
  }

  /** A closed run leaves the flag clear. */
  lemma KeyboardClosedNotStarted(started: bool, events: seq<Event>)
    ensures Run(KeyboardStep, started, events).closed ==> !Run(KeyboardStep, started, events).started
  {
    forall s, ev ensures KeyboardStep(s, ev).closed ==> !KeyboardStep(s, ev).started {
      StepClosesOnExit(s, ev);
    }
    RunClosedNotStarted(KeyboardStep, started, events);
  }

  /** The keyboard source; `commands` is the channel the robot reads. */
  class Keyboard {
    const commands: Channels.Channel<Command>
    const verbosity: Verbosity
    var started: bool

    /** `NewKeyboard`. */
    constructor (verbosity: Verbosity)
      ensures this.verbosity == verbosity && !started
      ensures fresh(commands) && commands.sent == [] && !commands.closed
    {
      commands := new Channels.Channel<Command>();
      this.verbosity := verbosity;
      started := false;
    }

    /** `parseKey`: updates the flag and returns the key's command. */
    method ParseKey(key: Key) returns (cmd: Command)
      modifies this
      ensures Parsed(started, cmd) == KeyTransition(old(started), key)
    {
      cmd := None;
      match key {
        case CtrlC => cmd := Exit;
        case ArrowUp => cmd := Forward;
        case ArrowDown => cmd := Backward;
        case PgUp => cmd := Up;
        case PgDn => cmd := Down;
        case ArrowLeft => cmd := Left;
        case ArrowRight => cmd := Right;
        case Space =>
          if !started {
            started := true;
            cmd := TakeOff;
          } else {
            started := false;
            cmd := Land;
          }
        case _ =>
      }
    }

    /** One iteration of the `Start` loop: a mapped character is sent and the key
        is ignored; otherwise the parsed key's command, if any, is sent, and after
        `Exit` the flag is cleared and the channel closed. */
    method HandleEvent(ev: Event) returns (exit: bool)
      requires !commands.closed
      modifies this, commands
      ensures var r := KeyboardStep(old(started), ev);
        && started == r.started
        && commands.sent == old(commands.sent) + r.sent
        && commands.closed == r.closed
        && exit == r.closed
    {
      exit := false;
      var cmd := ParseCharacter(ev.ch);
      if cmd != None {
        commands.Send(cmd);
        return;
      }
      cmd := ParseKey(ev.key);
      if cmd == None {
        return;
      }
      commands.Send(cmd);
      if cmd == Exit {
        started := false;
        commands.Close();
        exit := true;
      }
    }

    /** `Start`, over the events it polls: handles them in order and returns once
        one has closed the channel. `consumed` is the number of events polled. */
    method Start(events: seq<Event>) returns (consumed: nat)
      requires !commands.closed
      modifies this, commands
      ensures var r := Run(KeyboardStep, old(started), events);
        && started == r.started
        && commands.sent == old(commands.sent) + r.sent
        && commands.closed == r.closed
        && consumed == r.consumed
    {
      ghost var total := Run(KeyboardStep, started, events);
      consumed := 0;
      while consumed < |events|
        invariant consumed <= |events|
        invariant !commands.closed
        invariant After(commands.sent, consumed, Run(KeyboardStep, started, events[consumed..]))
          == After(old(commands.sent), 0, total)
      {
        RunAdvance(KeyboardStep, started, events, consumed, commands.sent);
        var exit := HandleEvent(events[consumed]);
        consumed := consumed + 1;
        if exit {
          return;
        }
      }
      RunDone(KeyboardStep, started, events, commands.sent);
    }
  }
}

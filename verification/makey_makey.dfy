/** The MakeyMakey board input source (input/makey_makey.go): a smaller variant
    of the keyboard, driven by keys alone. */
module InputMakeyMakey {
  import opened InputCommand
  import opened Termbox
  import opened InputSource
  import W = Wrappers
  import InputKeyboard
  import Channels

  /** The keys that end the session: a left click, or the key the keyboard
      source turns into `Exit`. */
  predicate IsExitKey(key: Key)
    ensures IsExitKey(key) <==> key == MouseLeft || InputKeyboard.KeyTransition(false, key).cmd == Exit
  {
    key == MouseLeft || key == CtrlC
  }

  /** `parseKey` as a function of the flag before the call: an exit key clears the
      flag and closes the channel without sending anything; an arrow sends its
      movement; Space toggles the flag and sends TakeOff or Land; any other key
      does nothing. */
  function MakeyKey(started: bool, key: Key): (r: Reaction)
    ensures r.closed <==> IsExitKey(key)
    ensures r.closed ==> r == Reaction(false, [], true)
    ensures |r.sent| <= 1
  {
    match key
    case MouseLeft => Reaction(false, [], true)
    case CtrlC => Reaction(false, [], true)
    case ArrowUp => Reaction(started, [Forward], false)
    case ArrowDown => Reaction(started, [Backward], false)
    case ArrowLeft => Reaction(started, [Left], false)
    case ArrowRight => Reaction(started, [Right], false)
    case Space => if !started then Reaction(true, [TakeOff], false) else Reaction(false, [Land], false)
    case _ => Reaction(started, [], false)
  }

  /** One iteration of the `Start` loop, which looks only at the event's key: it
      closes the channel exactly on an exit key, and then the flag is clear. */
  function MakeyStep(started: bool, ev: Event): (r: Reaction)
    ensures r.closed <==> IsExitKey(ev.key)
    ensures r.closed ==> !r.started
  {
    MakeyKey(started, ev.key)
  }

  /** Apart from the exit keys, only Space changes the flag, and it sends TakeOff
      when the flag was clear and Land when it was set; the page keys and every
      unlisted key send nothing and leave the flag alone. */
  lemma MakeyKeyCases(started: bool, key: Key)
    ensures !IsExitKey(key) ==> (MakeyKey(started, key).started != started <==> key == Space)
    ensures MakeyKey(started, Space).sent == (if started then [Land] else [TakeOff])
    ensures key == PgUp || key == PgDn || key.Other? ==> MakeyKey(started, key) == Reaction(started, [], false)
  {
  }

  /** Apart from the exit keys, the board behaves like the keyboard's `parseKey`
      with the page keys removed: same flag, and the keyboard's command is sent
      exactly when it is not `None`. */
  lemma MakeyAgreesWithKeyboard(started: bool, key: Key)
    requires !IsExitKey(key) && key != PgUp && key != PgDn
    ensures MakeyKey(started, key).started == InputKeyboard.KeyTransition(started, key).started
    ensures MakeyKey(started, key).sent ==
      (if InputKeyboard.KeyTransition(started, key).cmd == None then []
       else [InputKeyboard.KeyTransition(started, key).cmd])
  {
  }

  /** `Start` returns on the first exit key and polls nothing after it. */
  lemma MakeyStopsAtFirstExit(started: bool, events: seq<Event>)
    ensures var r := Run(MakeyStep, started, events);
      && (r.closed ==>
            && 0 < r.consumed
            && IsExitKey(events[r.consumed - 1].key)
            && forall j :: 0 <= j < r.consumed - 1 ==> !IsExitKey(events[j].key))
      && (!r.closed ==> forall j :: 0 <= j < |events| ==> !IsExitKey(events[j].key))
  {
    forall s, ev ensures MakeyStep(s, ev).closed == IsExitKey(ev.key) {
      MakeyKeyCases(s, ev.key);
    }
    RunStopsAtFirstExit(MakeyStep, (ev: Event) => IsExitKey(ev.key), started, events);
  }

  /** The board sends only TakeOff, Land and the four horizontal movements; in
      particular it never sends `Exit`: it closes the channel instead. */
  lemma {:induction false} MakeyVocabulary(started: bool, events: seq<Event>)
    ensures forall c :: c in Run(MakeyStep, started, events).sent ==>
      c in {TakeOff, Land, Forward, Backward, Left, Right}
    decreases |events|
  {
    if events != [] {
      var r0 := MakeyStep(started, events[0]);
      if !r0.closed {
        MakeyVocabulary(r0.started, events[1..]);
      }
    }
  }

  /** The commands sent alternate TakeOff and Land starting from the initial flag;
      while the channel is open the flag is the one that alternation ends with,
      and once it is closed the flag is clear. */
  lemma MakeyKeepsToggle(started: bool, events: seq<Event>)
    ensures Replay(started, Run(MakeyStep, started, events).sent).Some?
    ensures !Run(MakeyStep, started, events).closed ==>
      Replay(started, Run(MakeyStep, started, events).sent) == W.Some(Run(MakeyStep, started, events).started)
    ensures Run(MakeyStep, started, events).closed ==> !Run(MakeyStep, started, events).started
  {
    forall s, ev
      ensures Replay(s, MakeyStep(s, ev).sent).Some?
      ensures !MakeyStep(s, ev).closed ==> Replay(s, MakeyStep(s, ev).sent) == W.Some(MakeyStep(s, ev).started)
      ensures MakeyStep(s, ev).closed ==> !MakeyStep(s, ev).started
    {
      var r := MakeyStep(s, ev);
      if |r.sent| == 1 {
        assert r.sent[1..] == [];
      }
    }
    RunKeepsToggle(MakeyStep, started, events);
    RunClosedNotStarted(MakeyStep, started, events);
  }

  /** The MakeyMakey source; `commands` is the channel the robot reads. */
  class MakeyMakey {
    const commands: Channels.Channel<Command>
    const verbose: bool
    var started: bool

    /** `NewKMakeyMakey`. */
    constructor (verbose: bool)
      ensures this.verbose == verbose && !started
      ensures fresh(commands) && commands.sent == [] && !commands.closed
    {
      commands := new Channels.Channel<Command>();
      this.verbose := verbose;
      started := false;
    }

    /** `parseKey`: reacts to one key and reports whether the session is over. */
    method ParseKey(key: Key) returns (exit: bool)
      requires !commands.closed
      modifies this, commands
      ensures var r := MakeyKey(old(started), key);
        && started == r.started
        && commands.sent == old(commands.sent) + r.sent
        && commands.closed == r.closed
        && exit == r.closed
    {
      exit := false;
      match key {
        case MouseLeft =>
          started := false;
          commands.Close();
          exit := true;
        case CtrlC =>
          started := false;
          commands.Close();
          exit := true;
        case ArrowUp => commands.Send(Forward);
        case ArrowDown => commands.Send(Backward);
        case ArrowLeft => commands.Send(Left);
        case ArrowRight => commands.Send(Right);
        case Space =>
          if !started {
            started := true;
            commands.Send(TakeOff);
          } else {
            started := false;
            commands.Send(Land);
          }
        case _ =>
      }
    }

    /** `Start`, over the events it polls: parses each key in turn and returns on
        the first one that ends the session. `consumed` is the number of events polled. */
    method Start(events: seq<Event>) returns (consumed: nat)
      requires !commands.closed
      modifies this, commands
      ensures var r := Run(MakeyStep, old(started), events);
        && started == r.started
        && commands.sent == old(commands.sent) + r.sent
        && commands.closed == r.closed
        && consumed == r.consumed
    {
      ghost var total := Run(MakeyStep, started, events);
      consumed := 0;
      while consumed < |events|
        invariant consumed <= |events|
        invariant !commands.closed
        invariant After(commands.sent, consumed, Run(MakeyStep, started, events[consumed..]))
          == After(old(commands.sent), 0, total)
      {
        RunAdvance(MakeyStep, started, events, consumed, commands.sent);
        var exit := ParseKey(events[consumed].key);
        consumed := consumed + 1;
        if exit {
          return;
        }
      }
      RunDone(MakeyStep, started, events, commands.sent);
    }
  }
}

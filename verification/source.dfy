/** What the input sources have in common: a `Start` loop that polls events, lets
    each one update a `started` flag and send commands, and returns once an event
    has closed the command channel. */
module InputSource {
  import opened InputCommand
  import opened Termbox
  import W = Wrappers

  /** A source's reaction to one event: its `started` flag afterwards, the commands
      it sends, in order, and whether it closed its channel. */
  datatype Reaction = Reaction(started: bool, sent: seq<Command>, closed: bool)

  /** What a `Start` loop did with a sequence of events: the flag afterwards, all
      commands sent, whether the channel was closed, and how many events were polled. */
  datatype Session = Session(started: bool, sent: seq<Command>, closed: bool, consumed: nat)

  /** Runs a source's per-event reaction over the events until one closes the
      channel or the events run out. */
  function Run(step: (bool, Event) -> Reaction, started: bool, events: seq<Event>): (s: Session)
    ensures s.consumed <= |events|
    ensures !s.closed ==> s.consumed == |events|
    decreases |events|
  {
    if events == [] then Session(started, [], false, 0)
    else
      var r := step(started, events[0]);
      if r.closed then Session(r.started, r.sent, true, 1)
      else
        var rest := Run(step, r.started, events[1..]);
        Session(rest.started, r.sent + rest.sent, rest.closed, 1 + rest.consumed)
  }

  /** The session of a whole run, given what was sent and how many events were
      polled before the remaining run `rest`. */
  function After(done: seq<Command>, consumed: nat, rest: Session): Session
  {
    Session(rest.started, done + rest.sent, rest.closed, consumed + rest.consumed)
  }

  /** Handling event `i` of a run: if its reaction closes the channel the run is
      over, otherwise the reaction moves from the remaining run into what was done. */
  lemma RunAdvance(step: (bool, Event) -> Reaction, started: bool, events: seq<Event>, i: nat, done: seq<Command>)
    requires i < |events|
    ensures var r := step(started, events[i]);
      After(done, i, Run(step, started, events[i..])) ==
        if r.closed then Session(r.started, done + r.sent, true, i + 1)
        else After(done + r.sent, i + 1, Run(step, r.started, events[i + 1..]))
  {
    assert events[i..][0] == events[i];
    assert events[i..][1..] == events[i + 1..];
    var r := step(started, events[i]);
    if !r.closed {
      var rest := Run(step, r.started, events[i + 1..]);
      assert done + (r.sent + rest.sent) == (done + r.sent) + rest.sent;
    }
  }

  /** A run with no events left adds nothing to what was done. */
  lemma RunDone(step: (bool, Event) -> Reaction, started: bool, events: seq<Event>, done: seq<Command>)
    ensures After(done, |events|, Run(step, started, events[|events|..])) == Session(started, done, false, |events|)
  {
    assert events[|events|..] == [];
    assert done + [] == done;
  }

  /** Replays the take-off/land toggle over a stream of sent commands: the flag
      afterwards, or nothing when a TakeOff is sent while started or a Land while
      not started. `Exit` resets the flag, as the keyboard does when it sends it. */
  function Replay(started: bool, sent: seq<Command>): W.Option<bool>
    decreases |sent|
  {
    if sent == [] then W.Some(started)
    else match sent[0]
      case TakeOff => if started then W.None else Replay(true, sent[1..])
      case Land => if started then Replay(false, sent[1..]) else W.None
      case Exit => Replay(false, sent[1..])
      case _ => Replay(started, sent[1..])
  }

  /** Replaying a concatenation replays the second part from where the first ended. */
  lemma {:induction false} ReplayAppend(started: bool, a: seq<Command>, b: seq<Command>)
    ensures Replay(started, a + b) ==
      (if Replay(started, a).Some? then Replay(Replay(started, a).value, b) else W.None)
    decreases |a|
  {
    if a != [] {
      assert (a + b)[0] == a[0];
      assert (a + b)[1..] == a[1..] + b;
      match a[0]
      case TakeOff => if !started { ReplayAppend(true, a[1..], b); }
      case Land => if started { ReplayAppend(false, a[1..], b); }
      case Exit => ReplayAppend(false, a[1..], b);
      case _ => ReplayAppend(started, a[1..], b);
    } else {
      assert a + b == b;
    }
  }

  /** A stream that replays and ends with `Exit` ends with the flag clear. */
  lemma ReplayEndsWithExit(started: bool, sent: seq<Command>)
    requires sent != [] && sent[|sent| - 1] == Exit
    requires Replay(started, sent).Some?
    ensures Replay(started, sent) == W.Some(false)
  {
    var prefix := sent[..|sent| - 1];
    assert sent == prefix + [Exit];
    ReplayAppend(started, prefix, [Exit]);
    assert [Exit][1..] == [];
  }

  /** When exactly the events satisfying `isExit` close the channel, the loop polls
      up to and including the first such event and no further. */
  lemma {:induction false} RunStopsAtFirstExit(
    step: (bool, Event) -> Reaction, isExit: Event -> bool, started: bool, events: seq<Event>)
    requires forall s, ev :: step(s, ev).closed == isExit(ev)
    ensures var r := Run(step, started, events);
      && (r.closed ==>
            && 0 < r.consumed
            && isExit(events[r.consumed - 1])
            && forall j :: 0 <= j < r.consumed - 1 ==> !isExit(events[j]))
      && (!r.closed ==> forall j :: 0 <= j < |events| ==> !isExit(events[j]))
    decreases |events|
  {
    if events != [] {
      var r0 := step(started, events[0]);
      if !r0.closed {
        RunStopsAtFirstExit(step, isExit, r0.started, events[1..]);
        var rest := Run(step, r0.started, events[1..]);
        forall j | 0 <= j < |events| && (rest.closed ==> j < rest.consumed)
          ensures !isExit(events[j]) || (rest.closed && j == rest.consumed)
        {
          if j > 0 {
            assert events[j] == events[1..][j - 1];
          }
        }
      }
    }
  }

  /** A reaction that never breaks the toggle keeps it over a whole run: the
      commands sent alternate TakeOff and Land as the flag says, and while the
      channel is open the flag is the one the replay ends with. */
  lemma {:induction false} RunKeepsToggle(step: (bool, Event) -> Reaction, started: bool, events: seq<Event>)
    requires forall s, ev :: Replay(s, step(s, ev).sent).Some?
    requires forall s, ev :: !step(s, ev).closed ==> Replay(s, step(s, ev).sent) == W.Some(step(s, ev).started)
    ensures Replay(started, Run(step, started, events).sent).Some?
    ensures !Run(step, started, events).closed ==>
      Replay(started, Run(step, started, events).sent) == W.Some(Run(step, started, events).started)
    decreases |events|
  {
    if events != [] {
      var r0 := step(started, events[0]);
      if !r0.closed {
        RunKeepsToggle(step, r0.started, events[1..]);
        ReplayAppend(started, r0.sent, Run(step, r0.started, events[1..]).sent);
      }
    }
  }

  /** A reaction that clears the flag whenever it closes leaves it cleared at the end of a closed run. */
  lemma {:induction false} RunClosedNotStarted(step: (bool, Event) -> Reaction, started: bool, events: seq<Event>)
    requires forall s, ev :: step(s, ev).closed ==> !step(s, ev).started
    ensures Run(step, started, events).closed ==> !Run(step, started, events).started
    decreases |events|
  {
    if events != [] && !step(started, events[0]).closed {
      RunClosedNotStarted(step, step(started, events[0]).started, events[1..]);
    }
  }
}

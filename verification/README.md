# gophobotics command layer in Dafny

This project models the command layer of gophobotics. That layer sits between a drone and its input devices:

- **Command enumeration** (`input/command.go`): the command constants, their names and the rotation test.
- **Verbosity parsing** (`input/verbosity.go`): turns a count of `-v` flags into a level.
- **Keyboard input** (`input/keyboard.go`): a terminal keyboard source. Characters and keys become commands, Space toggles between take-off and landing, and Ctrl+C sends `Exit` and closes the command channel.
- **MakeyMakey input** (`input/makey_makey.go`): a smaller variant of the keyboard source, driven by keys only. A left click or Ctrl+C closes the channel without sending anything.
- **Tello robot** (`robot/tello.go`):
  - `NewTello` fixes the move magnitude.
  - `executeCommand` maps each command to at most one driver call.
  - The command loop of `Connect` executes each command, forwards its error, hovers, and ceases rotation after a rotation. When the stream ends it lands and closes the error channel.

## How the model is built

- **Channels.** A Go channel is a `Channels.Channel<T>` object. It holds the sequence of values sent on it and a closed flag. `Send` and `Close` require the channel to be open, because Go panics in both cases otherwise. So every proof that uses them also proves that the modelled senders close a channel at most once and after their last send.
- **The drone.** The driver is a trace (`seq<Drone.Op>`) of the calls made on it.
- **Driver failures.** Whether a driver call fails is given as a parameter: one flag per command, plus one for the final landing.
- **Terminal events.** Events are values of `Termbox.Event`.
- **Input sources.** Each source's `Start` loop is a method over a finite sequence of events. The same loop is also specified by the function `InputSource.Run`, which folds the source's one-event step function over the events. Both sources are proved against `Run`.
- **The keyboard's toggle.** `InputSource.Replay` replays the sent commands to recompute the take-off/land flag. This is how the lemmas state that the flag always agrees with the commands already sent.

Where the code and its descriptions disagree, the model follows the code:

- `Exit` is sent by the keyboard source (`input/keyboard.go:61`, `:109`). It is not among the constants at `input/command.go:5-25`. The model adds it as an extra constructor without a numeric code. Its name renders as "Unknown", as the `default` branch does.
- `keyMap` maps rune 74 (`'J'`) to `Up` (`input/keyboard.go:10`). The help text advertises `U`, which the map leaves unmapped. The help text also lists F1-F5 flips, and no code maps them. The model follows the map.
- The loop hovers after every command, including `TakeOff`, `Land`, failed commands, `None` and `Exit` (`robot/tello.go:61-62`). `Exit` reaches the robot as an ordinary command and causes no driver call.
- The shown `robot/tello.go` has no limit on the number of moves. The model has none either.
- Shutdown ends with a `Land` call and then closes the error channel. There is no final hover or halt.

## Model

| member | source | states |
|---|---|---|
| InputCommand.Code | input/command.go:5-25 | every declared constant has an `iota` code in 0..16; only the undeclared `Exit` has none |
| InputCommand.FromCode | input/command.go:3-25 | exactly the raw `int8` values 0..16 stand for a declared constant, and that constant's code is the value (value → constant → code is the identity) |
| InputCommand.CodesFollowDeclarationOrder | input/command.go:5-25 | `iota`: the constant at position i of the declaration has code i, for all seventeen, and exactly the declared constants have a code |
| InputCommand.CodesAreConsecutive | input/command.go:5-25 | constant → code → constant is the identity, so with `FromCode` the constants occupy the codes 0..16 one each |
| InputCommand.String | input/command.go:27-64 | the name is "Unknown" exactly for `None` (and the undeclared `Exit`); every other command has its own name |
| InputCommand.CodeString | input/command.go:27-64 | `String` on a raw `int8` receiver: "Unknown" exactly when the value is not one of the codes 1..16 |
| InputCommand.StringTable | input/command.go:28-60 | each of TakeOff..Bounce gets its own fixed name, TakeOff → "Takeoff" and every other one its constant's name |
| InputCommand.StringInjective | input/command.go:28-60 | two commands with the same known name are the same command |
| InputCommand.IsRotation | input/command.go:66-68 | holds exactly for the commands with codes 10 and 11, RotateRight and RotateLeft |
| RobotTello.RotationIsTurn | input/command.go:66-68 | `IsRotation` holds exactly for the commands that the robot turns into `Clockwise`/`CounterClockwise`, i.e. RotateRight and RotateLeft |
| InputVerbosity.Level | input/verbosity.go:3-9 | the `iota` code of a level, which lies in 0..2 |
| InputVerbosity.ParseVerbosity | input/verbosity.go:11-19 | VeryVerbose iff the count is ≥ 2, Verbose iff it is 1, NonVerbose iff it is ≤ 0 |
| InputVerbosity.ParseVerbosityMonotone | input/verbosity.go:5-19 | more flags never give a lower level, in the `iota` order of the levels |
| InputVerbosity.ParseVerbosityOfLevel | input/verbosity.go:5-19 | parsing a level's own code gives back that level |
| InputKeyboard.ParseCharacter | input/keyboard.go:70-75 | a character gives a command other than None exactly when it is a key of `keyMap` (input/keyboard.go:8-17), and only Up, Down, RotateLeft or RotateRight |
| InputKeyboard.ParseCharacterTable | input/keyboard.go:8-17 | `parseCharacter` maps exactly the eight runes of `keyMap` to a command other than None (u/J → Up, d/D → Down, l/L → RotateLeft, r/R → RotateRight); every other rune, `'U'` included, gives None |
| InputKeyboard.KeyTransition | input/keyboard.go:104-141 | `parseKey` from the flag before the call: only Space changes the flag, and only Ctrl+C gives Exit |
| InputKeyboard.SpaceToggles | input/keyboard.go:127-134 | Space sends TakeOff when not started and Land when started; two Spaces restore the flag |
| InputKeyboard.KeyTransitionTable | input/keyboard.go:104-135 | arrows map to Forward/Backward/Left/Right, PgUp/PgDn to Up/Down and Ctrl+C to Exit; a key gives None exactly when it is not listed |
| InputKeyboard.CharacterBeforeKey | input/keyboard.go:47-50 | an event whose character is mapped sends that command, with the flag untouched and key parsing skipped |
| InputKeyboard.KeyAfterCharacter | input/keyboard.go:52-56 | for an event whose character is unmapped, a None from `parseKey` sends nothing and keeps `parseKey`'s flag, and any other command is sent as is (with `parseKey`'s flag, unless it is Exit) |
| InputKeyboard.IsExitEvent | input/keyboard.go:47-63 | an event ends the loop exactly when its character is unmapped and its key parses to Exit |
| InputKeyboard.KeyboardStep | input/keyboard.go:46-66 | one loop iteration sends at most one command and closes the channel exactly on an exit event |
| InputKeyboard.StepClosesOnExit | input/keyboard.go:52-66 | one event never sends None; it closes the channel iff it sends Exit, and then Exit is all it sends and the flag is cleared |
| InputKeyboard.StepVocabulary | input/keyboard.go:47-56 | one event sends only a movement, a rotation, TakeOff, Land or Exit |
| InputKeyboard.KeyboardStopsAtFirstExit | input/keyboard.go:45-67 | the loop consumes events up to and including the first exit event and no further; without one it consumes them all and leaves the channel open |
| InputKeyboard.KeyboardExitIsLast | input/keyboard.go:56-66 | Exit is sent at most once, and only as the last command, exactly when the channel ends closed |
| InputKeyboard.KeyboardVocabulary | input/keyboard.go:104-135 | the keyboard never sends None, PalmLand, a flip or Bounce |
| InputKeyboard.StepKeepsToggle | input/keyboard.go:47-66 | after one event, the flag equals the take-off/land replay of what that event sent |
| InputKeyboard.KeyboardKeepsToggle | input/keyboard.go:127-134 | over any run, the flag equals the replay of the sent TakeOff/Land commands (reset by Exit) |
| InputKeyboard.KeyboardClosedNotStarted | input/keyboard.go:61-63 | when the channel has been closed, the flag is false |
| InputKeyboard.Keyboard.constructor | input/keyboard.go:27-32 | a new keyboard has the given verbosity, is not started and owns a fresh open channel with nothing sent |
| InputKeyboard.Keyboard.ParseKey | input/keyboard.go:104-141 | the command returned and the new flag are those of the key table |
| InputKeyboard.Keyboard.HandleEvent | input/keyboard.go:46-66 | one loop iteration appends exactly what the step function sends, updates the flag, and closes the channel iff it reports exit |
| InputKeyboard.Keyboard.Start | input/keyboard.go:38-68 | the channel, the flag and the number of events consumed are exactly those of the specification `Run` over the events |
| InputMakeyMakey.IsExitKey | input/makey_makey.go:51 | the exit keys are a left click and the key the keyboard source turns into Exit (Ctrl+C) |
| InputMakeyMakey.MakeyKey | input/makey_makey.go:48-75 | `parseKey` from the flag before the call: it closes the channel exactly on an exit key, and then clears the flag and sends nothing; it sends at most one command |
| InputMakeyMakey.MakeyStep | input/makey_makey.go:35-44 | one loop iteration reacts to the event's key only; it closes exactly on an exit key, and then the flag is clear |
| InputMakeyMakey.MakeyKeyCases | input/makey_makey.go:56-74 | apart from the exit keys, only Space changes the flag; Space sends TakeOff when the flag was clear and Land when it was set; PgUp, PgDn and every unlisted key send nothing and leave the flag alone |
| InputMakeyMakey.MakeyAgreesWithKeyboard | input/makey_makey.go:56-72 | apart from the exit keys and the page keys, the board sends exactly the keyboard's non-None command and sets the same flag |
| InputMakeyMakey.MakeyStopsAtFirstExit | input/makey_makey.go:35-45 | `Start` returns on the first exit key and consumes nothing after it, so the channel is closed at most once |
| InputMakeyMakey.MakeyVocabulary | input/makey_makey.go:48-75 | the board only ever sends Forward, Backward, Left, Right, TakeOff or Land |
| InputMakeyMakey.MakeyKeepsToggle | input/makey_makey.go:65-72 | the flag equals the replay of the sent TakeOff/Land commands, and it is false once the channel is closed |
| InputMakeyMakey.MakeyMakey.constructor | input/makey_makey.go:16-21 | a new board has the given verbose flag, is not started and owns a fresh open channel |
| InputMakeyMakey.MakeyMakey.ParseKey | input/makey_makey.go:48-75 | the flag, the sent commands and the closing of the channel follow the key table; the result is true iff the channel was closed |
| InputMakeyMakey.MakeyMakey.Start | input/makey_makey.go:27-46 | the channel, the flag and the events consumed are exactly those of `Run` over the events |
| InputSource.Run | input/makey_makey.go:35-45 | the loop never consumes more events than exist, and it consumes them all whenever it does not close the channel |
| InputSource.RunStopsAtFirstExit | input/keyboard.go:45-67 | for any step function that closes exactly on exit events, the run stops right after the first exit event |
| InputSource.RunKeepsToggle | input/keyboard.go:127-134 | a step function that keeps the flag equal to the replay of its own sends keeps it so over a whole run |
| InputSource.RunClosedNotStarted | input/makey_makey.go:51-54 | a step function that clears the flag whenever it closes leaves a closed run not started |
| RobotTello.Dispatch | robot/tello.go:89-127 | `executeCommand`'s driver call: none exactly for None and Exit, and otherwise a call that carries out that very command (it maps back to it) |
| RobotTello.DispatchRoundTrip | robot/tello.go:89-127 | a dispatched call carries the magnitude `move` if it has one and is never Hover or CeaseRotation; conversely every call that carries out a command with magnitude `move` is the one dispatched for it |
| RobotTello.Execute | robot/tello.go:89-127 | `executeCommand` returns an error exactly when a call is made (the command is neither None nor Exit) and that call fails, and the error names the dispatched call |
| RobotTello.DispatchMoves | robot/tello.go:98-113 | Left/Right/Forward/Backward/Up/Down call the matching driver operation with `move`; RotateRight calls Clockwise(move) and RotateLeft CounterClockwise(move) |
| RobotTello.DispatchManoeuvres | robot/tello.go:91-124 | TakeOff, Land, PalmLand, the four flips and Bounce each call their own operation, which has no magnitude |
| RobotTello.Calls | robot/tello.go:57-65 | defined as the calls for one command; their order is proved by `CallsOrder` and their counts by `CallsCounts` |
| RobotTello.LoopTrace | robot/tello.go:56-66 | defined as the calls of every command in stream order; its counts and order are proved by `LoopTraceCounts`, `LoopTraceAppend` and `SessionTraceOrder` |
| RobotTello.LoopErrors | robot/tello.go:56-60 | the loop pushes at most one error per command |
| RobotTello.SessionTrace | robot/tello.go:56-72 | a session's calls are never empty and end with the final Land |
| RobotTello.SessionErrors | robot/tello.go:56-72 | a session pushes at most one error per command plus one, and the last is the Land failure when the final Land fails |
| RobotTello.LoopStep | robot/tello.go:56-66 | one more command of the stream appends its calls and its error, if any, after everything recorded before |
| RobotTello.LoopTraceAppend | robot/tello.go:56-66 | the calls for a stream are the calls for its parts, in stream order |
| RobotTello.SessionTraceOrder | robot/tello.go:56-72 | the k-th command's calls (in the order `CallsOrder` states) come after those of all earlier commands and before the rest, and Land comes last |
| RobotTello.CallsOrder | robot/tello.go:57-65 | one command's calls come in the loop's order: the dispatched call first, if any, then Hover, and CeaseRotation last for a rotation; nothing else is called |
| RobotTello.CallsCounts | robot/tello.go:57-65 | one command causes exactly one Hover, one CeaseRotation iff it is a rotation, and a Land only if it is Land |
| RobotTello.LoopTraceCounts | robot/tello.go:61-65 | the loop hovers once per command and ceases rotation once per rotation command |
| RobotTello.SessionLands | robot/tello.go:68-71 | a session makes exactly one Land more than the stream holds |
| RobotTello.SessionMagnitude | robot/tello.go:23-29 | every call that carries a magnitude carries the `move` fixed at construction |
| RobotTello.ErrorsFromCalls | robot/tello.go:57-60 | every reported error belongs to a call made in the loop, and there are none when no call fails |
| RobotTello.ExitThenLand | robot/tello.go:56-71 | a stream that ends in Exit ends the session with Hover then Land |
| RobotTello.KeyboardSessionEndsLanded | robot/tello.go:61-71 | a keyboard session ended by an exit event (which sends Exit last) ends on the drone with Hover then the final Land |
| RobotTello.Tello.constructor | robot/tello.go:23-30 | a new robot has the given magnitude and video flag, an open error channel with nothing sent, and no driver calls |
| RobotTello.Tello.ExecuteCommand | robot/tello.go:89-127 | it makes the dispatched call (or none) and returns an error exactly when that call fails |
| RobotTello.Tello.Handle | robot/tello.go:57-65 | one iteration appends the command's calls and forwards its error, if any, leaving the channel open |
| RobotTello.Tello.Shutdown | robot/tello.go:68-72 | shutdown calls Land, forwards its error, if any, and then closes the error channel |
| RobotTello.Tello.Serve | robot/tello.go:56-66 | the `range` loop appends exactly the calls and errors of the stream's commands, in stream order, and leaves the error channel open |
| RobotTello.Tello.Connect | robot/tello.go:56-73 | the driver calls and reported errors are exactly the session's, in stream order, and the error channel ends closed after the last report |
| Channels.Channel.constructor | robot/tello.go:27 | `make(chan …)`: a new channel is open and nothing has been sent on it |
| Channels.Channel.Send | robot/tello.go:59 | a send on an open channel appends the value and leaves it open |
| Channels.Channel.Close | robot/tello.go:72 | closing an open channel keeps what was sent and marks it closed |

## Left out

- Terminal I/O is not modelled. This covers termbox initialisation (and the error `Start` returns when it fails), the input mode, clearing, closing, polling and help printing. Events are given as a finite sequence. Where the real loop blocks waiting for more events, the model's `Start` returns when the sequence runs out.
- Verbose and very-verbose printing is not modelled (`input/keyboard.go:57-59`, `:137-139`, `input/makey_makey.go:38-40`). It prints only. The `verbosity` and `verbose` fields are kept.
- The `Commands()` and `Errors()` accessors are not modelled as members. They only return the channel, which the model exposes as the `commands` and `errors` fields.
- Concurrency is not modelled: goroutines, `sync.WaitGroup`, channel blocking, and the deadlock when nobody reads the error channel. A channel is the sequence of values sent on it.
- `time.Sleep` is not modelled. It affects timing only.
- The gobot robot start-up and the driver's own behaviour are not modelled. A driver call is recorded in the trace, and whether it fails is a parameter.
- Video is not modelled. This covers `startVideo`, the mplayer process and the video callbacks in `robot/tello.go`, and output/video.go. The `enableVideo` field is kept.
- robot/echo.go, prnt/emotify.go and cmd/*/main.go are not part of this model. They print, or they bootstrap a process.
- RobotTello.Calls and RobotTello.LoopTrace: carry no contracts of their own, which would make every proof that mentions them much more expensive. The one-command sequence is stated by CallsOrder and CallsCounts, and the whole-stream sequence by LoopTraceCounts, LoopTraceAppend and SessionTraceOrder.
- Go error values are abstracted to `Failure(op)`, which records the driver call that failed.
- RobotTello.Tello.Connect: models only the goroutine at robot/tello.go:53-74, so its contract holds when video is off or `startVideo` succeeded. When video is on and `startVideo` fails (robot/tello.go:41-45), `Connect` returns that error before the goroutine starts: no driver call is made, there is no final Land, and the error channel is never closed.
- RobotTello.Tello.Connect: the contract covers only the sends and driver calls of the command loop and the shutdown. With video on, the connection handler also sends on the error channel (robot/tello.go:151, :155) and calls the driver (:149, :153, and every 100 ms at :158-162). That handler runs on the framework's own task, and nothing orders its sends against the close at robot/tello.go:72. In the source a send after the close, and the panic it causes, is therefore possible. The model does not capture these extra errors and calls, nor that race.
- RobotTello.Tello.Connect: takes the command stream as a channel that is already closed, meaning its complete contents. The interleaving of the loop with a source that is still sending is not modelled.
- RobotTello.Tello.Connect: errors and driver calls are kept as two separate sequences. Their relative order in time is given only by each command's position in the stream.
- Runes are modelled as unbounded integers, not as 32-bit values. The key map uses only small runes.

# game-library: a Dafny model of the console game flow

This project models the core of the `GameLibrary` console game framework and
its two example games, and proves properties of that model.

- **`GameConsole`** drives a game through Ready, Set, Go!:
  - `Ready` shows the splash once.
  - `Set` waits for [Enter].
  - `Go` creates a game UI and runs Start, then the loop
    `do { if Action() { if !Continue() break } } while !GameOver()`, then End.
  - `Play` runs this once (`IfReady`) or as long as the console is ready
    (`WhileReady`).
- **`GameConsoleUX`** reads keys until one is on an allow-list. While
  `EscExit` is set, [Esc] ends the process.
- **`GameActionInfo`** is the envelope that carries an action's input, output
  and result as boxed values.
- **The 3-guesses game**: guess a secret from 1 to 10 in three tries.
- **The 3-seconds game**: stop a clock with [Spacebar] at 3000–3009 ms.

How the model is built:

- **The outside world is a `Host` object** (`terminal.dfy`). Every blocking
  read takes the next element of a finite stream: keys, keyboard polls with
  the stopwatch reading at each poll, typed lines, and the answers of a
  scripted UI.
- **Two ways a read can end without a value.** Running out of a stream, where
  the program would wait for ever, gives `Exhausted`. `Environment.Exit(0)`
  gives `Exited`.
- **Input loops share one reference definition.** Each blocking loop
  (`GetKey`, the guess prompt, the stop-the-clock poll) is proved against
  `Scanning.ReadUntil`, the read-until-valid scan.
- **A closed set of UIs stands in for `Go`'s type parameter.** `GameUIs.RoundUI`
  is one of three:
  - a scripted UI whose Start/Action/Continue/GameOver answers come from the
    host, so it stands for any UI at all;
  - the 3-guesses UI;
  - the 3-seconds UI.
- **`Go` records its calls in a ghost trace.** `RoundTrace.Run` is the
  automaton that says which call may come next. The ordering facts about a
  round are lemmas over the traces that automaton accepts.
- **`GameUIs.RoundInv` ties each example game's state to the trace.** From it
  follow two end-to-end facts:
  - "at most three guesses per round";
  - "End runs twice in the 3-seconds game".
- **Termination.** `WhileReady` has no `decreases *`. Every round takes at
  least the [Enter] key from the finite input, so the loop ends when the input
  does. With unbounded input it would run for ever, as the source does.

`Go` consults `GameOver` after every pass of its loop that did not break,
including one whose `Action` returned false, and the model does the same.

## Model

| member | source | states |
|---|---|---|
| Terminal.Host.ReadKey | src/GameLibrary/GameConsoleUX.cs:47 | takes the next key, or reports that none is left and changes nothing |
| Terminal.Host.ReadPoll | examples/GameConsole3Seconds/GameUI.cs:42 | one look at the keyboard takes the next poll and records the stopwatch reading at it; when no poll is left nothing changes |
| Terminal.Host.ReadLine | examples/GameConsole3Guesses/GameUI.cs:31 | takes the next typed line, or reports that none is left |
| Terminal.Host.NextValue | examples/GameConsole3Guesses/GamePlay.cs:19 | `Random.Shared.Next(min, max)` lies in `[min, max)`, or is `min` when the bounds are equal |
| Terminal.Host.Next | examples/GameConsole3Guesses/GamePlay.cs:19 | gives `NextValue` for the current draw and moves on to the next draw |
| Scanning.ReadUntil | src/GameLibrary/GameConsoleUX.cs:45-49 | a read-until-valid scan takes no more items than there are; a returned item is the last one taken, is accepted and does not cancel; an exit stops at a cancelling item; running out takes everything |
| Scanning.ReadUntilDrops | src/GameLibrary/GameConsoleUX.cs:47-49 | every item taken before the last, and every item when input runs out, was silently dropped |
| Scanning.ReadUntilStopsAtFirst | src/GameLibrary/GameConsoleUX.cs:45-49 | the scan stops exactly at the first item that cancels or is accepted |
| Scanning.ReadUntilExhaustedIff | src/GameLibrary/GameConsoleUX.cs:45-49 | the scan runs out of input if and only if every item is dropped |
| Scanning.ReadUntilSkip | src/GameLibrary/GameConsoleUX.cs:49 | a dropped leading item only shifts the rest of the scan by one |
| ConsoleUX.ScanKeysReturnsAllowed | src/GameLibrary/GameConsoleUX.cs:45-50 | `GetKey` returns only an allow-listed key that is not an exiting [Esc]; every key before it was neither |
| ConsoleUX.EscapeExitsFirst | src/GameLibrary/GameConsoleUX.cs:48 | with `EscExit` set, the first [Esc] ends the process before the allow-list is consulted, even when [Esc] is allow-listed |
| ConsoleUX.EscapeIsOrdinaryWithoutEscExit | src/GameLibrary/GameConsoleUX.cs:48-49 | with `EscExit` clear the read never exits, and it returns [Esc] only when [Esc] is allow-listed |
| ConsoleUX.YesAfterTwoStrayKeys | src/GameLibrary/GameConsoleUX.cs:47-49 | allowing {Y, N}, the keys X, X, Y give Y after three keys are taken |
| ConsoleUX.GameConsoleUX.constructor | src/GameLibrary/GameConsoleUX.cs:11-16 | `EscExit` is the argument, which defaults to true |
| ConsoleUX.GameConsoleUX.GetKey | src/GameLibrary/GameConsoleUX.cs:42-51 | the do-while read loop ends exactly as the reference scan `ScanKeys` does and consumes exactly the keys it takes |
| ConsoleUX.GameConsoleUX.GetSingleKey | src/GameLibrary/GameConsoleUX.cs:35 | `GetKey(k)` can only return `k` |
| ConsoleUX.GameConsoleUX.GetYN | src/GameLibrary/GameConsoleUX.cs:22 | returns only Y or N |
| ConsoleUX.GameConsoleUX.GetMove | src/GameLibrary/GameConsoleUX.cs:28 | returns only one of the four arrow keys |
| ConsoleUX.GameConsoleUX.GetKeyInfo | examples/GameConsole3Seconds/GameUI.cs:42 | one non-blocking poll: [Esc] exits, an allow-listed key info is returned, no key or any other key gives no value |
| ActionInfo.GetValueAs | src/GameLibrary/GameActionInfo.cs:60 | a cast that succeeds gives a value of the requested type, or null: the value itself at its own type, the key code when a `ConsoleKey` is read as an `int`, and the key with that code when an `int` is read as a `ConsoleKey` |
| ActionInfo.CastRule | src/GameLibrary/GameActionInfo.cs:60 | a non-null boxed value comes back unchanged at its own type; the only other cast that succeeds is between a `ConsoleKey` and an `int`, and reading the result back at the original type gives the value again |
| ActionInfo.GameActionInfo.constructor | src/GameLibrary/GameActionInfo.cs:11-31 | a fresh envelope has mode `GamePlay`, type `Control` and three null slots |
| ActionInfo.GameActionInfo.SetActionMode | src/GameLibrary/GameActionInfo.cs:11 | sets the mode and leaves the other four properties as they were |
| ActionInfo.GameActionInfo.SetActionType | src/GameLibrary/GameActionInfo.cs:16 | sets the type and leaves the other four properties as they were |
| ActionInfo.GameActionInfo.SetInput | src/GameLibrary/GameActionInfo.cs:21 | sets the input and leaves the other four properties as they were |
| ActionInfo.GameActionInfo.SetOutput | src/GameLibrary/GameActionInfo.cs:26 | sets the output and leaves the other four properties as they were |
| ActionInfo.GameActionInfo.SetResult | src/GameLibrary/GameActionInfo.cs:31 | sets the result and leaves the other four properties as they were |
| ActionInfo.GameActionInfo.GetInputAs | src/GameLibrary/GameActionInfo.cs:38 | read-only; requires a cast that does not throw; gives a value of the requested type, the stored input itself when it already has that type or is null |
| ActionInfo.GameActionInfo.GetOutputAs | src/GameLibrary/GameActionInfo.cs:45 | read-only; requires a cast that does not throw; gives a value of the requested type, the stored output itself when it already has that type or is null |
| ActionInfo.GameActionInfo.GetResultAs | src/GameLibrary/GameActionInfo.cs:52 | read-only; requires a cast that does not throw; gives a value of the requested type, the stored result itself when it already has that type or is null |
| ActionInfo.SlotsRoundTrip | src/GameLibrary/GameActionInfo.cs:21-52 | values set into the three slots of a fresh envelope come back from the getters at their own types |
| RoundTrace.StartComesFirst | src/GameLibrary/GameConsole.cs:169-180 | Start is the first call of a round and is never made again |
| RoundTrace.StartFalseSkipsLoop | src/GameLibrary/GameConsole.cs:170-180 | after Start returns false the only call is End: no Action, Continue or GameOver |
| RoundTrace.ContinueFollowsSuccessfulAction | src/GameLibrary/GameConsole.cs:174-176 | Continue is called only straight after an Action that returned true |
| RoundTrace.GameOverAfterEveryUnbrokenIteration | src/GameLibrary/GameConsole.cs:172-178 | GameOver follows every iteration that did not break, a failed Action included, and no other call |
| RoundTrace.LoopExitsExactly | src/GameLibrary/GameConsole.cs:170-180 | End follows a call exactly when that call is Start false, Continue false or GameOver true |
| RoundTrace.LoopExitIsLast | src/GameLibrary/GameConsole.cs:176-180 | after a call that leaves the loop, the round waits for End or has finished |
| RoundTrace.EndExactlyOnce | src/GameLibrary/GameConsole.cs:180 | End can only be the last call, and a round is complete exactly when it ends with End |
| RoundTrace.CompleteRoundShape | src/GameLibrary/GameConsole.cs:169-180 | a complete round ends with a loop-leaving call and then End, with no End before |
| RoundTrace.DriveFollowsRun | src/GameLibrary/GameConsole.cs:169-180 | a UI answering from a list of answers always makes a round `Go` accepts, and the round stops before End only when the answers run out |
| GameUIs.GuessesRound | examples/GameConsole3Guesses/GameUI.cs:37-47 | in a round of the 3-guesses game `Action` runs at most three times, and at the end the secret is still the one `Start` drew, in 1..10, since End does not clear it |
| GameUIs.SecondsRound | examples/GameConsole3Seconds/GameUI.cs:65-72 | in the 3-seconds game GameOver never answers true; a complete round ends with Continue false and End, and `GamePlay.End` has run twice |
| GameUIs.NewUI | src/GameLibrary/GameConsole.cs:169 | `new TGameUI()` gives a fresh UI of the requested kind whose state fits an empty round |
| GameUIs.Start | src/GameLibrary/GameConsole.cs:170 | Start moves the round to Action or End as it answers; the example games always start; the scripted UI uses one answer |
| GameUIs.Action | src/GameLibrary/GameConsole.cs:174 | Action moves the round to Continue or GameOver as it answers, and always consumes input when it returns |
| GameUIs.Continue | src/GameLibrary/GameConsole.cs:176 | Continue moves the round to GameOver or End as it answers |
| GameUIs.GameOver | src/GameLibrary/GameConsole.cs:178 | GameOver moves the round to End or back to Action as it answers; the example games always answer and change neither the host nor their own state |
| GameUIs.End | src/GameLibrary/GameConsole.cs:180 | End finishes the round and leaves the host untouched |
| Guesses.ScanLinesTakesFirstNumber | examples/GameConsole3Guesses/GameUI.cs:29-32 | the guess prompt never exits; it takes the first line that parses and skips every line before it |
| Guesses.GamePlay.constructor | examples/GameConsole3Guesses/GamePlay.cs:11-15 | a new game play has secret 0, is not won and has no tries |
| Guesses.GamePlay.Start | examples/GameConsole3Guesses/GamePlay.cs:17-23 | draws the secret in 1..10, clears the win and the tries, returns true |
| Guesses.GamePlay.Action | examples/GameConsole3Guesses/GamePlay.cs:25-30 | requires an input that reads as an `int`; one more try; won if and only if already won or that `int` equals the secret; the secret is kept; returns true |
| Guesses.GamePlay.Continue | examples/GameConsole3Guesses/GamePlay.cs:32-34 | another guess is allowed exactly when the game is not over |
| Guesses.GamePlay.GameOver | examples/GameConsole3Guesses/GamePlay.cs:34 | over exactly when won or out of tries |
| Guesses.GamePlay.End | examples/GameConsole3Guesses/GamePlay.cs:36 | clears the secret and changes nothing else |
| Guesses.WinOnSecondGuess | examples/GameConsole3Guesses/GamePlay.cs:17-34 | secret 7 with guesses 3 and 7 gives two tries, won, no further guess, game over |
| Guesses.LoseAfterThreeMisses | examples/GameConsole3Guesses/GamePlay.cs:17-34 | secret 7 with guesses 1, 2, 3 gives three tries, lost, no further guess, game over |
| Guesses.GameUI.constructor | examples/GameConsole3Guesses/GameUI.cs:13 | the UI owns a fresh game play |
| Guesses.GameUI.Render | examples/GameConsole3Guesses/GameUI.cs:15-19 | draws the header once more |
| Guesses.GameUI.Refresh | examples/GameConsole3Guesses/GameUI.cs:21 | renders |
| Guesses.GameUI.Start | src/GameLibrary/IGameUI.cs:34-36 | the default Start gives `GamePlay.Start()`'s result and renders if and only if it is true |
| Guesses.GameUI.Action | examples/GameConsole3Guesses/GameUI.cs:23-35 | skips lines that do not parse and plays the first number as a guess; when the input runs out the game play is untouched |
| Guesses.GameUI.Continue | examples/GameConsole3Guesses/GameUI.cs:37-47 | answers false without asking when no further guess is allowed; otherwise answers whether the player pressed Y |
| Guesses.GameUI.GameOver | src/GameLibrary/IGameUI.cs:75 | the default GameOver is the game play's: won or out of tries |
| Guesses.GameUI.End | examples/GameConsole3Guesses/GameUI.cs:49-66 | the override changes no state, so the secret is not cleared |
| Seconds.ScanPollsTakesSpace | examples/GameConsole3Seconds/GameUI.cs:38-43 | the stop prompt takes only an unmodified [Spacebar]; every poll before it saw no key, or a key other than that one and [Esc] |
| Seconds.GamePlay.constructor | examples/GameConsole3Seconds/GamePlay.cs:12-16 | a new game play has a stopped clock at zero, is not won and has not quit |
| Seconds.GamePlay.Start | examples/GameConsole3Seconds/GamePlay.cs:18-22 | starts the clock and returns true; nothing else changes |
| Seconds.GamePlay.Action | examples/GameConsole3Seconds/GamePlay.cs:24-31 | stops the clock, keeps the reading it had if it was already stopped, and wins if and only if the reading is 3000 to 3009 ms; returns true |
| Seconds.GamePlay.Continue | examples/GameConsole3Seconds/GamePlay.cs:33-38 | clears the win and restarts the clock from zero; returns true; does not touch `Quit` |
| Seconds.GamePlay.GameOver | examples/GameConsole3Seconds/GamePlay.cs:40 | over exactly when won or quit, so always over once quit |
| Seconds.GamePlay.End | examples/GameConsole3Seconds/GamePlay.cs:42 | sets `Quit` and changes nothing else |
| Seconds.QuitSticks | examples/GameConsole3Seconds/GamePlay.cs:33-42 | after End the game is over even after a later Continue, and a second End changes no field |
| Seconds.GameUI.constructor | examples/GameConsole3Seconds/GameUI.cs:11-15 | the header is not yet drawn and the UI owns a fresh game play |
| Seconds.GameUI.Render | examples/GameConsole3Seconds/GameUI.cs:17-30 | draws the header only while it is not on screen, then always the clock |
| Seconds.GameUI.Refresh | examples/GameConsole3Seconds/GameUI.cs:32 | renders: repeated refreshes draw the header at most once |
| Seconds.GameUI.Start | src/GameLibrary/IGameUI.cs:34-36 | the default Start starts the clock, returns true and renders |
| Seconds.GameUI.Action | examples/GameConsole3Seconds/GameUI.cs:34-46 | refreshes before every poll, ends as the reference poll scan does, and stops the clock with the reading taken at the [Spacebar] poll |
| Seconds.GameUI.Continue | examples/GameConsole3Seconds/GameUI.cs:48-73 | on Y clears the header flag, restarts the game and redraws, answering whether the game had not quit; on N ends the game play and answers false |
| Seconds.GameUI.GameOver | src/GameLibrary/IGameUI.cs:75 | the default GameOver is the game play's: won or quit |
| Seconds.GameUI.End | src/GameLibrary/IGameUI.cs:81 | the default End runs `GamePlay.End` and nothing else |
| Seconds.StopAtThreeSeconds | examples/GameConsole3Seconds/GameUI.cs:34-46 | polls of no key at 1000 ms, [A] at 2000 ms and [Spacebar] at 3004 ms win, with the clock drawn three times after Start and the header once |
| GameFlow.CyclesRepeat | src/GameLibrary/GameConsole.cs:86-90 | the steps of `while (Ready()) { Set(); Go(); }` are Ready, Set, Go repeated, starting and ending with Ready |
| GameFlow.Turn | src/GameLibrary/GameConsole.cs:172-178 | one pass of the do-while keeps the round invariant, says whether the loop goes round again, and consumes input when it does |
| GameFlow.GameConsole.constructor | src/GameLibrary/GameConsole.cs:21-53 | stores the name, copyright, description, splash text and ready mode; not ready yet |
| GameFlow.GameConsole.Splash | src/GameLibrary/GameConsole.cs:100-109 | shows the splash once more |
| GameFlow.GameConsole.Ready | src/GameLibrary/GameConsole.cs:126-134 | ready afterwards and answers true; the splash is shown only when it was not ready before |
| GameFlow.GameConsole.Set | src/GameLibrary/GameConsole.cs:140-145 | waits as `GetKey(Enter)` with [Esc] exiting; when it returns, the last key taken was [Enter] |
| GameFlow.GameConsole.Go | src/GameLibrary/GameConsole.cs:167-181 | one round on a fresh UI; the round invariant holds of its trace; it returns exactly when the round is complete, so after End; a scripted UI's round is exactly the one its answers drive |
| GameFlow.GameConsole.Play | src/GameLibrary/GameConsole.cs:59-95 | ready afterwards with the splash shown at most once; IfReady runs Ready, Set, Go once; WhileReady runs Ready, Set, Go over and over and ends only by an exit or the end of input |

## Left out

- Console output is not modelled: clearing, text, colours, cursor position and visibility. Only the control decisions are kept. `Render`, `Refresh` and `Splash` are counted as ghost effects.
- `Splash` contents: the assembly version, the current year and the texts it prints.
- Terminal.Host.NextValue: `Random.Shared` is an arbitrary stream of raw numbers brought into range, not the library's generator. `GameRandomizer.cs` is not part of this model.
- `Int32.TryParse` is an arbitrary partial function from lines to integers.
- Seconds.GamePlay.Action: the `Stopwatch` is a running flag and a reading. The reading comes from the host's poll at the moment the [Spacebar] is seen; wall-clock time between polls is not modelled.
- `Environment.Exit(0)` is the outcome `Exited`, not the end of the process.
- A blocking read on input that has run out gives the outcome `Exhausted`. The source would wait, or spin in the 3-guesses prompt, for ever.
- ConsoleUX.GameConsoleUX.GetKeyInfo: this method is not in the `GameConsoleUX.cs` the library ships with the examples. It is modelled from how the 3-seconds UI uses it: a single poll that applies the [Esc] check and the allow-list of key infos.
- Guesses.GameUI.Action: `GamePlay.Action` takes a `GameActionInfo` while the UI passes an `int`. The UI wraps the number into a fresh envelope's input slot, and the game play reads it back as an `int`.
- ActionInfo.GetValueAs: a cast that would throw, such as a `bool` read as an `int` or `null` read at a value type, is excluded by the precondition `CanCast` rather than modelled as an exception. The typed getters and `Guesses.GamePlay.Action` inherit that precondition.
- Boxed `int` values and `ConsoleKey` values range over 32 bits, as in .NET. `long` values are unbounded integers, since nothing in the core casts them.
- Guesses.GamePlay.Action: `Tries` is an unbounded integer. The 32-bit wrap-around after 2^31 tries is not modelled, since a round makes at most three.
- The `GamePlay` property of a game UI is settable in the source. Here it is a constant field, since nothing in the core replaces it.
- `SetText`, assigned at examples/GameConsole3Guesses/Game.cs:18, does not exist in `GameConsole`. The two `Game.cs` configuration classes are not part of this model.
- The asynchronous interfaces (`IGameUIAsync`, `IGamePlayAsync`, `IGameFlowAsync`) are not modelled. They add only task plumbing.
- The signature-only interfaces `IGameFlow` and `IGamePlay` are not modelled separately. The closed set of UIs in `GameUIs` plays their part.
- `Go`'s type parameter is a closed set: a scripted UI standing for any UI, plus the two example UIs. `Turn` is `Go`'s loop body taken out as a method of its own.
- The `default` branch of `Play`'s switch does nothing and cannot be reached, because the ready mode has only its two values here.

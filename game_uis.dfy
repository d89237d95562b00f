/** The game UIs `GameConsole.Go` can drive, and the calls it makes on them.
    `Go` is generic over its UI type; here the UI is one of a closed set: a
    scripted UI whose answers come from the host (any UI at all, seen only
    through what its calls return), or one of the two example games. */
module GameUIs {
  import opened Terminal
  import opened RoundTrace
  import Guesses
  import Seconds

  datatype UIKind = Scripted | GuessesGame | SecondsGame

  datatype RoundUI =
    | ScriptedUI
    | GuessesUI(g: Guesses.GameUI)
    | SecondsUI(s: Seconds.GameUI)

  function KindOf(ui: RoundUI): UIKind {
    match ui {
    case ScriptedUI => Scripted
    case GuessesUI(_) => GuessesGame
    case SecondsUI(_) => SecondsGame
    }
  }

  /** The objects a UI owns: itself and its game play. */
  ghost function Repr(ui: RoundUI): set<object> {
    match ui {
    case ScriptedUI => {}
    case GuessesUI(g) => {g, g.Play}
    case SecondsUI(s) => {s, s.Play}
    }
  }

  /** A scripted UI's call took the next answer, or found none left. */
  ghost predicate Answered(before: seq<bool>, after: seq<bool>, r: Outcome<bool>) {
    (before == [] ==> r == Exhausted && after == [])
    && (before != [] ==> r == Returned(before[0]) && after == before[1..])
  }

  /** The 3-guesses game play during a round: one try per Action, never
      more than three; a try is asked for only while the game is neither won
      nor out of tries; the secret stays in 1..10 once drawn. */
  ghost predicate GuessesInv(p: Guesses.GamePlay, t: seq<UICall>)
    requires Accepted(t)
    reads p
  {
    var phase := Run(t).value;
    Actions(t) == p.Tries && p.Tries <= Guesses.MaxTries
    && (phase == BeforeStart ==> p.Tries == 0)
    && (phase == AwaitAction ==> !p.IsWon && p.Tries < Guesses.MaxTries)
    && (phase != BeforeStart ==> 1 <= p.Secret <= 10 && p.Secret == p.Drawn)
  }

  /** The 3-seconds game play during a round: not quit until the player
      answers [N]; `End` runs once at that answer and once more at the end of
      the round; GameOver is consulted only after a [Y], which clears the win. */
  ghost predicate SecondsInv(p: Seconds.GamePlay, t: seq<UICall>)
    requires Accepted(t)
    reads p
  {
    var phase := Run(t).value;
    (phase in {BeforeStart, AwaitAction, AwaitContinue, AwaitGameOver} ==> !p.Quit && p.Ends == 0)
    && (phase == AwaitGameOver ==> !p.IsWon)
    && (phase == AwaitEnd ==> p.Quit && p.Ends == 1 && |t| > 0 && t[|t| - 1] == CallContinue(false))
    && (phase == Finished ==> p.Quit && p.Ends == 2 && |t| > 1 && t[|t| - 2] == CallContinue(false))
  }

  ghost predicate RoundInv(ui: RoundUI, t: seq<UICall>)
    reads Repr(ui)
  {
    Accepted(t)
    && match ui
       case ScriptedUI => true
       case GuessesUI(g) => GuessesInv(g.Play, t)
       case SecondsUI(s) => SecondsInv(s.Play, t)
  }

  /** In a round of the 3-guesses game there are at most three Action
      calls, and once the round is over the secret is still the one `Start`
      drew, in 1..10, because the UI's End does not clear it. */
  lemma GuessesRound(ui: RoundUI, t: seq<UICall>)
    requires ui.GuessesUI? && RoundInv(ui, t)
    ensures Actions(t) <= Guesses.MaxTries
    ensures Complete(t) ==> ui.g.Play.Secret == ui.g.Play.Drawn && 1 <= ui.g.Play.Secret <= 10
  {
  }

  /** In a round of the 3-seconds game GameOver never answers true, so the
      loop is left only by a [N] at Continue; a complete round ends with
      that Continue and End, and the game play has run `End` twice. */
  lemma SecondsRound(ui: RoundUI, t: seq<UICall>)
    requires ui.SecondsUI? && RoundInv(ui, t)
    ensures CallGameOver(true) !in t
    ensures Complete(t) ==> ui.s.Play.Quit && ui.s.Play.Ends == 2 && t[|t| - 2] == CallContinue(false)
  {
    if CallGameOver(true) in t {
      var i :| 0 <= i < |t| && t[i] == CallGameOver(true);
      LoopExitIsLast(t, i);
    }
  }

  /** `new TGameUI()`. */
  method NewUI(kind: UIKind) returns (ui: RoundUI)
    ensures KindOf(ui) == kind && fresh(Repr(ui)) && RoundInv(ui, [])
  {
    match kind {
    case Scripted =>
      ui := ScriptedUI;
    case GuessesGame =>
      var g := new Guesses.GameUI();
      ui := GuessesUI(g);
    case SecondsGame =>
      var s := new Seconds.GameUI();
      ui := SecondsUI(s);
    }
  }

  /** `gameUI.Start()`. */
  method Start(ui: RoundUI, host: Host, ghost t: seq<UICall>) returns (r: Outcome<bool>)
    requires RoundInv(ui, t) && Run(t) == Some(BeforeStart) && host !in Repr(ui)
    modifies Repr(ui), host
    ensures host.Pending() <= old(host.Pending())
    ensures r.Returned? ==> RoundInv(ui, t + [CallStart(r.value)])
                            && Run(t + [CallStart(r.value)]) == Some(if r.value then AwaitAction else AwaitEnd)
    ensures !r.Returned? ==> RoundInv(ui, t)
    ensures ui.ScriptedUI? ==> Answered(old(host.Answers), host.Answers, r)
    ensures ui.ScriptedUI? ==>
      t + Drive(BeforeStart, old(host.Answers))
      == if r.Returned? then (t + [CallStart(r.value)]) + Drive(if r.value then AwaitAction else AwaitEnd, host.Answers) else t
    ensures !ui.ScriptedUI? ==> r == Returned(true)
  {
    match ui {
    case ScriptedUI =>
      r := ScriptedAnswer(host);
      if r.Returned? {
        DriveStep(t, BeforeStart, old(host.Answers));
      }
    case GuessesUI(g) =>
      var started := g.Start(host);
      r := Returned(started);
    case SecondsUI(s) =>
      var started := s.Start();
      r := Returned(started);
    }
    if r.Returned? {
      RunAppend(t, CallStart(r.value));
      ActionsAppend(t, CallStart(r.value));
    }
  }

  /** `gameUI.Action()`: when it returns, it has used up some input. */
  method Action(ui: RoundUI, host: Host, ghost t: seq<UICall>) returns (r: Outcome<bool>)
    requires RoundInv(ui, t) && Run(t) == Some(AwaitAction) && host !in Repr(ui)
    modifies Repr(ui), host
    ensures host.Pending() <= old(host.Pending())
    ensures r.Returned? ==> host.Pending() < old(host.Pending()) && RoundInv(ui, t + [CallAction(r.value)])
                            && Run(t + [CallAction(r.value)]) == Some(if r.value then AwaitContinue else AwaitGameOver)
    ensures !r.Returned? ==> RoundInv(ui, t)
    ensures ui.ScriptedUI? ==> Answered(old(host.Answers), host.Answers, r)
    ensures ui.ScriptedUI? ==>
      t + Drive(AwaitAction, old(host.Answers))
      == if r.Returned? then (t + [CallAction(r.value)]) + Drive(if r.value then AwaitContinue else AwaitGameOver, host.Answers) else t
  {
    match ui {
    case ScriptedUI =>
      r := ScriptedAnswer(host);
      if r.Returned? {
        DriveStep(t, AwaitAction, old(host.Answers));
      }
    case GuessesUI(g) =>
      r := g.Action(host);
    case SecondsUI(s) =>
      r := s.Action(host);
    }
    if r.Returned? {
      RunAppend(t, CallAction(r.value));
      ActionsAppend(t, CallAction(r.value));
    }
  }

  /** `gameUI.Continue()`. */
  method Continue(ui: RoundUI, host: Host, ghost t: seq<UICall>) returns (r: Outcome<bool>)
    requires RoundInv(ui, t) && Run(t) == Some(AwaitContinue) && host !in Repr(ui)
    modifies Repr(ui), host
    ensures host.Pending() <= old(host.Pending())
    ensures r.Returned? ==> RoundInv(ui, t + [CallContinue(r.value)])
                            && Run(t + [CallContinue(r.value)]) == Some(if r.value then AwaitGameOver else AwaitEnd)
    ensures !r.Returned? ==> RoundInv(ui, t)
    ensures ui.ScriptedUI? ==> Answered(old(host.Answers), host.Answers, r)
    ensures ui.ScriptedUI? ==>
      t + Drive(AwaitContinue, old(host.Answers))
      == if r.Returned? then (t + [CallContinue(r.value)]) + Drive(if r.value then AwaitGameOver else AwaitEnd, host.Answers) else t
  {
    match ui {
    case ScriptedUI =>
      r := ScriptedAnswer(host);
      if r.Returned? {
        DriveStep(t, AwaitContinue, old(host.Answers));
      }
    case GuessesUI(g) =>
      r := g.Continue(host);
    case SecondsUI(s) =>
      r := s.Continue(host);
    }
    if r.Returned? {
      RunAppend(t, CallContinue(r.value));
      ActionsAppend(t, CallContinue(r.value));
    }
  }

  /** `gameUI.GameOver()`. */
  method GameOver(ui: RoundUI, host: Host, ghost t: seq<UICall>) returns (r: Outcome<bool>)
    requires RoundInv(ui, t) && Run(t) == Some(AwaitGameOver) && host !in Repr(ui)
    modifies Repr(ui), host
    ensures host.Pending() <= old(host.Pending())
    ensures r.Returned? ==> RoundInv(ui, t + [CallGameOver(r.value)])
                            && Run(t + [CallGameOver(r.value)]) == Some(if r.value then AwaitEnd else AwaitAction)
    ensures !r.Returned? ==> RoundInv(ui, t)
    ensures ui.ScriptedUI? ==> Answered(old(host.Answers), host.Answers, r)
    ensures ui.ScriptedUI? ==>
      t + Drive(AwaitGameOver, old(host.Answers))
      == if r.Returned? then (t + [CallGameOver(r.value)]) + Drive(if r.value then AwaitEnd else AwaitAction, host.Answers) else t
    ensures !ui.ScriptedUI? ==> r.Returned? && unchanged(host) && unchanged(Repr(ui))
  {
    match ui {
    case ScriptedUI =>
      r := ScriptedAnswer(host);
      if r.Returned? {
        DriveStep(t, AwaitGameOver, old(host.Answers));
      }
    case GuessesUI(g) =>
      r := Returned(g.GameOver());
    case SecondsUI(s) =>
      r := Returned(s.GameOver());
    }
    if r.Returned? {
      RunAppend(t, CallGameOver(r.value));
      ActionsAppend(t, CallGameOver(r.value));
    }
  }

  /** `gameUI.End()`: never waits for input. */
  method End(ui: RoundUI, host: Host, ghost t: seq<UICall>)
    requires RoundInv(ui, t) && Run(t) == Some(AwaitEnd) && host !in Repr(ui)
    modifies Repr(ui), host
    ensures unchanged(host)
    ensures RoundInv(ui, t + [CallEnd]) && Run(t + [CallEnd]) == Some(Finished)
  {
    match ui {
    case ScriptedUI =>
    case GuessesUI(g) =>
      g.End();
    case SecondsUI(s) =>
      s.End();
    }
    RunAppend(t, CallEnd);
    ActionsAppend(t, CallEnd);
  }

  /** A scripted UI's answer to one call. */
  method ScriptedAnswer(host: Host) returns (r: Outcome<bool>)
    modifies host`Answers
    ensures Answered(old(host.Answers), host.Answers, r)
  {
    var a := host.NextAnswer();
    r := if a.Some? then Returned(a.value) else Exhausted;
  }
}

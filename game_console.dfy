/** `GameConsole`: a console game app that plays Ready, Set, Go! once or
    for as long as it is ready. */
module GameFlow {
  import opened Terminal
  import opened Scanning
  import opened ConsoleUX
  import opened GameEnums
  import opened RoundTrace
  import opened GameUIs

  /** A step of `Play`. */
  datatype FlowStep = ReadyStep | SetStep | GoStep

  /** The step at position `i` of a `while (Ready()) { Set(); Go(); }` run. */
  function Cycle(i: nat): FlowStep {
    if i % 3 == 0 then ReadyStep else if i % 3 == 1 then SetStep else GoStep
  }

  /** The steps of `while (Ready()) { Set(); Go(); }` through `rounds` full
      passes and the Ready that follows them. */
  function Cycles(rounds: nat): seq<FlowStep> {
    if rounds == 0 then [ReadyStep] else Cycles(rounds - 1) + [SetStep, GoStep, ReadyStep]
  }

  /** Those steps are Ready, Set, Go over and over, starting and ending with
      Ready. */
  lemma {:induction false} CyclesRepeat(rounds: nat)
    ensures |Cycles(rounds)| == 3 * rounds + 1
    ensures forall i :: 0 <= i < |Cycles(rounds)| ==> Cycles(rounds)[i] == Cycle(i)
  {
    if rounds > 0 {
      CyclesRepeat(rounds - 1);
      var before := Cycles(rounds - 1);
      assert Cycles(rounds) == before + [SetStep, GoStep, ReadyStep];
      forall i | 0 <= i < |Cycles(rounds)|
        ensures Cycles(rounds)[i] == Cycle(i)
      {
        if i >= |before| {
          assert i - |before| < 3;
        }
      }
    }
  }

  function Unit<T>(x: T): () {
    ()
  }

  /** One pass of the body of `Go`'s do-while loop, `if (Action()) { if
      (!Continue()) break; }`, and then its condition `!GameOver()`: the
      result says whether the loop goes round again (false: on to End). */
  method Turn(ui: RoundUI, host: Host, ghost t: seq<UICall>) returns (r: Outcome<bool>, ghost u: seq<UICall>)
    requires RoundInv(ui, t) && Run(t) == Some(AwaitAction) && host !in Repr(ui)
    modifies Repr(ui), host
    ensures RoundInv(ui, u)
    ensures r.Returned? ==> Run(u) == Some(if r.value then AwaitAction else AwaitEnd)
    ensures !r.Returned? ==> !Complete(u)
    ensures host.Pending() <= old(host.Pending())
    ensures r == Returned(true) ==> host.Pending() < old(host.Pending())
    ensures ui.ScriptedUI? ==>
      t + Drive(AwaitAction, old(host.Answers))
      == if r.Returned? then u + Drive(if r.value then AwaitAction else AwaitEnd, host.Answers) else u
  {
    u := t;
    var acted := GameUIs.Action(ui, host, u);
    if !acted.Returned? {
      return acted, u;
    }
    u := u + [CallAction(acted.value)];
    if acted.value {
      var goOn := GameUIs.Continue(ui, host, u);
      if !goOn.Returned? {
        return goOn, u;
      }
      u := u + [CallContinue(goOn.value)];
      if !goOn.value {
        return Returned(false), u;
      }
    }
    var over := GameUIs.GameOver(ui, host, u);
    if !over.Returned? {
      return over, u;
    }
    u := u + [CallGameOver(over.value)];
    r := Returned(!over.value);
  }

  class GameConsole {
    const Name: string
    const Copyright: string
    const Description: string
    const SplashText: Option<string>
    const ReadyMode: GamePlayReadyMode
    /** The UI type `Go` creates, the `TGameUI` type argument. */
    const Kind: UIKind
    var IsReady: bool
    /** How many times the splash has been shown. */
    ghost var Splashes: nat

    constructor (kind: UIKind, name: string, copyright: string, description: string,
                 splashText: Option<string> := None, readyMode: GamePlayReadyMode := IfReady)
      ensures Kind == kind && Name == name && Copyright == copyright && Description == description
      ensures SplashText == splashText && ReadyMode == readyMode
      ensures !IsReady && Splashes == 0
    {
      Kind, Name, Copyright, Description := kind, name, copyright, description;
      SplashText, ReadyMode := splashText, readyMode;
      IsReady, Splashes := false, 0;
    }

    /** Shows the name, version, year, copyright, description and splash text. */
    method Splash()
      modifies this`Splashes
      ensures Splashes == old(Splashes) + 1
    {
      Splashes := Splashes + 1;
    }

    /** Shows the splash the first time only; always ready afterwards. */
    method Ready() returns (r: bool)
      modifies this`IsReady, this`Splashes
      ensures r && IsReady
      ensures Splashes == old(Splashes) + (if old(IsReady) then 0 else 1)
    {
      if !IsReady {
        Splash();
        IsReady := true;
      }
      r := IsReady;
    }

    /** Waits for [Enter], discarding any other key; [Esc] exits. */
    method Set(host: Host) returns (r: Outcome<()>)
      modifies host`Keys
      ensures var s := ScanKeys(true, {Enter}, old(host.Keys));
        r == s.outcome.Map(Unit) && host.Keys == old(host.Keys)[s.consumed..]
      ensures r.Returned? ==> |host.Keys| < |old(host.Keys)| && old(host.Keys)[|old(host.Keys)| - |host.Keys| - 1] == Enter
    {
      var ux := new GameConsoleUX();
      var key := ux.GetSingleKey(Enter, host);
      r := key.Map(Unit);
    }

    /** One round: a new UI, Start, the Action/Continue/GameOver loop, End.
        `trace` holds the calls made on the UI, with what each returned. */
    method Go(host: Host) returns (r: Outcome<()>, ghost trace: seq<UICall>, ghost ui: RoundUI)
      modifies host
      ensures KindOf(ui) == Kind && fresh(Repr(ui)) && RoundInv(ui, trace)
      ensures r.Returned? <==> Complete(trace)
      ensures host.Pending() <= old(host.Pending())
      ensures ui.ScriptedUI? ==> trace == Drive(BeforeStart, old(host.Answers))
    {
      var gameUI := NewUI(Kind);
      ui, trace := gameUI, [];
      ghost var answers := host.Answers;
      var started := GameUIs.Start(gameUI, host, trace);
      if !started.Returned? {
        r := started.Map(Unit);
        return;
      }
      trace := trace + [CallStart(started.value)];
      if started.value {
        while true
          invariant fresh(Repr(gameUI)) && ui == gameUI
          invariant RoundInv(gameUI, trace) && Run(trace) == Some(AwaitAction)
          invariant host.Pending() <= old(host.Pending())
          invariant ui.ScriptedUI? ==> trace + Drive(AwaitAction, host.Answers) == Drive(BeforeStart, answers)
          decreases host.Pending()
        {
          var again;
          again, trace := Turn(gameUI, host, trace);
          if !again.Returned? {
            r := again.Map(Unit);
            return;
          }
          if !again.value {
            break;
          }
        }
      }
      assert Drive(AwaitEnd, host.Answers) == [CallEnd];
      GameUIs.End(gameUI, host, trace);
      trace := trace + [CallEnd];
      r := Returned(());
    }

    /** `if (Ready()) { Set(); Go(); }` or `while (Ready()) { Set(); Go(); }`;
        `flow` holds the steps taken.  A step that exits the process or runs
        out of input ends the play with that outcome. */
    method Play(host: Host) returns (r: Outcome<()>, ghost flow: seq<FlowStep>, ghost rounds: nat)
      modifies this`IsReady, this`Splashes, host
      ensures IsReady && Splashes == old(Splashes) + (if old(IsReady) then 0 else 1)
      ensures ReadyMode == IfReady ==>
        flow == [ReadyStep, SetStep, GoStep] || (flow == [ReadyStep, SetStep] && !r.Returned?)
      ensures ReadyMode == WhileReady ==>
        !r.Returned? && (flow == Cycles(rounds) + [SetStep] || flow == Cycles(rounds) + [SetStep, GoStep])
    {
      var ready := Ready();
      flow, rounds := [ReadyStep], 0;
      match ReadyMode {
        case IfReady =>
          if ready {
            r := Set(host);
            flow := flow + [SetStep];
            if r.Returned? {
              ghost var round, ui;
              r, round, ui := Go(host);
              flow := flow + [GoStep];
            }
          } else {
            r := Returned(());
          }
        case WhileReady =>
          r := Returned(());
          while ready
            invariant ready && IsReady && Splashes == old(Splashes) + (if old(IsReady) then 0 else 1)
            invariant flow == Cycles(rounds)
            decreases host.Pending()
          {
            r := Set(host);
            flow := flow + [SetStep];
            if !r.Returned? {
              return;
            }
            ghost var round, ui;
            r, round, ui := Go(host);
            flow := flow + [GoStep];
            if !r.Returned? {
              return;
            }
            ready := Ready();
            assert flow + [ReadyStep] == Cycles(rounds) + [SetStep, GoStep, ReadyStep];
            flow, rounds := flow + [ReadyStep], rounds + 1;
          }
      }
    }
  }
}

/** The calls `GameConsole.Go` makes on a game UI during one round, and the
    automaton that says which call may come next: Start, then the loop
    `do { if Action() { if !Continue() break } } while !GameOver()`, then End. */
module RoundTrace {
  import opened Terminal

  /** One call on the game UI, with the value it returned. */
  datatype UICall =
    | CallStart(started: bool)
    | CallAction(acted: bool)
    | CallContinue(goOn: bool)
    | CallGameOver(over: bool)
    | CallEnd

  /** Where `Go` stands: which call it makes next. */
  datatype Phase = BeforeStart | AwaitAction | AwaitContinue | AwaitGameOver | AwaitEnd | Finished

  /** The phase after a call, or `None` when `Go` never makes that call there. */
  function Step(p: Phase, c: UICall): Option<Phase> {
    match (p, c)
    case (BeforeStart, CallStart(started)) => Some(if started then AwaitAction else AwaitEnd)
    case (AwaitAction, CallAction(acted)) => Some(if acted then AwaitContinue else AwaitGameOver)
    case (AwaitContinue, CallContinue(goOn)) => Some(if goOn then AwaitGameOver else AwaitEnd)
    case (AwaitGameOver, CallGameOver(over)) => Some(if over then AwaitEnd else AwaitAction)
    case (AwaitEnd, CallEnd) => Some(Finished)
    case _ => None
  }

  /** The phase a sequence of calls leads to from the beginning of a round. */
  function Run(t: seq<UICall>): Option<Phase> {
    if t == [] then Some(BeforeStart)
    else match Run(t[..|t| - 1])
      case None => None
      case Some(p) => Step(p, t[|t| - 1])
  }

  /** `t` is what `Go` may have called so far. */
  predicate Accepted(t: seq<UICall>) {
    Run(t).Some?
  }

  /** `t` is everything `Go` calls in a round that runs to its end. */
  predicate Complete(t: seq<UICall>) {
    Run(t) == Some(Finished)
  }

  lemma RunAppend(t: seq<UICall>, c: UICall)
    ensures Run(t + [c]) == if Run(t).Some? then Step(Run(t).value, c) else None
  {
    assert (t + [c])[..|t|] == t;
  }

  /** Every prefix of an accepted trace is accepted. */
  lemma {:induction false} RunPrefix(t: seq<UICall>, i: nat)
    requires Accepted(t) && i <= |t|
    ensures Accepted(t[..i])
    decreases |t| - i
  {
    if i < |t| {
      var u := t[..|t| - 1];
      assert u[..i] == t[..i];
      RunPrefix(u, i);
    } else {
      assert t[..i] == t;
    }
  }

  /** The i-th call of an accepted trace is a step of the automaton. */
  lemma StepAt(t: seq<UICall>, i: nat)
    requires Accepted(t) && i < |t|
    ensures Run(t[..i]).Some? && Run(t[..i + 1]).Some?
    ensures Step(Run(t[..i]).value, t[i]) == Run(t[..i + 1])
  {
    RunPrefix(t, i + 1);
    assert t[..i + 1][..i] == t[..i];
  }

  /** No step leads back to the beginning of a round. */
  lemma PhaseAfterFirstCall(t: seq<UICall>, i: nat)
    requires Accepted(t) && 0 < i <= |t|
    ensures Run(t[..i]) != Some(BeforeStart)
  {
    StepAt(t, i - 1);
  }

  /** Start is the first call and is never called again. */
  lemma StartComesFirst(t: seq<UICall>)
    requires Accepted(t)
    ensures forall i :: 0 <= i < |t| ==> (t[i].CallStart? <==> i == 0)
  {
    forall i | 0 <= i < |t|
      ensures t[i].CallStart? <==> i == 0
    {
      StepAt(t, i);
      if i == 0 {
        assert t[..0] == [];
      } else {
        PhaseAfterFirstCall(t, i);
      }
    }
  }

  /** If Start returns false, the only call that can follow is End: no
      Action, Continue or GameOver. */
  lemma StartFalseSkipsLoop(t: seq<UICall>)
    requires Accepted(t) && |t| > 0 && t[0] == CallStart(false)
    ensures t == [CallStart(false)] || t == [CallStart(false), CallEnd]
  {
    StepAt(t, 0);
    assert t[..0] == [];
    if |t| > 1 {
      StepAt(t, 1);
      if |t| > 2 {
        StepAt(t, 2);
      }
    }
  }

  /** Continue is called only immediately after an Action that returned true. */
  lemma ContinueFollowsSuccessfulAction(t: seq<UICall>)
    requires Accepted(t)
    ensures forall i :: 0 <= i < |t| && t[i].CallContinue? ==> 0 < i && t[i - 1] == CallAction(true)
  {
    forall i | 0 <= i < |t| && t[i].CallContinue?
      ensures 0 < i && t[i - 1] == CallAction(true)
    {
      StepAt(t, i);
      if i > 0 {
        StepAt(t, i - 1);
      }
    }
  }

  /** GameOver is consulted exactly after the iterations that did not break:
      right after an Action that returned false, or after a Continue that
      returned true. */
  lemma GameOverAfterEveryUnbrokenIteration(t: seq<UICall>)
    requires Accepted(t)
    ensures forall i :: 0 <= i < |t| - 1 && (t[i] == CallAction(false) || t[i] == CallContinue(true)) ==>
      t[i + 1].CallGameOver?
    ensures forall i :: 0 <= i < |t| && t[i].CallGameOver? ==>
      0 < i && (t[i - 1] == CallAction(false) || t[i - 1] == CallContinue(true))
  {
    forall i | 0 <= i < |t| - 1 && (t[i] == CallAction(false) || t[i] == CallContinue(true))
      ensures t[i + 1].CallGameOver?
    {
      StepAt(t, i);
      StepAt(t, i + 1);
    }
    forall i | 0 <= i < |t| && t[i].CallGameOver?
      ensures 0 < i && (t[i - 1] == CallAction(false) || t[i - 1] == CallContinue(true))
    {
      StepAt(t, i);
      if i > 0 {
        StepAt(t, i - 1);
      }
    }
  }

  /** The calls after which `Go` goes straight to End. */
  predicate EndsLoop(c: UICall) {
    c == CallStart(false) || c == CallContinue(false) || c == CallGameOver(true)
  }

  /** The loop is left exactly when Continue returns false or GameOver returns
      true (or, before the loop, when Start returns false): End follows such
      a call and no other. */
  lemma LoopExitsExactly(t: seq<UICall>)
    requires Accepted(t)
    ensures forall i :: 0 <= i < |t| - 1 ==> (t[i + 1] == CallEnd <==> EndsLoop(t[i]))
  {
    forall i | 0 <= i < |t| - 1
      ensures t[i + 1] == CallEnd <==> EndsLoop(t[i])
    {
      StepAt(t, i);
      StepAt(t, i + 1);
    }
  }

  /** End is the last call of a trace whenever it occurs, and a round is
      complete exactly when End has been called: End is called exactly once. */
  lemma EndExactlyOnce(t: seq<UICall>)
    requires Accepted(t)
    ensures forall i :: 0 <= i < |t| && t[i] == CallEnd ==> i == |t| - 1
    ensures Complete(t) <==> |t| > 0 && t[|t| - 1] == CallEnd
  {
    forall i | 0 <= i < |t| && t[i] == CallEnd
      ensures i == |t| - 1
    {
      StepAt(t, i);
      if i + 1 < |t| {
        StepAt(t, i + 1);
      }
    }
    if |t| > 0 {
      StepAt(t, |t| - 1);
      assert t[..|t|] == t;
    }
  }

  /** A call that leaves the loop is the last call so far or the one just
      before End: after it the round is waiting for End, or finished. */
  lemma {:induction false} LoopExitIsLast(t: seq<UICall>, i: nat)
    requires Accepted(t) && i < |t| && EndsLoop(t[i])
    ensures (i == |t| - 1 && Run(t) == Some(AwaitEnd)) || (i == |t| - 2 && Run(t) == Some(Finished))
  {
    StepAt(t, i);
    if i == |t| - 1 {
      assert t[..i + 1] == t;
    } else {
      StepAt(t, i + 1);
      assert t[i + 1] == CallEnd;
      if i + 2 < |t| {
        StepAt(t, i + 2);
      }
      assert t[..i + 2] == t;
    }
  }

  /** A complete round ends with End right after a call that leaves the loop. */
  lemma CompleteRoundShape(t: seq<UICall>)
    requires Complete(t)
    ensures |t| >= 2 && t[|t| - 1] == CallEnd && EndsLoop(t[|t| - 2])
    ensures forall i :: 0 <= i < |t| - 1 ==> t[i] != CallEnd
  {
    EndExactlyOnce(t);
    StartComesFirst(t);
    LoopExitsExactly(t);
  }

  /** The call `Go` makes in phase `p` when the UI answers `answer`. */
  function Asked(p: Phase, answer: bool): (c: UICall)
    requires p != AwaitEnd && p != Finished
    ensures Step(p, c).Some?
  {
    match p
    case BeforeStart => CallStart(answer)
    case AwaitAction => CallAction(answer)
    case AwaitContinue => CallContinue(answer)
    case AwaitGameOver => CallGameOver(answer)
  }

  /** The calls `Go` makes from phase `p` when a scripted UI answers each
      Start, Action, Continue and GameOver from `answers`, stopping when the
      answers run out (End takes no answer). */
  function Drive(p: Phase, answers: seq<bool>): seq<UICall>
    decreases |answers|
  {
    match p
    case Finished => []
    case AwaitEnd => [CallEnd]
    case _ =>
      if answers == [] then []
      else
        var c := Asked(p, answers[0]);
        [c] + Drive(Step(p, c).value, answers[1..])
  }

  /** Driving takes one answer at a time: the calls so far, then the call the
      first answer asks for, then the rest of the drive. */
  lemma DriveStep(t: seq<UICall>, p: Phase, answers: seq<bool>)
    requires p != AwaitEnd && p != Finished && answers != []
    ensures t + Drive(p, answers)
         == (t + [Asked(p, answers[0])]) + Drive(Step(p, Asked(p, answers[0])).value, answers[1..])
  {
    var c := Asked(p, answers[0]);
    assert Drive(p, answers) == [c] + Drive(Step(p, c).value, answers[1..]);
  }

  /** Driving the automaton never leaves it, and stops short of End only when
      every answer has been used. */
  lemma {:induction false} DriveFollowsRun(t: seq<UICall>, p: Phase, answers: seq<bool>)
    requires Run(t) == Some(p)
    ensures Accepted(t + Drive(p, answers))
    ensures !Complete(t + Drive(p, answers)) ==> |Drive(p, answers)| == |answers|
    decreases |answers|
  {
    match p
    case Finished =>
      assert t + Drive(p, answers) == t;
    case AwaitEnd =>
      RunAppend(t, CallEnd);
    case _ =>
      if answers == [] {
        assert t + Drive(p, answers) == t;
      } else {
        var c := Asked(p, answers[0]);
        RunAppend(t, c);
        DriveFollowsRun(t + [c], Step(p, c).value, answers[1..]);
        assert t + Drive(p, answers) == (t + [c]) + Drive(Step(p, c).value, answers[1..]);
      }
  }

  /** The number of Action calls in a trace. */
  function Actions(t: seq<UICall>): nat {
    if t == [] then 0
    else Actions(t[..|t| - 1]) + (if t[|t| - 1].CallAction? then 1 else 0)
  }

  lemma ActionsAppend(t: seq<UICall>, c: UICall)
    ensures Actions(t + [c]) == Actions(t) + (if c.CallAction? then 1 else 0)
  {
    assert (t + [c])[..|t|] == t;
  }
}

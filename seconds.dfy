/** The 3-seconds example game: stop the clock with [Spacebar] at three
    seconds on the dot (3000 to 3009 milliseconds). */
module Seconds {
  import opened Terminal
  import opened Scanning
  import opened ConsoleUX

  /** The only key info the stop prompt accepts: an unmodified [Spacebar]. */
  const SpaceInfo := KeyInfo(' ', Spacebar, false, false, false)

  /** A stop wins when the clock reads 3000 to 3009 milliseconds. */
  predicate OnTheDot(elapsedMs: nat) {
    3000 <= elapsedMs <= 3009
  }

  /** What the stop prompt does with the polls still to come: [Esc] ends the
      process, an unmodified [Spacebar] is taken, anything else is ignored. */
  function ScanPolls(polls: seq<Poll>): Scan<Poll> {
    ReadUntil(CancelPoll(true), AllowedPoll({SpaceInfo}), polls)
  }

  /** A stop the prompt takes is an unmodified [Spacebar], and every poll
      before it saw no key, or a key other than that one and [Esc]. */
  lemma ScanPollsTakesSpace(polls: seq<Poll>)
    ensures var s := ScanPolls(polls);
      (s.outcome.Returned? ==> s.outcome.value.key == Some(SpaceInfo))
      && forall j :: 0 <= j < s.consumed - 1 ==>
           polls[j].key.None? || (polls[j].key.value != SpaceInfo && polls[j].key.value.key != Escape)
  {
    ReadUntilDrops(CancelPoll(true), AllowedPoll({SpaceInfo}), polls);
  }

  class GamePlay {
    /** The stopwatch: whether it runs, and its reading while stopped. */
    var Running: bool
    var Elapsed: nat
    var IsWon: bool
    var Quit: bool
    /** How many times `End` has run. */
    ghost var Ends: nat

    constructor ()
      ensures !Running && Elapsed == 0 && !IsWon && !Quit && Ends == 0
    {
      Running, Elapsed, IsWon, Quit := false, 0, false, false;
      Ends := 0;
    }

    /** Starts the clock. */
    method Start() returns (r: bool)
      modifies this
      ensures r && Running
      ensures Elapsed == old(Elapsed) && IsWon == old(IsWon) && Quit == old(Quit) && Ends == old(Ends)
    {
      Running := true;
      r := Running;
    }

    /** Stops the clock, whose reading is then `elapsedMs` if it was running,
        and scores the stop. */
    method Action(key: ConsoleKey, elapsedMs: nat) returns (r: bool)
      modifies this
      ensures r && !Running
      ensures Elapsed == if old(Running) then elapsedMs else old(Elapsed)
      ensures IsWon <==> OnTheDot(Elapsed)
      ensures Quit == old(Quit) && Ends == old(Ends)
    {
      if Running {
        Elapsed := elapsedMs;
      }
      Running := false;
      IsWon := OnTheDot(Elapsed);
      r := !Running;
    }

    /** Clears the score and restarts the clock from zero. */
    method Continue() returns (r: bool)
      modifies this
      ensures r && Running && Elapsed == 0 && !IsWon
      ensures Quit == old(Quit) && Ends == old(Ends)
    {
      IsWon := false;
      Running, Elapsed := true, 0;
      r := Running;
    }

    /** Over once won or quit; once `End` has run it stays over. */
    function GameOver(): (r: bool)
      reads this
      ensures r <==> IsWon || Quit
      ensures Quit ==> r
    {
      IsWon || Quit
    }

    /** Marks the game as quit; running it again changes nothing more. */
    method End()
      modifies this
      ensures Quit && Ends == old(Ends) + 1
      ensures Running == old(Running) && Elapsed == old(Elapsed) && IsWon == old(IsWon)
    {
      Quit := true;
      Ends := Ends + 1;
    }
  }

  /** Once `End` has run the game is over, and a later `Continue` does not
      undo it; a second `End` leaves every observable field as the first left
      it. */
  method QuitSticks() returns (overAfterEnd: bool, overAfterContinue: bool, sameAfterSecondEnd: bool)
    ensures overAfterEnd && overAfterContinue && sameAfterSecondEnd
  {
    var play := new GamePlay();
    var _ := play.Start();
    play.End();
    overAfterEnd := play.GameOver();
    var _ := play.Continue();
    overAfterContinue := play.GameOver();
    var before := (play.Running, play.Elapsed, play.IsWon, play.Quit);
    play.End();
    sameAfterSecondEnd := before == (play.Running, play.Elapsed, play.IsWon, play.Quit);
  }

  class GameUI {
    /** Whether the header is already on screen (`_refresh`). */
    var refresh: bool
    const Play: GamePlay
    /** How many times the header and the clock reading have been drawn. */
    ghost var HeaderDraws: nat
    ghost var Frames: nat

    constructor ()
      ensures !refresh && fresh(Play)
      ensures !Play.Running && Play.Elapsed == 0 && !Play.IsWon && !Play.Quit && Play.Ends == 0
      ensures HeaderDraws == 0 && Frames == 0
    {
      refresh := false;
      Play := new GamePlay();
      HeaderDraws, Frames := 0, 0;
    }

    /** Draws the header unless it is already on screen, then the clock. */
    method Render()
      modifies this`refresh, this`HeaderDraws, this`Frames
      ensures refresh
      ensures HeaderDraws == old(HeaderDraws) + (if old(refresh) then 0 else 1)
      ensures Frames == old(Frames) + 1
    {
      if !refresh {
        HeaderDraws := HeaderDraws + 1;
        refresh := true;
      }
      Frames := Frames + 1;
    }

    method Refresh()
      modifies this`refresh, this`HeaderDraws, this`Frames
      ensures refresh
      ensures HeaderDraws == old(HeaderDraws) + (if old(refresh) then 0 else 1)
      ensures Frames == old(Frames) + 1
    {
      Render();
    }

    /** The default `IGameUI.Start`: starts the game play and renders when it
        started. */
    method Start() returns (r: bool)
      modifies this`refresh, this`HeaderDraws, this`Frames, Play
      ensures r && Play.Running
      ensures Play.Elapsed == old(Play.Elapsed) && Play.IsWon == old(Play.IsWon)
      ensures Play.Quit == old(Play.Quit) && Play.Ends == old(Play.Ends)
      ensures refresh && HeaderDraws == old(HeaderDraws) + (if old(refresh) then 0 else 1)
      ensures Frames == old(Frames) + (if r then 1 else 0)
    {
      r := Play.Start();
      if r {
        Render();
      }
    }

    /** Refreshes and polls until an unmodified [Spacebar] arrives, then
        stops the clock with the reading taken at that poll. */
    method Action(host: Host) returns (r: Outcome<bool>)
      modifies this`refresh, this`HeaderDraws, this`Frames, Play, host`Polls, host`Reading
      ensures var s := ScanPolls(old(host.Polls));
        host.Polls == old(host.Polls)[s.consumed..]
        && Frames == old(Frames) + s.consumed + (if s.outcome.Exhausted? then 1 else 0)
        && (s.outcome.Returned? ==>
              r == Returned(true) && !Play.Running
              && Play.Elapsed == (if old(Play.Running) then s.outcome.value.elapsedMs else old(Play.Elapsed))
              && (Play.IsWon <==> OnTheDot(Play.Elapsed))
              && Play.Quit == old(Play.Quit) && Play.Ends == old(Play.Ends))
        && (s.outcome.Exited? ==> r == Exited && unchanged(Play))
        && (s.outcome.Exhausted? ==> r == Exhausted && unchanged(Play))
      ensures refresh && HeaderDraws == old(HeaderDraws) + (if old(refresh) then 0 else 1)
    {
      var ux := new GameConsoleUX();
      var cki: Option<KeyInfo> := None;
      ghost var polls := host.Polls;
      ghost var n := 0;
      while cki.None?
        invariant n <= |polls| && host.Polls == polls[n..] && unchanged(Play)
        invariant Frames == old(Frames) + n && ux.EscExit
        invariant n == 0 ==> refresh == old(refresh) && HeaderDraws == old(HeaderDraws)
        invariant n > 0 ==> refresh && HeaderDraws == old(HeaderDraws) + (if old(refresh) then 0 else 1)
        invariant cki.None? ==> var s, t := ScanPolls(polls), ScanPolls(host.Polls);
          s.outcome == t.outcome && s.consumed == t.consumed + n
        invariant cki.Some? ==>
          0 < n && cki == Some(SpaceInfo)
          && ScanPolls(polls) == Scan(Returned(polls[n - 1]), n) && host.Reading == polls[n - 1].elapsedMs
        decreases |host.Polls|
      {
        Refresh();
        var got := ux.GetKeyInfo({SpaceInfo}, host);
        if got.Exited? {
          return Exited;
        }
        if got.Exhausted? {
          return Exhausted;
        }
        cki := got.value;
        n := n + 1;
      }
      var acted := Play.Action(cki.value.key, host.Reading);
      r := Returned(acted);
    }

    /** Reports the verdict and asks "Try again?": [Y] clears the header and
        restarts the clock, [N] ends the game play; the answer is whether the
        game has not been quit. */
    method Continue(host: Host) returns (r: Outcome<bool>)
      modifies this`refresh, this`HeaderDraws, this`Frames, Play, host`Keys
      ensures var s := ScanKeys(true, {Y, N}, old(host.Keys));
        host.Keys == old(host.Keys)[s.consumed..]
        && (s.outcome == Returned(Y) ==>
              r == Returned(!old(Play.Quit))
              && Play.Running && Play.Elapsed == 0 && !Play.IsWon
              && Play.Quit == old(Play.Quit) && Play.Ends == old(Play.Ends)
              && refresh && HeaderDraws == old(HeaderDraws) + 1 && Frames == old(Frames) + 1)
        && (s.outcome == Returned(N) ==>
              r == Returned(false)
              && Play.Quit && Play.Ends == old(Play.Ends) + 1
              && Play.Running == old(Play.Running) && Play.Elapsed == old(Play.Elapsed)
              && Play.IsWon == old(Play.IsWon)
              && unchanged(this))
        && (s.outcome.Exited? ==> r == Exited && unchanged(this, Play))
        && (s.outcome.Exhausted? ==> r == Exhausted && unchanged(this, Play))
    {
      var ux := new GameConsoleUX();
      var answer := ux.GetYN(host);
      if answer.Exited? {
        return Exited;
      }
      if answer.Exhausted? {
        return Exhausted;
      }
      if answer.value == Y {
        refresh := false;
        var _ := Play.Continue();
        Refresh();
      } else {
        Play.End();
      }
      r := Returned(!Play.Quit);
    }

    /** The default `IGameUI.GameOver`. */
    function GameOver(): (r: bool)
      reads Play
      ensures r <==> Play.IsWon || Play.Quit
    {
      Play.GameOver()
    }

    /** The default `IGameUI.End`. */
    method End()
      modifies Play
      ensures Play.Quit && Play.Ends == old(Play.Ends) + 1
      ensures Play.Running == old(Play.Running) && Play.Elapsed == old(Play.Elapsed) && Play.IsWon == old(Play.IsWon)
    {
      Play.End();
    }
  }

  /** One stop: no key at 1000 ms, [A] at 2000 ms, [Spacebar] at 3004 ms.
      The prompt skips the first two polls, draws the clock three times and
      the header once, and the stop wins. */
  method StopAtThreeSeconds() returns (acted: Outcome<bool>, won: bool, ghost frames: nat, ghost headers: nat)
    ensures acted == Returned(true) && won && frames == 4 && headers == 1
  {
    var a := KeyInfo('a', 65, false, false, false);
    var polls := [Poll(None, 1000), Poll(Some(a), 2000), Poll(Some(SpaceInfo), 3004)];
    var host := new Host([], polls, [], [], _ => None, _ => 0);
    var ui := new GameUI();
    var _ := ui.Start();
    assert polls[1..] == [Poll(Some(a), 2000), Poll(Some(SpaceInfo), 3004)];
    assert polls[1..][1..] == [Poll(Some(SpaceInfo), 3004)];
    ReadUntilSkip(CancelPoll(true), AllowedPoll({SpaceInfo}), polls);
    ReadUntilSkip(CancelPoll(true), AllowedPoll({SpaceInfo}), polls[1..]);
    acted := ui.Action(host);
    won := ui.Play.IsWon;
    frames, headers := ui.Frames, ui.HeaderDraws;
  }
}

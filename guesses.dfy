/** The 3-guesses example game: guess a secret number from 1 to 10 in at
    most three tries. */
module Guesses {
  import opened Terminal
  import opened Scanning
  import opened ConsoleUX
  import opened ActionInfo

  const MaxTries := 3

  /** Whether a typed line parses as an `int`. */
  function Parses(tryParse: string -> Option<Int32>): string -> bool {
    l => tryParse(l).Some?
  }

  function Never<T>(): T -> bool {
    _ => false
  }

  /** What the guess prompt does with the lines still to be typed: it skips
      every line that does not parse and takes the first that does. */
  function ScanLines(tryParse: string -> Option<Int32>, lines: seq<string>): Scan<string> {
    ReadUntil(Never(), Parses(tryParse), lines)
  }

  /** The guess prompt never exits the process, and the line it takes parses
      while every line before it did not. */
  lemma ScanLinesTakesFirstNumber(tryParse: string -> Option<Int32>, lines: seq<string>)
    ensures var s := ScanLines(tryParse, lines);
      !s.outcome.Exited?
      && (s.outcome.Returned? ==> tryParse(s.outcome.value).Some?)
      && forall j :: 0 <= j < s.consumed - 1 ==> tryParse(lines[j]).None?
  {
    ReadUntilDrops(Never(), Parses(tryParse), lines);
  }

  function IsYes(k: ConsoleKey): bool {
    k == Y
  }

  class GamePlay {
    var Secret: int
    var IsWon: bool
    var Tries: int
    /** The secret the latest `Start` drew. */
    ghost var Drawn: int

    constructor ()
      ensures Secret == 0 && !IsWon && Tries == 0 && Drawn == 0
    {
      Secret, IsWon, Tries := 0, false, 0;
      Drawn := 0;
    }

    /** Draws a fresh secret in 1..10 and clears the score. */
    method Start(host: Host) returns (r: bool)
      modifies this, host`Draws
      ensures r && !IsWon && Tries == 0
      ensures Secret == old(host.NextValue(1, 11)) && 1 <= Secret <= 10 && Drawn == Secret
      ensures host.Draws == old(host.Draws) + 1
    {
      Secret := host.Next(1, 11);
      Drawn := Secret;
      IsWon := false;
      Tries := 0;
      r := true;
    }

    /** One guess, carried as an `int` in the envelope's input slot. */
    method Action(info: GameActionInfo) returns (r: bool)
      requires CanCast(info.Input, IntType)
      modifies this
      ensures r && Tries == old(Tries) + 1 && Secret == old(Secret) && Drawn == old(Drawn)
      ensures IsWon <==> old(IsWon) || GetValueAs(info.Input, IntType).i == Secret
    {
      if info.GetInputAs(IntType).i == Secret {
        IsWon := true;
      }
      Tries := Tries + 1;
      r := true;
    }

    /** Another guess is allowed: not won and fewer than three tries. */
    function Continue(): (r: bool)
      reads this
      ensures r <==> !GameOver()
    {
      !IsWon && Tries < MaxTries
    }

    /** Over once won or out of tries. */
    function GameOver(): (r: bool)
      reads this
      ensures r <==> IsWon || Tries >= MaxTries
    {
      IsWon || (!IsWon && Tries >= MaxTries)
    }

    /** Forgets the secret and nothing else. */
    method End()
      modifies this
      ensures Secret == 0 && IsWon == old(IsWon) && Tries == old(Tries) && Drawn == old(Drawn)
    {
      Secret := 0;
    }
  }

  class GameUI {
    const Play: GamePlay
    /** How many times the header has been drawn. */
    ghost var Renders: nat

    constructor ()
      ensures fresh(Play) && Play.Secret == 0 && !Play.IsWon && Play.Tries == 0
      ensures Renders == 0
    {
      Play := new GamePlay();
      Renders := 0;
    }

    method Render()
      modifies this`Renders
      ensures Renders == old(Renders) + 1
    {
      Renders := Renders + 1;
    }

    method Refresh()
      modifies this`Renders
      ensures Renders == old(Renders) + 1
    {
      Render();
    }

    /** The default `IGameUI.Start`: starts the game play and renders when it
        started. */
    method Start(host: Host) returns (r: bool)
      modifies this`Renders, Play, host`Draws
      ensures r && !Play.IsWon && Play.Tries == 0
      ensures Play.Secret == old(host.NextValue(1, 11)) && 1 <= Play.Secret <= 10 && Play.Drawn == Play.Secret
      ensures host.Draws == old(host.Draws) + 1
      ensures Renders == old(Renders) + (if r then 1 else 0)
    {
      r := Play.Start(host);
      if r {
        Render();
      }
    }

    /** Reads lines until one parses as an `int` and plays it as a guess. */
    method Action(host: Host) returns (r: Outcome<bool>)
      modifies Play, host`Lines
      ensures var s := ScanLines(host.TryParse, old(host.Lines));
        host.Lines == old(host.Lines)[s.consumed..]
        && (s.outcome.Returned? ==>
              var guess := host.TryParse(s.outcome.value).value;
              r == Returned(true)
              && Play.Tries == old(Play.Tries) + 1 && Play.Secret == old(Play.Secret) && Play.Drawn == old(Play.Drawn)
              && (Play.IsWon <==> old(Play.IsWon) || guess == Play.Secret))
        && (!s.outcome.Returned? ==> r == Exhausted && unchanged(Play))
    {
      ghost var lines := host.Lines;
      ghost var n := 0;
      var guess: Int32;
      while true
        invariant n <= |lines| && host.Lines == lines[n..] && unchanged(Play)
        invariant var s, t := ScanLines(host.TryParse, lines), ScanLines(host.TryParse, host.Lines);
          s.outcome == t.outcome && s.consumed == t.consumed + n
        decreases |host.Lines|
      {
        var line := host.ReadLine();
        if line.None? {
          return Exhausted;
        }
        var parsed := host.TryParse(line.value);
        if parsed.Some? {
          guess := parsed.value;
          break;
        }
        n := n + 1;
      }
      var info := new GameActionInfo();
      info.SetInput(IntBox(guess));
      var acted := Play.Action(info);
      r := Returned(acted);
    }

    /** Asks "Try again?" only while the game play allows another guess. */
    method Continue(host: Host) returns (r: Outcome<bool>)
      modifies host`Keys
      ensures !Play.Continue() ==> r == Returned(false) && host.Keys == old(host.Keys)
      ensures Play.Continue() ==>
        var s := ScanKeys(true, {Y, N}, old(host.Keys));
        r == s.outcome.Map(IsYes) && host.Keys == old(host.Keys)[s.consumed..]
    {
      if Play.Continue() {
        var ux := new GameConsoleUX();
        var answer := ux.GetYN(host);
        r := answer.Map(IsYes);
      } else {
        r := Returned(false);
      }
    }

    /** The default `IGameUI.GameOver`. */
    function GameOver(): (r: bool)
      reads Play
      ensures r <==> Play.IsWon || Play.Tries >= MaxTries
    {
      Play.GameOver()
    }

    /** Overrides the default: shows the secret and the verdict, and does not
        call `GamePlay.End`, so the secret survives the round. */
    method End()
      ensures unchanged(this, Play)
    {
    }
  }

  /** Secret 7 (the raw draw 6 brought into 1..10), guesses 3 then 7: won on
      the second try, no further guess, game over. */
  method WinOnSecondGuess() returns (tries: int, won: bool, goOn: bool, over: bool)
    ensures tries == 2 && won && !goOn && over
  {
    var host := new Host([], [], [], [], _ => None, _ => 6);
    var play := new GamePlay();
    var _ := play.Start(host);
    var info := new GameActionInfo();
    info.SetInput(IntBox(3));
    var _ := play.Action(info);
    info := new GameActionInfo();
    info.SetInput(IntBox(7));
    var _ := play.Action(info);
    tries, won, goOn, over := play.Tries, play.IsWon, play.Continue(), play.GameOver();
  }

  /** Secret 7, guesses 1, 2, 3: three misses use up the tries. */
  method LoseAfterThreeMisses() returns (tries: int, won: bool, goOn: bool, over: bool)
    ensures tries == 3 && !won && !goOn && over
  {
    var host := new Host([], [], [], [], _ => None, _ => 6);
    var play := new GamePlay();
    var _ := play.Start(host);
    var guess := 1;
    while guess <= 3
      invariant 1 <= guess <= 4
      invariant play.Secret == 7 && !play.IsWon && play.Tries == guess - 1
    {
      var info := new GameActionInfo();
      info.SetInput(IntBox(guess));
      var _ := play.Action(info);
      guess := guess + 1;
    }
    tries, won, goOn, over := play.Tries, play.IsWon, play.Continue(), play.GameOver();
  }
}

/** The outside world the game library talks to: the .NET console's key and
    line input, the stopwatch clock, `Random.Shared`, and the answers of a
    scripted game UI.  Every blocking read takes the next element of a finite
    stream; when a stream runs out the library would wait for ever, which the
    model reports as `Exhausted`. */
module Terminal {

  /** A .NET `int`. */
  type Int32 = x: int | -0x8000_0000 <= x < 0x8000_0000

  /** `System.ConsoleKey`: an enumeration over `int` whose members are key
      codes; like any enum it can hold every `int`. */
  newtype ConsoleKey = k: int | -0x8000_0000 <= k < 0x8000_0000

  const Enter: ConsoleKey := 13
  const Escape: ConsoleKey := 27
  const Spacebar: ConsoleKey := 32
  const LeftArrow: ConsoleKey := 37
  const UpArrow: ConsoleKey := 38
  const RightArrow: ConsoleKey := 39
  const DownArrow: ConsoleKey := 40
  const N: ConsoleKey := 78
  const X: ConsoleKey := 88
  const Y: ConsoleKey := 89

  /** `System.ConsoleKeyInfo`: a key with its character and modifier state. */
  datatype KeyInfo = KeyInfo(keyChar: char, key: ConsoleKey, shift: bool, alt: bool, control: bool)

  datatype Option<+T> = None | Some(value: T)

  /** How a blocking operation ends: it returns a value, the process exits
      (the [Esc] key with `EscExit` set), or the input runs out. */
  datatype Outcome<+T> = Returned(value: T) | Exited | Exhausted
  {
    /** The same ending with the returned value transformed. */
    function Map<U>(f: T -> U): (r: Outcome<U>)
      ensures r.Returned? <==> Returned?
      ensures r.Exited? <==> Exited?
      ensures Returned? ==> r.value == f(value)
    {
      match this
      case Returned(v) => Returned(f(v))
      case Exited => Exited
      case Exhausted => Exhausted
    }
  }

  /** What one non-blocking look at the keyboard sees (a key, or none yet),
      together with the running stopwatch's reading at that moment. */
  datatype Poll = Poll(key: Option<KeyInfo>, elapsedMs: nat)

  class Host {
    /** Keys still to be pressed, for `Console.ReadKey`. */
    var Keys: seq<ConsoleKey>
    /** Successive keyboard polls, for `Console.KeyAvailable` + `ReadKey`. */
    var Polls: seq<Poll>
    /** The stopwatch reading taken at the latest poll. */
    var Reading: nat
    /** Lines still to be typed, for `Console.ReadLine`. */
    var Lines: seq<string>
    /** The answers a scripted game UI gives, one per call. */
    var Answers: seq<bool>
    /** `Int32.TryParse`, taken as an arbitrary partial function. */
    const TryParse: string -> Option<Int32>
    /** The raw numbers `Random.Shared` produces, one per draw. */
    const Random: nat -> nat
    var Draws: nat

    constructor (keys: seq<ConsoleKey>, polls: seq<Poll>, lines: seq<string>, answers: seq<bool>,
                 tryParse: string -> Option<Int32>, random: nat -> nat)
      ensures Keys == keys && Polls == polls && Lines == lines && Answers == answers
      ensures Reading == 0 && Draws == 0 && TryParse == tryParse && Random == random
    {
      Keys, Polls, Lines, Answers := keys, polls, lines, answers;
      Reading, Draws := 0, 0;
      TryParse, Random := tryParse, random;
    }

    /** The input still to come, summed over every stream; each read shrinks it. */
    ghost function Pending(): nat
      reads this
    {
      |Keys| + |Polls| + |Lines| + |Answers|
    }

    /** `Console.ReadKey(true).Key`. */
    method ReadKey() returns (r: Option<ConsoleKey>)
      modifies this`Keys
      ensures old(Keys) == [] ==> r == None && Keys == []
      ensures old(Keys) != [] ==> r == Some(old(Keys)[0]) && Keys == old(Keys)[1..]
    {
      if Keys == [] {
        r := None;
      } else {
        r := Some(Keys[0]);
        Keys := Keys[1..];
      }
    }

    /** One non-blocking look at the keyboard; `None` when the polls have run out. */
    method ReadPoll() returns (r: Option<Poll>)
      modifies this`Polls, this`Reading
      ensures old(Polls) == [] ==> r == None && Polls == [] && Reading == old(Reading)
      ensures old(Polls) != [] ==> r == Some(old(Polls)[0]) && Polls == old(Polls)[1..]
                                   && Reading == old(Polls)[0].elapsedMs
    {
      if Polls == [] {
        r := None;
      } else {
        r := Some(Polls[0]);
        Reading := Polls[0].elapsedMs;
        Polls := Polls[1..];
      }
    }

    /** `Console.ReadLine()`. */
    method ReadLine() returns (r: Option<string>)
      modifies this`Lines
      ensures old(Lines) == [] ==> r == None && Lines == []
      ensures old(Lines) != [] ==> r == Some(old(Lines)[0]) && Lines == old(Lines)[1..]
    {
      if Lines == [] {
        r := None;
      } else {
        r := Some(Lines[0]);
        Lines := Lines[1..];
      }
    }

    /** The next answer of a scripted game UI. */
    method NextAnswer() returns (r: Option<bool>)
      modifies this`Answers
      ensures old(Answers) == [] ==> r == None && Answers == []
      ensures old(Answers) != [] ==> r == Some(old(Answers)[0]) && Answers == old(Answers)[1..]
    {
      if Answers == [] {
        r := None;
      } else {
        r := Some(Answers[0]);
        Answers := Answers[1..];
      }
    }

    /** The value the next `Random.Shared.Next(min, max)` gives: the next raw
        number brought into the range. */
    function NextValue(min: int, max: int): (r: int)
      requires min <= max
      reads this
      ensures min <= r && (r < max || r == min == max)
    {
      if min == max then min else min + Random(Draws) % (max - min)
    }

    /** `Random.Shared.Next(min, max)`: some value from `min` up to but not
        including `max` (exactly `min` when the two are equal). */
    method Next(min: int, max: int) returns (r: int)
      requires min <= max
      modifies this`Draws
      ensures r == old(NextValue(min, max))
      ensures Draws == old(Draws) + 1
    {
      r := NextValue(min, max);
      Draws := Draws + 1;
    }
  }
}

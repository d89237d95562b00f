/** `GameConsoleUX`: blocking key reads against an allow-list, with [Esc]
    ending the process while `EscExit` is set. */
module ConsoleUX {
  import opened Terminal
  import opened Scanning

  /** Whether a key ends the process: [Esc] while `EscExit` is set. */
  function CancelKey(escExit: bool): ConsoleKey -> bool {
    k => escExit && k == Escape
  }

  function AllowedKey(validKeys: set<ConsoleKey>): ConsoleKey -> bool {
    k => k in validKeys
  }

  /** What `GetKey(validKeys)` does with the keys still to be pressed. */
  function ScanKeys(escExit: bool, validKeys: set<ConsoleKey>, keys: seq<ConsoleKey>): Scan<ConsoleKey> {
    ReadUntil(CancelKey(escExit), AllowedKey(validKeys), keys)
  }

  /** A returned key is always allowed, is never [Esc] while `EscExit` is set,
      and every key read before it was neither. */
  lemma ScanKeysReturnsAllowed(escExit: bool, validKeys: set<ConsoleKey>, keys: seq<ConsoleKey>)
    ensures var s := ScanKeys(escExit, validKeys, keys);
      (s.outcome.Returned? ==> s.outcome.value in validKeys && !(escExit && s.outcome.value == Escape))
      && forall j :: 0 <= j < s.consumed - 1 ==> keys[j] !in validKeys && !(escExit && keys[j] == Escape)
  {
    ReadUntilDrops(CancelKey(escExit), AllowedKey(validKeys), keys);
  }

  /** With `EscExit` set, [Esc] ends the process before the allow-list is
      consulted, even when [Esc] is itself allowed. */
  lemma {:induction false} EscapeExitsFirst(validKeys: set<ConsoleKey>, keys: seq<ConsoleKey>, i: nat)
    requires i < |keys| && keys[i] == Escape
    requires forall j :: 0 <= j < i ==> keys[j] !in validKeys && keys[j] != Escape
    ensures ScanKeys(true, validKeys, keys) == Scan(Exited, i + 1)
  {
    if i > 0 {
      EscapeExitsFirst(validKeys, keys[1..], i - 1);
    }
  }

  /** With `EscExit` clear, [Esc] is an ordinary key: the read never exits the
      process, and it returns [Esc] only when [Esc] is allowed. */
  lemma {:induction false} EscapeIsOrdinaryWithoutEscExit(validKeys: set<ConsoleKey>, keys: seq<ConsoleKey>)
    ensures var s := ScanKeys(false, validKeys, keys);
      !s.outcome.Exited? && (s.outcome == Returned(Escape) ==> Escape in validKeys)
  {
    if keys != [] && keys[0] !in validKeys {
      EscapeIsOrdinaryWithoutEscExit(validKeys, keys[1..]);
    }
  }

  /** Allowing {Y, N} and pressing X, X, Y returns Y after taking three keys. */
  lemma YesAfterTwoStrayKeys()
    ensures ScanKeys(true, {Y, N}, [X, X, Y]) == Scan(Returned(Y), 3)
  {
    var keys: seq<ConsoleKey> := [X, X, Y];
    assert keys[1..] == [X, Y] && keys[1..][1..] == [Y];
    ReadUntilSkip(CancelKey(true), AllowedKey({Y, N}), keys);
    ReadUntilSkip(CancelKey(true), AllowedKey({Y, N}), keys[1..]);
  }

  /** `ConsoleKeyInfo` polls: [Esc] cancels, an allow-listed key info is taken. */
  function CancelPoll(escExit: bool): Poll -> bool {
    (p: Poll) => escExit && p.key.Some? && p.key.value.key == Escape
  }

  function AllowedPoll(validKeyInfos: set<KeyInfo>): Poll -> bool {
    (p: Poll) => p.key.Some? && p.key.value in validKeyInfos
  }

  class GameConsoleUX {
    /** Whether [Esc] exits the application. */
    var EscExit: bool

    constructor (escExit: bool := true)
      ensures EscExit == escExit
    {
      EscExit := escExit;
    }

    /** Reads keys until one is in `validKeys`; [Esc] with `EscExit` set ends
        the process instead (`Environment.Exit(0)`). */
    method GetKey(validKeys: set<ConsoleKey>, host: Host) returns (r: Outcome<ConsoleKey>)
      modifies host`Keys
      ensures var s := ScanKeys(EscExit, validKeys, old(host.Keys));
        r == s.outcome && host.Keys == old(host.Keys)[s.consumed..]
    {
      ghost var keys := host.Keys;
      ghost var n := 0;
      while true
        invariant n <= |keys| && host.Keys == keys[n..]
        invariant var s, t := ScanKeys(EscExit, validKeys, keys), ScanKeys(EscExit, validKeys, host.Keys);
          s.outcome == t.outcome && s.consumed == t.consumed + n
        decreases |host.Keys|
      {
        var key := host.ReadKey();
        if key.None? {
          return Exhausted;
        }
        if EscExit && key.value == Escape {
          return Exited;
        }
        if key.value in validKeys {
          return Returned(key.value);
        }
        n := n + 1;
      }
    }

    /** `GetKey(validKey)`: waits for one particular key. */
    method GetSingleKey(validKey: ConsoleKey, host: Host) returns (r: Outcome<ConsoleKey>)
      modifies host`Keys
      ensures r.Returned? ==> r.value == validKey
      ensures var s := ScanKeys(EscExit, {validKey}, old(host.Keys));
        r == s.outcome && host.Keys == old(host.Keys)[s.consumed..]
    {
      r := GetKey({validKey}, host);
    }

    /** Waits for [Y] or [N]. */
    method GetYN(host: Host) returns (r: Outcome<ConsoleKey>)
      modifies host`Keys
      ensures r.Returned? ==> r.value == Y || r.value == N
      ensures var s := ScanKeys(EscExit, {Y, N}, old(host.Keys));
        r == s.outcome && host.Keys == old(host.Keys)[s.consumed..]
    {
      r := GetKey({Y, N}, host);
    }

    /** Waits for one of the four arrow keys. */
    method GetMove(host: Host) returns (r: Outcome<ConsoleKey>)
      modifies host`Keys
      ensures r.Returned? ==> r.value in {UpArrow, RightArrow, LeftArrow, DownArrow}
      ensures var s := ScanKeys(EscExit, {UpArrow, RightArrow, LeftArrow, DownArrow}, old(host.Keys));
        r == s.outcome && host.Keys == old(host.Keys)[s.consumed..]
    {
      r := GetKey({UpArrow, RightArrow, LeftArrow, DownArrow}, host);
    }

    /** One non-blocking look at the keyboard: no key yet, or a key that is
        not allow-listed, gives `None`; [Esc] with `EscExit` set ends the
        process. */
    method GetKeyInfo(validKeyInfos: set<KeyInfo>, host: Host) returns (r: Outcome<Option<KeyInfo>>)
      modifies host`Polls, host`Reading
      ensures old(host.Polls) == [] ==> r == Exhausted && host.Polls == [] && host.Reading == old(host.Reading)
      ensures old(host.Polls) != [] ==>
        var p := old(host.Polls)[0];
        host.Polls == old(host.Polls)[1..] && host.Reading == p.elapsedMs
        && r == (if CancelPoll(EscExit)(p) then Exited
                 else if AllowedPoll(validKeyInfos)(p) then Returned(p.key)
                 else Returned(None))
    {
      var p := host.ReadPoll();
      if p.None? {
        return Exhausted;
      }
      var cki := p.value.key;
      if cki.Some? && EscExit && cki.value.key == Escape {
        return Exited;
      }
      r := if cki.Some? && cki.value in validKeyInfos then Returned(cki) else Returned(None);
    }
  }
}

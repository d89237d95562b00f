/** The shape shared by every blocking input loop of the library: read one
    item at a time, stop the process on a cancel item, return the first
    acceptable item, silently drop everything else. */
module Scanning {
  import opened Terminal

  /** How a scan ended and how many items it took from the input. */
  datatype Scan<+T> = Scan(outcome: Outcome<T>, consumed: nat)

  /** The reference definition of a read-until-valid loop. */
  function ReadUntil<T>(cancel: T -> bool, accept: T -> bool, items: seq<T>): (s: Scan<T>)
    ensures s.consumed <= |items|
    ensures !s.outcome.Exhausted? ==> 0 < s.consumed
    ensures s.outcome.Returned? ==>
      s.outcome.value == items[s.consumed - 1] && accept(s.outcome.value) && !cancel(s.outcome.value)
    ensures s.outcome.Exited? ==> cancel(items[s.consumed - 1])
    ensures s.outcome.Exhausted? ==> s.consumed == |items|
  {
    if items == [] then Scan(Exhausted, 0)
    else if cancel(items[0]) then Scan(Exited, 1)
    else if accept(items[0]) then Scan(Returned(items[0]), 1)
    else
      var rest := ReadUntil(cancel, accept, items[1..]);
      Scan(rest.outcome, rest.consumed + 1)
  }

  /** An item that neither cancels nor is accepted. */
  predicate Dropped<T>(cancel: T -> bool, accept: T -> bool, x: T) {
    !cancel(x) && !accept(x)
  }

  /** Every item taken before the last one was dropped: neither a cancel item
      nor an acceptable one. */
  lemma {:induction false} ReadUntilDrops<T>(cancel: T -> bool, accept: T -> bool, items: seq<T>)
    ensures var s := ReadUntil(cancel, accept, items);
      forall j :: 0 <= j < s.consumed - 1 || (s.outcome.Exhausted? && 0 <= j < s.consumed) ==>
        Dropped(cancel, accept, items[j])
  {
    if items != [] && !cancel(items[0]) && !accept(items[0]) {
      ReadUntilDrops(cancel, accept, items[1..]);
    }
  }

  /** The scan stops at the FIRST item that cancels or is accepted, and runs
      out exactly when there is none. */
  lemma {:induction false} ReadUntilStopsAtFirst<T>(cancel: T -> bool, accept: T -> bool, items: seq<T>, i: nat)
    requires i < |items| && !Dropped(cancel, accept, items[i])
    requires forall j :: 0 <= j < i ==> Dropped(cancel, accept, items[j])
    ensures var s := ReadUntil(cancel, accept, items);
      s.consumed == i + 1 && !s.outcome.Exhausted?
  {
    if i > 0 {
      ReadUntilStopsAtFirst(cancel, accept, items[1..], i - 1);
    }
  }

  /** A scan runs out of input if and only if every item is dropped. */
  lemma {:induction false} ReadUntilExhaustedIff<T>(cancel: T -> bool, accept: T -> bool, items: seq<T>)
    ensures ReadUntil(cancel, accept, items).outcome.Exhausted? <==>
      forall j :: 0 <= j < |items| ==> Dropped(cancel, accept, items[j])
  {
    ReadUntilDrops(cancel, accept, items);
    if exists j :: 0 <= j < |items| && !Dropped(cancel, accept, items[j]) {
      var i := FirstUndropped(cancel, accept, items);
      ReadUntilStopsAtFirst(cancel, accept, items, i);
    }
  }

  /** The index of the first item that is not dropped. */
  function FirstUndropped<T>(cancel: T -> bool, accept: T -> bool, items: seq<T>): (i: nat)
    requires exists j :: 0 <= j < |items| && !Dropped(cancel, accept, items[j])
    ensures i < |items| && !Dropped(cancel, accept, items[i])
    ensures forall j :: 0 <= j < i ==> Dropped(cancel, accept, items[j])
  {
    if !Dropped(cancel, accept, items[0]) then 0
    else
      assert exists j :: 0 <= j < |items[1..]| && !Dropped(cancel, accept, items[1..][j]) by {
        var j :| 0 <= j < |items| && !Dropped(cancel, accept, items[j]);
        assert j > 0 && items[1..][j - 1] == items[j];
      }
      1 + FirstUndropped(cancel, accept, items[1..])
  }

  /** Dropping a leading item shifts the scan of the rest by one. */
  lemma ReadUntilSkip<T>(cancel: T -> bool, accept: T -> bool, items: seq<T>)
    requires items != [] && Dropped(cancel, accept, items[0])
    ensures var s, t := ReadUntil(cancel, accept, items), ReadUntil(cancel, accept, items[1..]);
      s.outcome == t.outcome && s.consumed == t.consumed + 1
  {
  }
}

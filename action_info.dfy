/** `GameActionInfo`: the envelope that carries one action's input, output
    and result between layers, tagged with an action mode and type. */
module ActionInfo {
  import opened Terminal
  import opened GameEnums

  /** The run-time types a boxed slot can hold.  `StringType` is the one
      reference type: only it admits `null`. */
  datatype ValueType = IntType | LongType | BoolType | KeyType | StringType

  /** An `object?` slot: `null` or a boxed value carrying its own type. */
  datatype Boxed = Null | IntBox(i: Int32) | LongBox(l: int) | BoolBox(b: bool) | KeyBox(k: ConsoleKey) | StringBox(s: string)

  function TypeOf(v: Boxed): (t: Option<ValueType>)
    ensures t.None? <==> v.Null?
  {
    match v
    case Null => None
    case IntBox(_) => Some(IntType)
    case LongBox(_) => Some(LongType)
    case BoolBox(_) => Some(BoolType)
    case KeyBox(_) => Some(KeyType)
    case StringBox(_) => Some(StringType)
  }

  /** Whether `(T?)value` succeeds for `T` = `t`.  A boxed value unboxes at
      its own type; a boxed enum also unboxes at its underlying type and a
      boxed `int` at an enum over `int`, so a `ConsoleKey` and an `int` read
      as each other.  `null` converts only to a reference type (at a value
      type the cast throws). */
  predicate CanCast(v: Boxed, t: ValueType) {
    match v
    case Null => t == StringType
    case KeyBox(_) => t == KeyType || t == IntType
    case IntBox(_) => t == IntType || t == KeyType
    case _ => TypeOf(v) == Some(t)
  }

  /** `GetValueAs<T>(value)`: the value seen at the requested type. */
  function GetValueAs(v: Boxed, t: ValueType): (r: Boxed)
    requires CanCast(v, t)
    ensures r.Null? || TypeOf(r) == Some(t)
    ensures TypeOf(v) == Some(t) || v.Null? ==> r == v
    ensures v.KeyBox? && t == IntType ==> r == IntBox(v.k as int)
    ensures v.IntBox? && t == KeyType ==> r == KeyBox(v.i as ConsoleKey)
  {
    match v
    case KeyBox(k) => if t == IntType then IntBox(k as int) else v
    case IntBox(i) => if t == KeyType then KeyBox(i as ConsoleKey) else v
    case _ => v
  }

  /** A value stored in a slot comes back unchanged at its own type.  At
      any other type the cast fails, except between a `ConsoleKey` and an
      `int`, where reading one as the other and back gives the value again. */
  lemma CastRule(v: Boxed, t: ValueType)
    requires v != Null
    ensures CanCast(v, TypeOf(v).value) && GetValueAs(v, TypeOf(v).value) == v
    ensures CanCast(v, t) && TypeOf(v) != Some(t) ==> {TypeOf(v).value, t} == {IntType, KeyType}
    ensures CanCast(v, t) ==> CanCast(GetValueAs(v, t), TypeOf(v).value)
                              && GetValueAs(GetValueAs(v, t), TypeOf(v).value) == v
  {
  }

  class GameActionInfo {
    var ActionMode: GameActionMode
    var ActionType: GameActionType
    var Input: Boxed
    var Output: Boxed
    var Result: Boxed

    constructor ()
      ensures ActionMode == GamePlay && ActionType == Control
      ensures Input == Null && Output == Null && Result == Null
    {
      ActionMode, ActionType := GamePlay, Control;
      Input, Output, Result := Null, Null, Null;
    }

    method SetActionMode(m: GameActionMode)
      modifies this
      ensures ActionMode == m && ActionType == old(ActionType)
      ensures Input == old(Input) && Output == old(Output) && Result == old(Result)
    {
      ActionMode := m;
    }

    method SetActionType(t: GameActionType)
      modifies this
      ensures ActionType == t && ActionMode == old(ActionMode)
      ensures Input == old(Input) && Output == old(Output) && Result == old(Result)
    {
      ActionType := t;
    }

    method SetInput(v: Boxed)
      modifies this
      ensures Input == v && Output == old(Output) && Result == old(Result)
      ensures ActionMode == old(ActionMode) && ActionType == old(ActionType)
    {
      Input := v;
    }

    method SetOutput(v: Boxed)
      modifies this
      ensures Output == v && Input == old(Input) && Result == old(Result)
      ensures ActionMode == old(ActionMode) && ActionType == old(ActionType)
    {
      Output := v;
    }

    method SetResult(v: Boxed)
      modifies this
      ensures Result == v && Input == old(Input) && Output == old(Output)
      ensures ActionMode == old(ActionMode) && ActionType == old(ActionType)
    {
      Result := v;
    }

    function GetInputAs(t: ValueType): (r: Boxed)
      reads this
      requires CanCast(Input, t)
      ensures r.Null? || TypeOf(r) == Some(t)
      ensures TypeOf(Input) == Some(t) || Input.Null? ==> r == Input
    {
      GetValueAs(Input, t)
    }

    function GetOutputAs(t: ValueType): (r: Boxed)
      reads this
      requires CanCast(Output, t)
      ensures r.Null? || TypeOf(r) == Some(t)
      ensures TypeOf(Output) == Some(t) || Output.Null? ==> r == Output
    {
      GetValueAs(Output, t)
    }

    function GetResultAs(t: ValueType): (r: Boxed)
      reads this
      requires CanCast(Result, t)
      ensures r.Null? || TypeOf(r) == Some(t)
      ensures TypeOf(Result) == Some(t) || Result.Null? ==> r == Result
    {
      GetValueAs(Result, t)
    }
  }

  /** A fresh envelope whose three slots are set one after the other gives
      each value back from its getter at the value's own type: setting one
      slot does not disturb the others. */
  method SlotsRoundTrip(input: Boxed, output: Boxed, result: Boxed) returns (i: Boxed, o: Boxed, r: Boxed)
    requires input != Null && output != Null && result != Null
    ensures i == input && o == output && r == result
  {
    var info := new GameActionInfo();
    info.SetInput(input);
    info.SetOutput(output);
    info.SetResult(result);
    i := info.GetInputAs(TypeOf(input).value);
    o := info.GetOutputAs(TypeOf(output).value);
    r := info.GetResultAs(TypeOf(result).value);
  }
}

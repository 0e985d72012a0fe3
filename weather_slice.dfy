/** The unit preference store: a single two-valued field, its initial value and the
    `setUnit` reducer, plus the store object that holds the current state. */
module WeatherSlice {

  /** The two temperature units the store can hold. */
  datatype Unit = Celsius | Fahrenheit {

    /** The string the app stores and compares against ('celsius' | 'fahrenheit'). */
    function Name(): (s: string)
      ensures s == "celsius" || s == "fahrenheit"
      ensures s == "celsius" <==> this == Celsius
    {
      match this
      case Celsius => "celsius"
      case Fahrenheit => "fahrenheit"
    }
  }

  datatype WeatherState = WeatherState(unit: Unit)

  /** The state the store starts from. */
  const InitialState: WeatherState := WeatherState(Celsius)

  /** `SetUnit` is the slice's only reducer; `Unrelated` stands for any action of another
      type, which a slice reducer passes through unchanged. */
  datatype Action = SetUnit(payload: Unit) | Unrelated

  /** The slice reducer: `setUnit` overwrites the unit with the payload. */
  function Reduce(s: WeatherState, a: Action): (t: WeatherState)
    ensures a.SetUnit? ==> t.unit == a.payload
    ensures a.Unrelated? ==> t == s
  {
    match a
    case SetUnit(u) => s.(unit := u)
    case Unrelated => s
  }

  /** The state after dispatching `actions` in order, starting from `s`. */
  function ReduceAll(s: WeatherState, actions: seq<Action>): (t: WeatherState)
    ensures t == s || exists i :: 0 <= i < |actions| && actions[i].SetUnit? && t.unit == actions[i].payload
    decreases |actions|
  {
    if |actions| == 0 then s else ReduceAll(Reduce(s, actions[0]), actions[1..])
  }

  /** Reference definition: the payload of the last `SetUnit` in `actions`, or `fallback`
      when there is none. */
  function LastPayload(actions: seq<Action>, fallback: Unit): (u: Unit)
    ensures u == fallback || exists i :: 0 <= i < |actions| && actions[i].SetUnit? && u == actions[i].payload
    decreases |actions|
  {
    if |actions| == 0 then fallback
    else if actions[|actions| - 1].SetUnit? then actions[|actions| - 1].payload
    else LastPayload(actions[..|actions| - 1], fallback)
  }

  /** Applying the same `setUnit` twice gives the same state as applying it once. */
  lemma SetUnitIdempotent(s: WeatherState, u: Unit)
    ensures Reduce(Reduce(s, SetUnit(u)), SetUnit(u)) == Reduce(s, SetUnit(u))
  {
  }

  /** A second `setUnit` erases every trace of the first. */
  lemma SetUnitLastWriteWins(s: WeatherState, a: Unit, b: Unit)
    ensures Reduce(Reduce(s, SetUnit(a)), SetUnit(b)) == Reduce(s, SetUnit(b))
    ensures Reduce(Reduce(s, SetUnit(a)), SetUnit(b)).unit == b
  {
  }

  /** Dispatching one more action after a sequence of actions. */
  lemma {:induction false} ReduceAllSnoc(s: WeatherState, actions: seq<Action>, a: Action)
    ensures ReduceAll(s, actions + [a]) == Reduce(ReduceAll(s, actions), a)
    decreases |actions|
  {
    if |actions| == 0 {
      assert actions + [a] == [a];
    } else {
      assert (actions + [a])[1..] == actions[1..] + [a];
      ReduceAllSnoc(Reduce(s, actions[0]), actions[1..], a);
    }
  }

  /** Whatever was dispatched, the unit is the payload of the last `setUnit`, or the
      starting unit if there was none. */
  lemma {:induction false} ReduceAllLastWriteWins(s: WeatherState, actions: seq<Action>)
    ensures ReduceAll(s, actions).unit == LastPayload(actions, s.unit)
    decreases |actions|
  {
    if |actions| > 0 {
      var init := actions[..|actions| - 1];
      var last := actions[|actions| - 1];
      assert actions == init + [last];
      ReduceAllSnoc(s, init, last);
      ReduceAllLastWriteWins(s, init);
    }
  }

  /** Starting from the initial state, the unit is Celsius until the first `setUnit`. */
  lemma {:induction false} CelsiusUntilFirstSetUnit(actions: seq<Action>)
    requires forall i :: 0 <= i < |actions| ==> actions[i].Unrelated?
    ensures ReduceAll(InitialState, actions).unit == Celsius
  {
    ReduceAllLastWriteWins(InitialState, actions);
    LastPayloadNone(actions, Celsius);
  }

  lemma {:induction false} LastPayloadNone(actions: seq<Action>, fallback: Unit)
    requires forall i :: 0 <= i < |actions| ==> actions[i].Unrelated?
    ensures LastPayload(actions, fallback) == fallback
    decreases |actions|
  {
    if |actions| > 0 {
      LastPayloadNone(actions[..|actions| - 1], fallback);
    }
  }

  /** The store: the state is updated in place by each dispatched action. */
  class WeatherStore {
    var state: WeatherState

    /** A fresh store holds the initial state, whose unit is Celsius. */
    constructor ()
      ensures state == InitialState
      ensures state.unit == Celsius
    {
      state := InitialState;
    }

    method Dispatch(a: Action)
      modifies this
      ensures state == Reduce(old(state), a)
      ensures a.SetUnit? ==> state.unit == a.payload
      ensures a.Unrelated? ==> state == old(state)
    {
      match a
      case SetUnit(u) => state := state.(unit := u);
      case Unrelated =>
    }
  }
}

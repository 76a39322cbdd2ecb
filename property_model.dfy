/**
 * Value-level specification of one observable editor setting
 * (`EditorSettings::Property<T>`).
 *
 * A property's observable state is its current value together with the log of
 * every argument `OnValueChanged.Invoke` has received, in call order, and the
 * value the property held at each of those invocations (what a listener that
 * reads the property sees). The construction-time default is kept beside them
 * because the property's invariant, that the value is the argument of the most
 * recent Set or the default if Set was never called, is stated in terms of it.
 */
module PropertyModel {

  /** `initial` is the constructor argument, `value` is `m_value`, `log` lists the
      arguments passed to `OnValueChanged.Invoke`, oldest first, and `observed`
      lists the value `m_value` held during each of those invocations. */
  datatype PropertyState<T> = PropertyState(initial: T, value: T, log: seq<T>, observed: seq<T>)

  /** The state right after `Property(p_value)`: the value is stored and no
      event has fired. */
  function Created<T>(v: T): PropertyState<T>
  {
    PropertyState(v, v, [], [])
  }

  /** `OnValueChanged.Invoke(x)`: the event mechanism itself is not modelled,
      only the fact that it was invoked once with `x` while the property held
      `s.value`. */
  function Invoked<T>(s: PropertyState<T>, x: T): PropertyState<T>
  {
    s.(log := s.log + [x], observed := s.observed + [s.value])
  }

  /** `Set(v)`: store `v` in `m_value` first, then invoke the event with the
      stored value. There is no "only on change" test. */
  function Step<T>(s: PropertyState<T>, v: T): PropertyState<T>
  {
    var stored := s.(value := v);
    Invoked(stored, stored.value)
  }

  /** The state after calling `Set` with each element of `ws` in turn. */
  function Replay<T>(s: PropertyState<T>, ws: seq<T>): PropertyState<T>
    decreases |ws|
  {
    if ws == [] then s else Replay(Step(s, ws[0]), ws[1..])
  }

  /** The argument of the most recent notification, or the default when there
      has been none. */
  function Latest<T>(initial: T, log: seq<T>): T
  {
    if log == [] then initial else log[|log| - 1]
  }

  /** The property's invariant: the value is the last notified value, or the
      default if nothing was ever set, and every invocation was handed the
      value the property held while its listeners ran. */
  ghost predicate Coherent<T>(s: PropertyState<T>)
  {
    s.value == Latest(s.initial, s.log) && s.observed == s.log
  }

  /** A fresh property holds its default and has notified nobody. */
  lemma CreatedIsCoherent<T>(v: T)
    ensures Coherent(Created(v))
    ensures Created(v).value == v && Created(v).log == [] && Created(v).observed == []
  {
  }

  /** One `Set(v)`: the value becomes `v` unconditionally, the log grows by
      exactly `[v]` (also when `v` equals the old value), the listeners run
      while the property already holds `v`, and the result satisfies the
      invariant whenever the state before did. */
  lemma StepSetsAndNotifies<T>(s: PropertyState<T>, v: T)
    ensures Step(s, v).value == v
    ensures Step(s, v).log == s.log + [v]
    ensures Step(s, v).observed == s.observed + [v]
    ensures Step(s, v).initial == s.initial
    ensures Coherent(s) ==> Coherent(Step(s, v))
  {
  }

  /** After any sequence of `Set` calls the log has grown by exactly that
      sequence, in call order, and so has the list of values the listeners
      observed. */
  lemma {:induction false} ReplayLog<T>(s: PropertyState<T>, ws: seq<T>)
    ensures Replay(s, ws).log == s.log + ws
    ensures Replay(s, ws).observed == s.observed + ws
    ensures Replay(s, ws).initial == s.initial
    decreases |ws|
  {
    if ws != [] {
      ReplayLog(Step(s, ws[0]), ws[1..]);
      assert s.log + [ws[0]] + ws[1..] == s.log + ws;
      assert s.observed + [ws[0]] + ws[1..] == s.observed + ws;
    }
  }

  /** After a non-empty sequence of `Set` calls the value is the last argument;
      after none it is unchanged. */
  lemma {:induction false} ReplayValue<T>(s: PropertyState<T>, ws: seq<T>)
    ensures ws == [] ==> Replay(s, ws).value == s.value
    ensures ws != [] ==> Replay(s, ws).value == ws[|ws| - 1]
    decreases |ws|
  {
    if ws != [] {
      ReplayValue(Step(s, ws[0]), ws[1..]);
    }
  }

  /** Set calls keep the property's invariant. */
  lemma {:induction false} ReplayCoherent<T>(s: PropertyState<T>, ws: seq<T>)
    requires Coherent(s)
    ensures Coherent(Replay(s, ws))
  {
    ReplayLog(s, ws);
    ReplayValue(s, ws);
    if ws != [] {
      var log := Replay(s, ws).log;
      assert log[|log| - 1] == ws[|ws| - 1];
    }
  }

  /** Starting from construction with default `d`, any sequence of `Set`
      calls leaves exactly that sequence in the log and the value at the most
      recent argument, or at `d` if the sequence is empty. */
  lemma ReplayFromCreated<T>(d: T, ws: seq<T>)
    ensures Replay(Created(d), ws) == PropertyState(d, Latest(d, ws), ws, ws)
  {
    ReplayLog(Created(d), ws);
    ReplayValue(Created(d), ws);
  }

  /** The listeners of the i-th `Set` of a run already see the new value: while
      they run, the property holds exactly the argument they are handed, which
      is the value after the first i + 1 calls. */
  lemma ReplayNotifiesStoredValues<T>(s: PropertyState<T>, ws: seq<T>, i: nat)
    requires i < |ws|
    ensures |Replay(s, ws).log| == |s.log| + |ws|
    ensures |Replay(s, ws).observed| == |s.observed| + |ws|
    ensures Replay(s, ws).observed[|s.observed| + i] == Replay(s, ws).log[|s.log| + i]
    ensures Replay(s, ws).observed[|s.observed| + i] == Replay(s, ws[..i + 1]).value
  {
    ReplayLog(s, ws);
    ReplayValue(s, ws[..i + 1]);
  }

  /** Setting the same value n times notifies n times: there is no check that
      the value actually changed. */
  lemma RepeatedSetNotifiesEachTime<T>(s: PropertyState<T>, n: nat)
    ensures Replay(s, seq(n, _ => s.value)).value == s.value
    ensures Replay(s, seq(n, _ => s.value)).log == s.log + seq(n, _ => s.value)
  {
    ReplayLog(s, seq(n, _ => s.value));
    ReplayValue(s, seq(n, _ => s.value));
  }
}

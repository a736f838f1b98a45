/**
 * A flow instance (`Flow`): the shared state it owns, the start methods and
 * listener map `FlowMeta` built from its class body, its method table, and the
 * imperative `run` / `_execute_listeners` pair, each proved to do what
 * `FlowSemantics` says. The trace is a ghost record of the calls and reported
 * errors.
 */
module FlowRuntime {
  import opened Wrappers
  import opened FlowMeta
  import opened FlowSemantics

  /** The shared state of a flow: the `{}` a flow makes for itself when no
      initial state is set, or an object of the user's state type `O` (which
      may itself be a dict the user supplied or a state class made). */
  datatype FlowState<O> = Dict(entries: map<string, O>) | Instance(obj: O)

  /** The class attribute `initial_state`: not set, a class that is called to
      make the state (the call returns `None` when it raises), or a value that
      becomes the state itself. */
  datatype InitialState<O> = Unset | StateClass(instantiate: () -> Option<O>) | StateValue(value: O)

  /** `_create_initial_state`, or `None` when it raises. */
  function CreateInitialState<O>(initial: InitialState<O>): (s: Option<FlowState<O>>)
    ensures s.None? ==> initial.StateClass?
    ensures s.Some? && s.value.Dict? ==> initial.Unset? && s.value.entries == map[]
  {
    match initial
    case Unset => Some(Dict(map[]))
    case StateClass(instantiate) =>
      var made := instantiate();
      if made.Some? then Some(Instance(made.value)) else None
    case StateValue(value) => Some(Instance(value))
  }

  /** Calling a flow class: `__init__` makes the state with
      `_create_initial_state`, so construction fails exactly when calling the
      state class raises. Otherwise the new flow holds the start methods and
      listener map built from its class body, and the state is a new empty
      dict, what the state class returned, or the value given. */
  method NewFlow<O, V>(ms: seq<Member>, methods: map<string, Step<FlowState<O>, V>>,
                       initial: InitialState<O>, ghost rank: map<string, nat>)
      returns (f: Option<Flow<O, V>>)
    requires Ranked(ListenerMap(ms), rank)
    ensures f.None? <==> initial.StateClass? && initial.instantiate().None?
    ensures f.Some? ==> fresh(f.value) && f.value.Valid() && f.value.trace == []
                        && f.value.engine == Engine(StartMethods(ms), ListenerMap(ms), methods)
    ensures f.Some? && initial.Unset? ==> f.value.state == Dict(map[])
    ensures f.Some? && initial.StateClass? ==> f.value.state == Instance(initial.instantiate().value)
    ensures f.Some? && initial.StateValue? ==> f.value.state == Instance(initial.value)
  {
    var st := CreateInitialState(initial);
    if st.None? {
      return None;
    }
    var flow := new Flow(ms, methods, st.value, rank);
    return Some(flow);
  }

  /** A listener whose triggers name no start method and no listener of the
      class body is never called: nothing ever fires it. */
  lemma {:induction false} UnfiredListenerNeverCalled<O, V>(ms: seq<Member>, methods: map<string, Step<FlowState<O>, V>>,
                                                           rank: map<string, nat>, k: nat, st: FlowState<O>)
    requires DistinctNames(ms) && k < |ms| && !ms[k].isStart
    requires Ranked(ListenerMap(ms), rank)
    requires forall j, i :: 0 <= j < |ms[k].triggers| && 0 <= i < |ms| && ms[i].name == TriggerName(ms[k].triggers[j])
                            ==> !ms[i].isStart && ms[i].triggers == []
    ensures var r := Execute(Engine(StartMethods(ms), ListenerMap(ms), methods), rank, st);
            forall i :: 0 <= i < |r.trace| ==> r.trace[i].name != ms[k].name
  {
    var e := Engine(StartMethods(ms), ListenerMap(ms), methods);
    var n := ms[k].name;
    assert n !in e.startMethods by {
      StartMethodsMembership(ms, n);
      forall i | 0 <= i < |ms| && ms[i].name == n ensures i == k {
        assert MemberNames(ms)[i] == n && MemberNames(ms)[k] == n;
      }
    }
    forall u | u in e.listeners && n in e.listeners[u]
      ensures u !in e.startMethods && !IsListener(e.listeners, u)
    {
      ListenerMapIsListenersFor(ms, u);
      ListenerMultiplicity(ms, k, u);
      OccurrencesPositive(ms[k].triggers, u);
      var j :| 0 <= j < |ms[k].triggers| && TriggerName(ms[k].triggers[j]) == u;
      StartMethodsMembership(ms, u);
      if IsListener(e.listeners, u) {
        var t :| t in e.listeners && u in e.listeners[t];
        ListenerMapIsListenersFor(ms, t);
        if i :| 0 <= i < |ms| && ms[i].name == u {
          ListenerMultiplicity(ms, i, t);
          OccurrencesPositive(ms[i].triggers, t);
        } else {
          NotListedWhenAbsent(ms, u, t);
        }
      }
    }
    OrphanNeverCalled(e, rank, n, st);
  }

  class Flow<O, V> {
    const engine: Engine<FlowState<O>, V>
    ghost const rank: map<string, nat>
    var state: FlowState<O>
    ghost var trace: seq<Event<V>>

    /** The trigger graph has no cycle. */
    ghost predicate Valid()
    {
      Ranked(engine.listeners, rank)
    }

    /** The rest of `Flow.__init__` once the state is made: the class's start
        methods and listener map, as `FlowMeta` built them from the class body
        `ms`, and the instance's method table. */
    constructor (ms: seq<Member>, methods: map<string, Step<FlowState<O>, V>>, st: FlowState<O>, ghost rank: map<string, nat>)
      requires Ranked(ListenerMap(ms), rank)
      ensures Valid()
      ensures engine == Engine(StartMethods(ms), ListenerMap(ms), methods) && this.rank == rank
      ensures state == st && trace == []
    {
      engine := Engine(StartMethods(ms), ListenerMap(ms), methods);
      this.rank := rank;
      state := st;
      trace := [];
    }

    /** `run()`: the error it raises, if any, the state it leaves and the calls
        it makes are those of `Execute`. */
    method Run() returns (error: Option<RunError>)
      requires Valid()
      modifies this
      ensures var r := Execute(engine, rank, old(state));
              state == r.state && trace == old(trace) + r.trace && error == r.error
    {
      var starts := engine.startMethods;
      if |starts| == 0 {
        return Some(NoStartMethod);
      }
      ghost var all := RunStarts(engine, rank, starts, state);
      assert Execute(engine, rank, old(state)) == all;
      var i := 0;
      while i < |starts|
        invariant 0 <= i <= |starts|
        invariant all.state == RunStarts(engine, rank, starts[i..], state).state
        invariant all.error == RunStarts(engine, rank, starts[i..], state).error
        invariant old(trace) + all.trace == trace + RunStarts(engine, rank, starts[i..], state).trace
      {
        var s := starts[i];
        ghost var pre, before := state, trace;
        assert starts[i..][0] == s && starts[i..][1..] == starts[i + 1..];
        if s !in engine.methods {
          RunStartsMissing(engine, rank, starts[i..], pre);
          return Some(MissingMethod(s));
        }
        var out := engine.methods[s](state, None);
        state := out.state;
        trace := trace + [Invoked(s, None)];
        if out.Raised? {
          RunStartsRaised(engine, rank, starts[i..], pre);
          return Some(StartRaised(s));
        }
        ExecuteListeners(s, out.value);
        ghost var w := Propagate(engine, rank, s, out.value, out.state);
        ghost var next := RunStarts(engine, rank, starts[i + 1..], w.state);
        RunStartsReturned(engine, rank, starts[i..], pre, w, next);
        AppendStep(before, [Invoked(s, None)], w.trace, next.trace);
        i := i + 1;
      }
      return None;
    }

    /** `_execute_listeners(trigger, result)`: the state it leaves and the calls
        it makes are those of `Propagate`; it never raises. */
    method ExecuteListeners(trigger: string, result: V)
      requires Valid()
      modifies this
      ensures var w := Propagate(engine, rank, trigger, result, old(state));
              state == w.state && trace == old(trace) + w.trace
      decreases Rank(rank, trigger)
    {
      if trigger in engine.listeners {
        var ls := engine.listeners[trigger];
        ghost var all := ListenerLoop(engine, rank, trigger, ls, result, state);
        assert Propagate(engine, rank, trigger, result, old(state)) == Walk(all.state, all.trace, false);
        var j := 0;
        while j < |ls|
          invariant 0 <= j <= |ls|
          invariant all.state == ListenerLoop(engine, rank, trigger, ls[j..], result, state).state
          invariant old(trace) + all.trace == trace + ListenerLoop(engine, rank, trigger, ls[j..], result, state).trace
        {
          var l := ls[j];
          ghost var pre, before := state, trace;
          assert ls[j..][0] == l && ls[j..][1..] == ls[j + 1..];
          if l !in engine.methods {
            ListenerLoopMissing(engine, rank, trigger, ls[j..], result, pre);
            trace := trace + [Reported(l)];
            return;
          }
          var out := engine.methods[l](state, Some(result));
          state := out.state;
          trace := trace + [Invoked(l, Some(result))];
          if out.Raised? {
            ListenerLoopRaised(engine, rank, trigger, ls[j..], result, pre);
            trace := trace + [Reported(l)];
            return;
          }
          ExecuteListeners(l, out.value);
          ghost var sub := Propagate(engine, rank, l, out.value, out.state);
          ghost var next := ListenerLoop(engine, rank, trigger, ls[j + 1..], result, sub.state);
          ListenerLoopReturned(engine, rank, trigger, ls[j..], result, pre, sub, next);
          AppendStep(before, [Invoked(l, Some(result))], sub.trace, next.trace);
          j := j + 1;
        }
      }
    }
  }
}

/**
 * What `Flow.run` and `Flow._execute_listeners` do, as functions of the flow's
 * start methods, listener map and method table.
 *
 * A step is a bound method of the flow: it sees the shared state and, when it
 * runs as a listener, the result of the step that fired it. It either returns
 * a value or raises; in both cases any change it made to the shared state
 * stays. Every walk records a trace of the calls it makes (`Invoked`) and of
 * the listener errors it reports (`Reported`).
 *
 * The listener map must carry a rank that strictly decreases from each trigger
 * to each of its listeners, so the graph has no cycle and the recursion is
 * measured by that rank. (Python has no such requirement: a walk deeper than
 * its recursion limit raises `RecursionError`, which the listener loop catches
 * and reports like any other listener error.)
 */
module FlowSemantics {
  import opened Wrappers

  /** The effect of calling a step: it returned `value`, or it raised. */
  datatype Outcome<S, V> = Returned(state: S, value: V) | Raised(state: S)

  /** A step method; its argument is `None` when it runs as a start method. */
  type Step<!S, !V> = (S, Option<V>) -> Outcome<S, V>

  datatype Event<V> = Invoked(name: string, input: Option<V>) | Reported(name: string)

  /** A flow instance: the class's `_start_methods` and `_listeners`, and the
      instance's `_methods` table. */
  datatype Engine<!S, !V> = Engine(
    startMethods: seq<string>,
    listeners: map<string, seq<string>>,
    methods: map<string, Step<S, V>>)

  /** The state and trace after a walk; `halted` says that a listener loop
      left early with `return`. */
  datatype Walk<S, V> = Walk(state: S, trace: seq<Event<V>>, halted: bool)

  /** Why `run` raised: no start method, a start method raised, or a start
      method had no entry in the method table. */
  datatype RunError = NoStartMethod | StartRaised(name: string) | MissingMethod(name: string)

  datatype RunResult<S, V> = RunResult(state: S, trace: seq<Event<V>>, error: Option<RunError>)

  function Rank(rank: map<string, nat>, n: string): nat
  {
    if n in rank then rank[n] else 0
  }

  /** Every listener ranks strictly below each trigger it is registered on,
      so the trigger graph has no cycle. */
  ghost predicate Ranked(listeners: map<string, seq<string>>, rank: map<string, nat>)
  {
    forall t, l :: t in listeners && l in listeners[t] ==> Rank(rank, l) < Rank(rank, t)
  }

  ghost predicate IsListener(listeners: map<string, seq<string>>, n: string)
  {
    exists u :: u in listeners && n in listeners[u]
  }

  /** `n` is registered on some trigger that is one of `roots` or is itself a listener. */
  ghost predicate FiredFrom(listeners: map<string, seq<string>>, roots: seq<string>, n: string)
  {
    exists u :: u in listeners && n in listeners[u] && (u in roots || IsListener(listeners, u))
  }

  /** Every call recorded in `trace` had an upstream input. */
  ghost predicate ListenerCallsOnly<V>(trace: seq<Event<V>>)
  {
    forall i :: 0 <= i < |trace| && trace[i].Invoked? ==> trace[i].input.Some?
  }

  // ---------------------------------------------------------------------------
  // The engine

  /** `_execute_listeners(t, x)` started in state `st`. The exception of a
      listener never escapes it, so the walk is never halted. */
  function Propagate<S, V>(e: Engine<S, V>, ghost rank: map<string, nat>, t: string, x: V, st: S): (w: Walk<S, V>)
    requires Ranked(e.listeners, rank)
    ensures !w.halted
    ensures t !in e.listeners ==> w.state == st && w.trace == []
    decreases Rank(rank, t), 1, 0
  {
    if t in e.listeners then
      var w := ListenerLoop(e, rank, t, e.listeners[t], x, st);
      Walk(w.state, w.trace, false)
    else
      Walk(st, [], false)
  }

  /** The loop of `_execute_listeners(t, x)` over the listeners `ls` of `t`. */
  function ListenerLoop<S, V>(e: Engine<S, V>, ghost rank: map<string, nat>, t: string, ls: seq<string>, x: V, st: S): (w: Walk<S, V>)
    requires Ranked(e.listeners, rank)
    requires t in e.listeners && forall l :: l in ls ==> l in e.listeners[t]
    decreases Rank(rank, t), 0, |ls|
  {
    if ls == [] then Walk(st, [], false)
    else
      var l := ls[0];
      if l !in e.methods then
        Walk(st, [Reported(l)], true)
      else
        match e.methods[l](st, Some(x))
        case Raised(st') =>
          Walk(st', [Invoked(l, Some(x)), Reported(l)], true)
        case Returned(st', y) =>
          var sub := Propagate(e, rank, l, y, st');
          var rest := ListenerLoop(e, rank, t, ls[1..], x, sub.state);
          Walk(rest.state, [Invoked(l, Some(x))] + sub.trace + rest.trace, rest.halted)
  }

  /** The loop of `run` over the start methods `ss`. */
  function RunStarts<S, V>(e: Engine<S, V>, ghost rank: map<string, nat>, ss: seq<string>, st: S): (r: RunResult<S, V>)
    requires Ranked(e.listeners, rank)
    ensures r.error != Some(NoStartMethod)
  {
    if ss == [] then RunResult(st, [], None)
    else
      var s := ss[0];
      if s !in e.methods then
        RunResult(st, [], Some(MissingMethod(s)))
      else
        match e.methods[s](st, None)
        case Raised(st') =>
          RunResult(st', [Invoked(s, None)], Some(StartRaised(s)))
        case Returned(st', y) =>
          var w := Propagate(e, rank, s, y, st');
          var rest := RunStarts(e, rank, ss[1..], w.state);
          RunResult(rest.state, [Invoked(s, None)] + w.trace + rest.trace, rest.error)
  }

  /** `run()` started in state `st`: it raises before calling anything when
      there is no start method. */
  function Execute<S, V>(e: Engine<S, V>, ghost rank: map<string, nat>, st: S): (r: RunResult<S, V>)
    requires Ranked(e.listeners, rank)
    ensures r.error == Some(NoStartMethod) <==> e.startMethods == []
    ensures e.startMethods == [] ==> r.trace == [] && r.state == st
  {
    if e.startMethods == [] then RunResult(st, [], Some(NoStartMethod))
    else RunStarts(e, rank, e.startMethods, st)
  }

  // ---------------------------------------------------------------------------
  // One iteration of each loop, case by case

  lemma ListenerLoopMissing<S, V>(e: Engine<S, V>, rank: map<string, nat>, t: string, ls: seq<string>, x: V, st: S)
    requires Ranked(e.listeners, rank)
    requires t in e.listeners && forall l :: l in ls ==> l in e.listeners[t]
    requires ls != [] && ls[0] !in e.methods
    ensures ListenerLoop(e, rank, t, ls, x, st) == Walk(st, [Reported(ls[0])], true)
  {
  }

  lemma ListenerLoopRaised<S, V>(e: Engine<S, V>, rank: map<string, nat>, t: string, ls: seq<string>, x: V, st: S)
    requires Ranked(e.listeners, rank)
    requires t in e.listeners && forall l :: l in ls ==> l in e.listeners[t]
    requires ls != [] && ls[0] in e.methods && e.methods[ls[0]](st, Some(x)).Raised?
    ensures ListenerLoop(e, rank, t, ls, x, st)
            == Walk(e.methods[ls[0]](st, Some(x)).state, [Invoked(ls[0], Some(x)), Reported(ls[0])], true)
  {
  }

  lemma ListenerLoopReturned<S, V>(e: Engine<S, V>, rank: map<string, nat>, t: string, ls: seq<string>, x: V, st: S,
                                   sub: Walk<S, V>, rest: Walk<S, V>)
    requires Ranked(e.listeners, rank)
    requires t in e.listeners && forall l :: l in ls ==> l in e.listeners[t]
    requires ls != [] && ls[0] in e.methods && e.methods[ls[0]](st, Some(x)).Returned?
    requires sub == Propagate(e, rank, ls[0], e.methods[ls[0]](st, Some(x)).value, e.methods[ls[0]](st, Some(x)).state)
    requires rest == ListenerLoop(e, rank, t, ls[1..], x, sub.state)
    ensures ListenerLoop(e, rank, t, ls, x, st) == Walk(rest.state, [Invoked(ls[0], Some(x))] + sub.trace + rest.trace, rest.halted)
  {
  }

  lemma RunStartsMissing<S, V>(e: Engine<S, V>, rank: map<string, nat>, ss: seq<string>, st: S)
    requires Ranked(e.listeners, rank)
    requires ss != [] && ss[0] !in e.methods
    ensures RunStarts(e, rank, ss, st) == RunResult(st, [], Some(MissingMethod(ss[0])))
  {
  }

  lemma RunStartsRaised<S, V>(e: Engine<S, V>, rank: map<string, nat>, ss: seq<string>, st: S)
    requires Ranked(e.listeners, rank)
    requires ss != [] && ss[0] in e.methods && e.methods[ss[0]](st, None).Raised?
    ensures RunStarts(e, rank, ss, st)
            == RunResult(e.methods[ss[0]](st, None).state, [Invoked(ss[0], None)], Some(StartRaised(ss[0])))
  {
  }

  lemma RunStartsReturned<S, V>(e: Engine<S, V>, rank: map<string, nat>, ss: seq<string>, st: S,
                                w: Walk<S, V>, rest: RunResult<S, V>)
    requires Ranked(e.listeners, rank)
    requires ss != [] && ss[0] in e.methods && e.methods[ss[0]](st, None).Returned?
    requires w == Propagate(e, rank, ss[0], e.methods[ss[0]](st, None).value, e.methods[ss[0]](st, None).state)
    requires rest == RunStarts(e, rank, ss[1..], w.state)
    ensures RunStarts(e, rank, ss, st) == RunResult(rest.state, [Invoked(ss[0], None)] + w.trace + rest.trace, rest.error)
  {
  }

  /** Reassociates the trace built by one loop iteration. */
  lemma AppendAssoc<V>(a: seq<Event<V>>, b: seq<Event<V>>, c: seq<Event<V>>)
    ensures a + (b + c) == (a + b) + c
  {
  }

  lemma AppendStep<V>(before: seq<Event<V>>, call: seq<Event<V>>, sub: seq<Event<V>>, rest: seq<Event<V>>)
    ensures before + (call + sub + rest) == (before + call + sub) + rest
  {
  }

  // ---------------------------------------------------------------------------
  // The listener loop: payload, containment and the early return

  lemma {:induction false} ListenerLoopAppend<S, V>(e: Engine<S, V>, rank: map<string, nat>, t: string, ls1: seq<string>, ls2: seq<string>, x: V, st: S)
    requires Ranked(e.listeners, rank)
    requires t in e.listeners && forall l :: l in ls1 + ls2 ==> l in e.listeners[t]
    ensures var w1 := ListenerLoop(e, rank, t, ls1, x, st);
            var w := ListenerLoop(e, rank, t, ls1 + ls2, x, st);
            if w1.halted then w == w1
            else
              var w2 := ListenerLoop(e, rank, t, ls2, x, w1.state);
              w == Walk(w2.state, w1.trace + w2.trace, w2.halted)
  {
    if ls1 == [] {
      assert ls1 + ls2 == ls2;
    } else {
      var l := ls1[0];
      assert (ls1 + ls2)[0] == l && (ls1 + ls2)[1..] == ls1[1..] + ls2;
      if l !in e.methods {
        ListenerLoopMissing(e, rank, t, ls1, x, st);
        ListenerLoopMissing(e, rank, t, ls1 + ls2, x, st);
      } else if e.methods[l](st, Some(x)).Raised? {
        ListenerLoopRaised(e, rank, t, ls1, x, st);
        ListenerLoopRaised(e, rank, t, ls1 + ls2, x, st);
      } else {
        var out := e.methods[l](st, Some(x));
        var sub := Propagate(e, rank, l, out.value, out.state);
        var tail1 := ListenerLoop(e, rank, t, ls1[1..], x, sub.state);
        var tail := ListenerLoop(e, rank, t, ls1[1..] + ls2, x, sub.state);
        ListenerLoopReturned(e, rank, t, ls1, x, st, sub, tail1);
        ListenerLoopReturned(e, rank, t, ls1 + ls2, x, st, sub, tail);
        ListenerLoopAppend(e, rank, t, ls1[1..], ls2, x, sub.state);
        if !tail1.halted {
          var w2 := ListenerLoop(e, rank, t, ls2, x, tail1.state);
          AppendAssoc([Invoked(l, Some(x))] + sub.trace, tail1.trace, w2.trace);
        }
      }
    }
  }

  /** The i-th listener of `t`, reached after the listeners before it ran
      without the loop leaving early. It is called with exactly `x`, the result
      of `t`. If it raises (or has no method), one `Reported` event is recorded
      and nothing follows: neither its own listeners nor its later siblings
      run, yet `Propagate` itself returns normally. If it returns `y`, its own
      listeners are propagated with `y`, and whatever happens there, the later
      siblings of `t` then run from the state that subtree left. */
  lemma ListenerStepInContext<S, V>(e: Engine<S, V>, rank: map<string, nat>, t: string, i: nat, x: V, st: S)
    requires Ranked(e.listeners, rank)
    requires t in e.listeners && i < |e.listeners[t]|
    requires !ListenerLoop(e, rank, t, e.listeners[t][..i], x, st).halted
    ensures var ls := e.listeners[t];
            var l := ls[i];
            var w1 := ListenerLoop(e, rank, t, ls[..i], x, st);
            var w := Propagate(e, rank, t, x, st);
            if l !in e.methods then
              w == Walk(w1.state, w1.trace + [Reported(l)], false)
            else
              var out := e.methods[l](w1.state, Some(x));
              if out.Raised? then
                w == Walk(out.state, w1.trace + [Invoked(l, Some(x)), Reported(l)], false)
              else
                var sub := Propagate(e, rank, l, out.value, out.state);
                var rest := ListenerLoop(e, rank, t, ls[i + 1..], x, sub.state);
                w == Walk(rest.state, w1.trace + [Invoked(l, Some(x))] + sub.trace + rest.trace, false)
  {
    var ls, l := e.listeners[t], e.listeners[t][i];
    var w1 := ListenerLoop(e, rank, t, ls[..i], x, st);
    var w2 := ListenerLoop(e, rank, t, ls[i..], x, w1.state);
    assert ls[..i] + ls[i..] == ls;
    ListenerLoopAppend(e, rank, t, ls[..i], ls[i..], x, st);
    assert ListenerLoop(e, rank, t, ls, x, st) == Walk(w2.state, w1.trace + w2.trace, w2.halted);
    assert ls[i..][0] == l && ls[i..][1..] == ls[i + 1..];
    if l !in e.methods {
      ListenerLoopMissing(e, rank, t, ls[i..], x, w1.state);
    } else {
      var out := e.methods[l](w1.state, Some(x));
      if out.Raised? {
        ListenerLoopRaised(e, rank, t, ls[i..], x, w1.state);
      } else {
        var sub := Propagate(e, rank, l, out.value, out.state);
        var rest := ListenerLoop(e, rank, t, ls[i + 1..], x, sub.state);
        ListenerLoopReturned(e, rank, t, ls[i..], x, w1.state, sub, rest);
        AppendStep(w1.trace, [Invoked(l, Some(x))], sub.trace, rest.trace);
      }
    }
  }

  /** The listener loop leaves early only right after reporting one of its own
      listeners, so the report is the last event of the loop. */
  lemma {:induction false} ListenerLoopHaltsOnReport<S, V>(e: Engine<S, V>, rank: map<string, nat>, t: string, ls: seq<string>, x: V, st: S)
    requires Ranked(e.listeners, rank)
    requires t in e.listeners && forall l :: l in ls ==> l in e.listeners[t]
    ensures var w := ListenerLoop(e, rank, t, ls, x, st);
            w.halted ==> |w.trace| > 0 && w.trace[|w.trace| - 1].Reported? && w.trace[|w.trace| - 1].name in ls
  {
    if ls != [] && ls[0] in e.methods && e.methods[ls[0]](st, Some(x)).Returned? {
      var out := e.methods[ls[0]](st, Some(x));
      var sub := Propagate(e, rank, ls[0], out.value, out.state);
      ListenerLoopHaltsOnReport(e, rank, t, ls[1..], x, sub.state);
    }
  }

  /** In a chain `a -> b -> c` where `b` is the first listener of `a` and `c`
      the first listener of `b`: `b` receives the result of `a`, and `c`
      receives the result of `b`, not that of `a`. */
  lemma ChainPassesEachResultOn<S, V>(e: Engine<S, V>, rank: map<string, nat>, a: string, b: string, c: string, x: V, st: S)
    requires Ranked(e.listeners, rank)
    requires a in e.listeners && |e.listeners[a]| > 0 && e.listeners[a][0] == b
    requires b in e.listeners && |e.listeners[b]| > 0 && e.listeners[b][0] == c
    requires b in e.methods && c in e.methods && e.methods[b](st, Some(x)).Returned?
    ensures var trace := Propagate(e, rank, a, x, st).trace;
            |trace| >= 2 && trace[0] == Invoked(b, Some(x))
            && trace[1] == Invoked(c, Some(e.methods[b](st, Some(x)).value))
  {
    ListenerStepInContext(e, rank, a, 0, x, st);
    var out := e.methods[b](st, Some(x));
    ListenerStepInContext(e, rank, b, 0, out.value, out.state);
  }

  // ---------------------------------------------------------------------------
  // The order of calls when nothing fails

  /** The names the depth-first walk from `t` reaches, one per edge walked:
      each listener of `t` in order, each followed by its own walk. */
  ghost function Preorder(g: map<string, seq<string>>, rank: map<string, nat>, t: string): seq<string>
    requires Ranked(g, rank)
    decreases Rank(rank, t), 1, 0
  {
    if t in g then PreorderList(g, rank, t, g[t]) else []
  }

  ghost function PreorderList(g: map<string, seq<string>>, rank: map<string, nat>, t: string, ls: seq<string>): seq<string>
    requires Ranked(g, rank)
    requires t in g && forall l :: l in ls ==> l in g[t]
    decreases Rank(rank, t), 0, |ls|
  {
    if ls == [] then [] else [ls[0]] + Preorder(g, rank, ls[0]) + PreorderList(g, rank, t, ls[1..])
  }

  function Names<V>(trace: seq<Event<V>>): seq<string>
  {
    if trace == [] then [] else [trace[0].name] + Names(trace[1..])
  }

  ghost predicate NothingReported<V>(trace: seq<Event<V>>)
  {
    forall i :: 0 <= i < |trace| ==> trace[i].Invoked?
  }

  lemma {:induction false} NamesAppend<V>(a: seq<Event<V>>, b: seq<Event<V>>)
    ensures Names(a + b) == Names(a) + Names(b)
  {
    if a == [] {
      assert a + b == b;
    } else {
      assert (a + b)[1..] == a[1..] + b;
      NamesAppend(a[1..], b);
    }
  }

  /** When no listener fails, `_execute_listeners(t, x)` calls exactly the
      depth-first walk of the trigger graph from `t`: once per edge reached,
      with no deduplication. */
  lemma {:induction false} PropagateFollowsPreorder<S, V>(e: Engine<S, V>, rank: map<string, nat>, t: string, x: V, st: S)
    requires Ranked(e.listeners, rank)
    requires NothingReported(Propagate(e, rank, t, x, st).trace)
    ensures Names(Propagate(e, rank, t, x, st).trace) == Preorder(e.listeners, rank, t)
    decreases Rank(rank, t), 1, 0
  {
    if t in e.listeners {
      ListenerLoopFollowsPreorder(e, rank, t, e.listeners[t], x, st);
    }
  }

  lemma {:induction false} ListenerLoopFollowsPreorder<S, V>(e: Engine<S, V>, rank: map<string, nat>, t: string, ls: seq<string>, x: V, st: S)
    requires Ranked(e.listeners, rank)
    requires t in e.listeners && forall l :: l in ls ==> l in e.listeners[t]
    requires NothingReported(ListenerLoop(e, rank, t, ls, x, st).trace)
    ensures Names(ListenerLoop(e, rank, t, ls, x, st).trace) == PreorderList(e.listeners, rank, t, ls)
    decreases Rank(rank, t), 0, |ls|
  {
    if ls != [] {
      var l := ls[0];
      var w := ListenerLoop(e, rank, t, ls, x, st);
      if l in e.methods && e.methods[l](st, Some(x)).Returned? {
        var st', y := e.methods[l](st, Some(x)).state, e.methods[l](st, Some(x)).value;
        var sub := Propagate(e, rank, l, y, st');
        var rest := ListenerLoop(e, rank, t, ls[1..], x, sub.state);
        assert w.trace == [Invoked(l, Some(x))] + (sub.trace + rest.trace);
        assert NothingReported(sub.trace) by {
          forall i | 0 <= i < |sub.trace| ensures sub.trace[i].Invoked? {
            assert w.trace[1 + i] == sub.trace[i];
          }
        }
        assert NothingReported(rest.trace) by {
          forall i | 0 <= i < |rest.trace| ensures rest.trace[i].Invoked? {
            assert w.trace[1 + |sub.trace| + i] == rest.trace[i];
          }
        }
        PropagateFollowsPreorder(e, rank, l, y, st');
        ListenerLoopFollowsPreorder(e, rank, t, ls[1..], x, sub.state);
        NamesAppend([Invoked(l, Some(x))], sub.trace + rest.trace);
        NamesAppend(sub.trace, rest.trace);
      }
    }
  }

  // ---------------------------------------------------------------------------
  // The start-method loop of `run`

  /** The start-method calls in a trace: calls made without upstream input. */
  function StartCalls<V>(trace: seq<Event<V>>): seq<string>
  {
    if trace == [] then []
    else (if trace[0].Invoked? && trace[0].input.None? then [trace[0].name] else []) + StartCalls(trace[1..])
  }

  lemma {:induction false} StartCallsAppend<V>(a: seq<Event<V>>, b: seq<Event<V>>)
    ensures StartCalls(a + b) == StartCalls(a) + StartCalls(b)
  {
    if a == [] {
      assert a + b == b;
    } else {
      assert (a + b)[1..] == a[1..] + b;
      StartCallsAppend(a[1..], b);
    }
  }

  lemma {:induction false} NoStartCallsInListenerTrace<V>(trace: seq<Event<V>>)
    requires ListenerCallsOnly(trace)
    ensures StartCalls(trace) == []
  {
    if trace != [] {
      assert ListenerCallsOnly(trace[1..]) by {
        forall i | 0 <= i < |trace[1..]| && trace[1..][i].Invoked? ensures trace[1..][i].input.Some? {
          assert trace[1..][i] == trace[i + 1];
        }
      }
      NoStartCallsInListenerTrace(trace[1..]);
    }
  }

  /** Every start method is called once, without input, in list order; a
      start method that raises or has no method ends the run there, so no
      later start method is called. */
  lemma {:induction false} StartsCalledInOrder<S, V>(e: Engine<S, V>, rank: map<string, nat>, ss: seq<string>, st: S)
    requires Ranked(e.listeners, rank)
    ensures var r := RunStarts(e, rank, ss, st);
            (r.error == None ==> StartCalls(r.trace) == ss)
            && (r.error.Some? && r.error.value.StartRaised? ==>
                  exists k :: 0 <= k < |ss| && ss[k] == r.error.value.name && StartCalls(r.trace) == ss[..k + 1])
            && (r.error.Some? && r.error.value.MissingMethod? ==>
                  exists k :: 0 <= k < |ss| && ss[k] == r.error.value.name && StartCalls(r.trace) == ss[..k])
  {
    if ss != [] {
      var s := ss[0];
      var r := RunStarts(e, rank, ss, st);
      if s !in e.methods {
        assert r == RunResult(st, [], Some(MissingMethod(s)));
        assert ss[..0] == [];
      } else {
        var out := e.methods[s](st, None);
        if out.Raised? {
          assert r == RunResult(out.state, [Invoked(s, None)], Some(StartRaised(s)));
          assert StartCalls(r.trace) == [s] + StartCalls(r.trace[1..]);
          assert ss[..1] == [s];
        } else {
          var w := Propagate(e, rank, s, out.value, out.state);
          var rest := RunStarts(e, rank, ss[1..], w.state);
          assert r == RunResult(rest.state, [Invoked(s, None)] + w.trace + rest.trace, rest.error);
          StartsCalledInOrder(e, rank, ss[1..], w.state);
          PropagateReachesListenersOnly(e, rank, s, out.value, out.state);
          NoStartCallsInListenerTrace(w.trace);
          StartCallsAppend([Invoked(s, None)] + w.trace, rest.trace);
          StartCallsAppend([Invoked(s, None)], w.trace);
          assert StartCalls<V>([Invoked(s, None)]) == [s];
          var calls := StartCalls(r.trace);
          assert calls == [s] + StartCalls(rest.trace);
          StartCallsPrefix(ss, rest.error, StartCalls(rest.trace), calls);
        }
      }
    }
  }

  /** The step case of `StartsCalledInOrder`: what holds of the run after the
      first start method holds of the whole run, shifted by one. */
  lemma StartCallsPrefix(ss: seq<string>, err: Option<RunError>, tail: seq<string>, calls: seq<string>)
    requires |ss| > 0 && calls == [ss[0]] + tail
    requires err == None ==> tail == ss[1..]
    requires err.Some? && err.value.StartRaised? ==>
               exists k :: 0 <= k < |ss[1..]| && ss[1..][k] == err.value.name && tail == ss[1..][..k + 1]
    requires err.Some? && err.value.MissingMethod? ==>
               exists k :: 0 <= k < |ss[1..]| && ss[1..][k] == err.value.name && tail == ss[1..][..k]
    ensures err == None ==> calls == ss
    ensures err.Some? && err.value.StartRaised? ==>
              exists k :: 0 <= k < |ss| && ss[k] == err.value.name && calls == ss[..k + 1]
    ensures err.Some? && err.value.MissingMethod? ==>
              exists k :: 0 <= k < |ss| && ss[k] == err.value.name && calls == ss[..k]
  {
    if err == None {
      assert ss == [ss[0]] + ss[1..];
    } else if err.value.StartRaised? {
      var k :| 0 <= k < |ss[1..]| && ss[1..][k] == err.value.name && tail == ss[1..][..k + 1];
      assert ss[..k + 2] == [ss[0]] + ss[1..][..k + 1];
      assert ss[k + 1] == err.value.name;
    } else if err.value.MissingMethod? {
      var k :| 0 <= k < |ss[1..]| && ss[1..][k] == err.value.name && tail == ss[1..][..k];
      assert ss[..k + 1] == [ss[0]] + ss[1..][..k];
      assert ss[k + 1] == err.value.name;
    }
  }

  lemma {:induction false} RunStartsAppend<S, V>(e: Engine<S, V>, rank: map<string, nat>, ss1: seq<string>, ss2: seq<string>, st: S)
    requires Ranked(e.listeners, rank)
    ensures var r1 := RunStarts(e, rank, ss1, st);
            var r := RunStarts(e, rank, ss1 + ss2, st);
            if r1.error.Some? then r == r1
            else
              var r2 := RunStarts(e, rank, ss2, r1.state);
              r == RunResult(r2.state, r1.trace + r2.trace, r2.error)
  {
    if ss1 == [] {
      assert ss1 + ss2 == ss2;
    } else {
      var s := ss1[0];
      assert (ss1 + ss2)[0] == s && (ss1 + ss2)[1..] == ss1[1..] + ss2;
      if s !in e.methods {
        RunStartsMissing(e, rank, ss1, st);
        RunStartsMissing(e, rank, ss1 + ss2, st);
      } else if e.methods[s](st, None).Raised? {
        RunStartsRaised(e, rank, ss1, st);
        RunStartsRaised(e, rank, ss1 + ss2, st);
      } else {
        var out := e.methods[s](st, None);
        var w := Propagate(e, rank, s, out.value, out.state);
        var tail1 := RunStarts(e, rank, ss1[1..], w.state);
        var tail := RunStarts(e, rank, ss1[1..] + ss2, w.state);
        RunStartsReturned(e, rank, ss1, st, w, tail1);
        RunStartsReturned(e, rank, ss1 + ss2, st, w, tail);
        RunStartsAppend(e, rank, ss1[1..], ss2, w.state);
        if tail1.error.None? {
          var r2 := RunStarts(e, rank, ss2, tail1.state);
          AppendAssoc([Invoked(s, None)] + w.trace, tail1.trace, r2.trace);
        }
      }
    }
  }

  /** The i-th start method, reached after the earlier ones and all of their
      listener walks have finished: it is called with no input, and its whole
      listener walk runs before the next start method is called. If it
      raises, the run ends with that error. */
  lemma StartStepInContext<S, V>(e: Engine<S, V>, rank: map<string, nat>, ss: seq<string>, i: nat, st: S)
    requires Ranked(e.listeners, rank)
    requires i < |ss| && ss[i] in e.methods
    requires RunStarts(e, rank, ss[..i], st).error == None
    ensures var r1 := RunStarts(e, rank, ss[..i], st);
            var r := RunStarts(e, rank, ss, st);
            var out := e.methods[ss[i]](r1.state, None);
            if out.Raised? then
              r == RunResult(out.state, r1.trace + [Invoked(ss[i], None)], Some(StartRaised(ss[i])))
            else
              var w := Propagate(e, rank, ss[i], out.value, out.state);
              var rest := RunStarts(e, rank, ss[i + 1..], w.state);
              r == RunResult(rest.state, r1.trace + [Invoked(ss[i], None)] + w.trace + rest.trace, rest.error)
  {
    var r1 := RunStarts(e, rank, ss[..i], st);
    var r2 := RunStarts(e, rank, ss[i..], r1.state);
    assert ss[..i] + ss[i..] == ss;
    RunStartsAppend(e, rank, ss[..i], ss[i..], st);
    assert RunStarts(e, rank, ss, st) == RunResult(r2.state, r1.trace + r2.trace, r2.error);
    assert ss[i..][0] == ss[i] && ss[i..][1..] == ss[i + 1..];
    var out := e.methods[ss[i]](r1.state, None);
    if out.Raised? {
      RunStartsRaised(e, rank, ss[i..], r1.state);
    } else {
      var w := Propagate(e, rank, ss[i], out.value, out.state);
      var rest := RunStarts(e, rank, ss[i + 1..], w.state);
      RunStartsReturned(e, rank, ss[i..], r1.state, w, rest);
      AppendStep(r1.trace, [Invoked(ss[i], None)], w.trace, rest.trace);
    }
  }

  // ---------------------------------------------------------------------------
  // Which steps a walk can reach

  /** `_execute_listeners` always passes a result on (flow.py:78), so a
      listener walk never makes a call without input: start-method calls and
      listener calls can be told apart in a trace. */
  lemma PropagateMakesNoStartCalls<S, V>(e: Engine<S, V>, rank: map<string, nat>, t: string, x: V, st: S)
    requires Ranked(e.listeners, rank)
    ensures StartCalls(Propagate(e, rank, t, x, st).trace) == []
  {
    PropagateReachesListenersOnly(e, rank, t, x, st);
    NoStartCallsInListenerTrace(Propagate(e, rank, t, x, st).trace);
  }

  /** Every event of `_execute_listeners(t, x)` is about a listener registered
      on `t` or on another listener, and every call it makes has an input. */
  lemma {:induction false} PropagateReachesListenersOnly<S, V>(e: Engine<S, V>, rank: map<string, nat>, t: string, x: V, st: S)
    requires Ranked(e.listeners, rank)
    ensures var w := Propagate(e, rank, t, x, st);
            ListenerCallsOnly(w.trace)
            && forall i :: 0 <= i < |w.trace| ==> FiredFrom(e.listeners, [t], w.trace[i].name)
    decreases Rank(rank, t), 1, 0
  {
    if t in e.listeners {
      ListenerLoopReachesListenersOnly(e, rank, t, e.listeners[t], x, st);
    }
  }

  lemma {:induction false} ListenerLoopReachesListenersOnly<S, V>(e: Engine<S, V>, rank: map<string, nat>, t: string, ls: seq<string>, x: V, st: S)
    requires Ranked(e.listeners, rank)
    requires t in e.listeners && forall l :: l in ls ==> l in e.listeners[t]
    ensures var w := ListenerLoop(e, rank, t, ls, x, st);
            ListenerCallsOnly(w.trace)
            && forall i :: 0 <= i < |w.trace| ==> FiredFrom(e.listeners, [t], w.trace[i].name)
    decreases Rank(rank, t), 0, |ls|
  {
    if ls != [] {
      var l := ls[0];
      if l in e.methods && e.methods[l](st, Some(x)).Returned? {
        var out := e.methods[l](st, Some(x));
        var sub := Propagate(e, rank, l, out.value, out.state);
        var rest := ListenerLoop(e, rank, t, ls[1..], x, sub.state);
        PropagateReachesListenersOnly(e, rank, l, out.value, out.state);
        ListenerLoopReachesListenersOnly(e, rank, t, ls[1..], x, sub.state);
        var w := ListenerLoop(e, rank, t, ls, x, st);
        assert w.trace == [Invoked(l, Some(x))] + sub.trace + rest.trace;
        assert IsListener(e.listeners, l) by {
          assert t in e.listeners && l in e.listeners[t];
        }
        forall i | 0 <= i < |w.trace|
          ensures FiredFrom(e.listeners, [t], w.trace[i].name)
          ensures w.trace[i].Invoked? ==> w.trace[i].input.Some?
        {
          if i == 0 {
          } else if i <= |sub.trace| {
            assert w.trace[i] == sub.trace[i - 1];
            var u :| u in e.listeners && sub.trace[i - 1].name in e.listeners[u] && (u in [l] || IsListener(e.listeners, u));
            assert IsListener(e.listeners, u);
          } else {
            assert w.trace[i] == rest.trace[i - 1 - |sub.trace|];
          }
        }
      }
    }
  }

  /** Every event of a run names a start method or a listener registered on a
      start method or on another listener. */
  lemma {:induction false} RunReachesFiredStepsOnly<S, V>(e: Engine<S, V>, rank: map<string, nat>, ss: seq<string>, st: S)
    requires Ranked(e.listeners, rank)
    ensures forall i :: 0 <= i < |RunStarts(e, rank, ss, st).trace| ==>
              RunStarts(e, rank, ss, st).trace[i].name in ss || FiredFrom(e.listeners, ss, RunStarts(e, rank, ss, st).trace[i].name)
  {
    if ss != [] {
      var s := ss[0];
      if s in e.methods && e.methods[s](st, None).Returned? {
        var out := e.methods[s](st, None);
        var w := Propagate(e, rank, s, out.value, out.state);
        var rest := RunStarts(e, rank, ss[1..], w.state);
        PropagateReachesListenersOnly(e, rank, s, out.value, out.state);
        RunReachesFiredStepsOnly(e, rank, ss[1..], w.state);
        assert forall j :: 0 <= j < |rest.trace| ==> rest.trace[j].name in ss[1..] || FiredFrom(e.listeners, ss[1..], rest.trace[j].name);
        var r := RunStarts(e, rank, ss, st);
        assert r.trace == [Invoked(s, None)] + w.trace + rest.trace;
        forall i | 0 <= i < |r.trace|
          ensures r.trace[i].name in ss || FiredFrom(e.listeners, ss, r.trace[i].name)
        {
          if i == 0 {
          } else if i <= |w.trace| {
            assert r.trace[i] == w.trace[i - 1];
            var u :| u in e.listeners && w.trace[i - 1].name in e.listeners[u] && (u in [s] || IsListener(e.listeners, u));
          } else {
            var j := i - 1 - |w.trace|;
            var ev := rest.trace[j];
            assert r.trace[i] == ev;
            assert ev.name in ss[1..] || FiredFrom(e.listeners, ss[1..], ev.name);
            if ev.name !in ss {
              assert ev.name !in ss[1..];
              var u :| u in e.listeners && ev.name in e.listeners[u] && (u in ss[1..] || IsListener(e.listeners, u));
            }
          }
        }
      }
    }
  }

  /** A step whose every trigger is neither a start method nor a listener, and
      which is not a start method itself, never appears in the trace of `run`. */
  lemma OrphanNeverCalled<S, V>(e: Engine<S, V>, rank: map<string, nat>, n: string, st: S)
    requires Ranked(e.listeners, rank)
    requires n !in e.startMethods
    requires forall u :: u in e.listeners && n in e.listeners[u] ==> u !in e.startMethods && !IsListener(e.listeners, u)
    ensures forall i :: 0 <= i < |Execute(e, rank, st).trace| ==> Execute(e, rank, st).trace[i].name != n
  {
    if e.startMethods != [] {
      var r := RunStarts(e, rank, e.startMethods, st);
      RunReachesFiredStepsOnly(e, rank, e.startMethods, st);
      assert Execute(e, rank, st) == r;
      assert forall j :: 0 <= j < |r.trace| ==> r.trace[j].name in e.startMethods || FiredFrom(e.listeners, e.startMethods, r.trace[j].name);
      forall i | 0 <= i < |r.trace| ensures r.trace[i].name != n {
        assert r.trace[i].name in e.startMethods || FiredFrom(e.listeners, e.startMethods, r.trace[i].name);
      }
    }
  }
}

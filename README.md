# crewAI flow engine, modelled in Dafny

This project models the declarative workflow engine of crewAI (`src/crewai/flow/flow.py`). A flow class declares step methods. `@start()` tags the entry points. `@listen(a, b, ...)` registers a method as a listener of the named trigger steps. The engine has two parts, and both are modelled:

- **The trigger-graph builder** (`FlowMeta.__new__`). It scans the class body once, in declaration order. It produces `_start_methods`, the ordered names of the start methods, and `_listeners`, which maps each trigger name to its ordered list of listener names.
- **The execution engine** (`Flow.run` and `Flow._execute_listeners`). `run` calls each start method in order. After each one it propagates the result depth-first through `_listeners`: every listener receives the result of the step that fired it, and its own result becomes the payload for its own listeners. When a listener raises, the error is caught and reported, and the listener loop at that level returns.

Files:

- `wrappers.dfy`: the `Option` type.
- `flow_meta.dfy` (module `FlowMeta`): the builder.
  - The class body is a sequence of `Member(name, isStart, triggers)` records. A trigger is a name or a function object (`TriggerRef`).
  - `BuildGraph` is the imperative scan. `StartMethods` and `ListenerMap` are the functions it is proved against.
  - `ListenersFor` is an independent declarative definition of each listener list. Lemmas connect the scan to it.
- `flow_semantics.dfy` (module `FlowSemantics`): the engine as functions.
  - A step is a total function `(state, Option<input>) -> Outcome`. The outcome is `Returned(state, value)` or `Raised(state)`. A raising step keeps the changes it made to the shared state before raising, as `self._state` does.
  - Every walk produces the new state and a trace of `Invoked(name, input)` and `Reported(name)` events.
- `flow_runtime.dfy` (module `FlowRuntime`): the class `Flow`. It holds the shared `state` (updated in place), a ghost `trace`, and the imperative `Run` and `ExecuteListeners` methods. Each method is proved to produce exactly the state and trace of its specification function.
  - A flow's start methods and listener map are `StartMethods(ms)` and `ListenerMap(ms)` of its class body `ms`.
  - The state is a `FlowState`: the flow's own dict (`Dict`) or an object of the user's state type (`Instance`).
  - `NewFlow` models calling the flow class. It fails when calling the state class raises, as `_create_initial_state` does.
- `flow_scenarios.dfy`: three small concrete flows and the traces they produce.

**Cycles.** This model requires an acyclic trigger graph instead of using a fuel bound. A ghost `rank` map must decrease strictly from every trigger to each of its listeners (`Ranked`), and the recursion is measured by that rank. Python needs no such condition. On a cycle, or on any chain deeper than the interpreter's recursion limit, the innermost call raises `RecursionError`. That is an `Exception`, so the `except` at flow.py:80 catches and reports it, the loop at that level returns, and `run` completes normally.

**Failure containment follows the code.** The intended rule is that a failing listener prunes only its own subtree. The code does more than that. The `return` in the `except` branch (flow.py:82) also skips every later sibling in the same trigger's list. The callers one level up still carry on, because the exception never escapes `_execute_listeners`. This model does what the code does. `FailingListenerSkipsLaterSibling` shows a flow `x -> [y, z]` where `y` raises and `z` is never called.

**The method table.** `_methods` is harvested with `dir(self)` and skips names that start with `__`. So a tagged step can be missing from it, and looking it up raises `KeyError`. The model keeps this case:
- for a listener, the error is caught and reported like any other listener error, but no call is recorded;
- for a start method, the error escapes `run` (`MissingMethod`).

## Model

| member | source | states |
|---|---|---|
| FlowMeta.BuildGraph | src/crewai/flow/flow.py:12-26 | The single pass over the class body yields exactly `StartMethods(ms)` and `ListenerMap(ms)`. It appends start names and listener names in the order the loop meets them, and it creates a list the first time a trigger is seen. |
| FlowMeta.StartMethodsMembership | src/crewai/flow/flow.py:15-17 | A name is in `_start_methods` iff some member of that name is tagged as a start method. |
| FlowMeta.StartMethodsAppend | src/crewai/flow/flow.py:15-17 | Declaration order is kept: the start methods of `a + b` are those of `a` followed by those of `b`. |
| FlowMeta.StartMethodsDistinct | src/crewai/flow/flow.py:15-17 | Class-body names are distinct, so each start method is listed exactly once. |
| FlowMeta.ListenerMapIsListenersFor | src/crewai/flow/flow.py:18-23 | The list built for trigger `t` equals `ListenersFor(ms, t)`: every member in declaration order, once per time it names `t`. `t` has an entry iff that list is non-empty. |
| FlowMeta.ListenersForAppend | src/crewai/flow/flow.py:18-23 | Listener lists keep declaration order: members declared earlier come first. |
| FlowMeta.ListenerListsNonEmpty | src/crewai/flow/flow.py:21-23 | No list in `_listeners` is empty. |
| FlowMeta.ListenerMultiplicity | src/crewai/flow/flow.py:19-23 | No deduplication: a member appears in the list of `t` exactly as many times as it names `t`. |
| FlowMeta.ListenerMapDomain | src/crewai/flow/flow.py:19-22 | A trigger gets an entry iff some member names it. No check is made that the trigger is a member of the class, so an unknown trigger name is accepted. |
| FlowMeta.RepeatedTriggerListedTwice | src/crewai/flow/flow.py:19-23 | A function-object trigger is normalised to its name. Naming the same trigger twice (once by string, once by function) registers the listener twice. |
| FlowMeta.OccurrencesPositive | src/crewai/flow/flow.py:19-20 | A member names `t` at least once iff one of its trigger references has name `t`. |
| FlowSemantics.Propagate | src/crewai/flow/flow.py:74-82 | `_execute_listeners` never lets a listener's exception escape (the walk is never halted). From a name with no entry in `_listeners` it calls nothing and leaves the state unchanged. |
| FlowSemantics.RunStarts | src/crewai/flow/flow.py:70-72 | The start-method loop never yields the no-start-method error; that error comes only from the emptiness check. |
| FlowSemantics.Execute | src/crewai/flow/flow.py:66-72 | `run` raises the no-start-method error iff `_start_methods` is empty. In that case it calls no step and leaves the state unchanged. |
| FlowSemantics.ListenerLoopAppend | src/crewai/flow/flow.py:76-82 | Running the loop over `ls1 + ls2` runs `ls1` first. If that part left early, nothing more happens. Otherwise `ls2` runs from the state `ls1` left, and its events come after. |
| FlowSemantics.ListenerStepInContext | src/crewai/flow/flow.py:76-82 | The i-th listener of `t` is called with exactly `t`'s result. If it raises (or has no method), one `Reported` event is recorded and nothing follows: not its subtree and not its later siblings. If it returns `y`, its subtree is propagated with `y`. Whatever happens in that subtree, the later siblings then run from the state it left. |
| FlowSemantics.ListenerLoopHaltsOnReport | src/crewai/flow/flow.py:80-82 | The loop leaves early only right after reporting one of its own listeners. |
| FlowSemantics.ChainPassesEachResultOn | src/crewai/flow/flow.py:76-79 | In a chain `a -> b -> c`, where `b` is the first listener of `a` and `c` the first listener of `b`: `b` receives `a`'s result and `c` receives `b`'s result, not `a`'s. (`ListenerStepInContext` covers listeners at any position.) |
| FlowSemantics.PropagateFollowsPreorder | src/crewai/flow/flow.py:74-79 | When no listener fails, the calls are exactly the depth-first walk of the trigger graph: once per edge reached, with no deduplication. |
| FlowSemantics.ListenerLoopFollowsPreorder | src/crewai/flow/flow.py:76-79 | The same statement for the loop over any list of a trigger's listeners. |
| FlowSemantics.StartsCalledInOrder | src/crewai/flow/flow.py:70-72 | The calls without input are exactly the start methods in list order when the run completes. If start method k raises, they are the first k+1 and no later start method is called. If start method k has no method, they are the first k. |
| FlowSemantics.RunStartsAppend | src/crewai/flow/flow.py:70-72 | The later start methods run only after the earlier ones have finished, from the state they left, unless an earlier start method ended the run. |
| FlowSemantics.StartStepInContext | src/crewai/flow/flow.py:70-72 | Start method i is called with no input after all events of the earlier start methods. Its whole listener walk comes before the next start method. If it raises, the run ends with that error. |
| FlowSemantics.PropagateMakesNoStartCalls | src/crewai/flow/flow.py:74-79 | A listener walk contains no call without input, so start-method calls and listener calls can be told apart in a trace. |
| FlowSemantics.PropagateReachesListenersOnly | src/crewai/flow/flow.py:74-79 | Every event of a listener walk from `t` names a listener registered on `t` or on another listener, and every call in it has an input. |
| FlowSemantics.ListenerLoopReachesListenersOnly | src/crewai/flow/flow.py:76-79 | The same statement for the loop over a trigger's listeners. |
| FlowSemantics.RunReachesFiredStepsOnly | src/crewai/flow/flow.py:70-79 | Every event of a run names a start method, or a listener registered on a start method or on another listener. |
| FlowSemantics.OrphanNeverCalled | src/crewai/flow/flow.py:18-23 | A step whose triggers are neither start methods nor listeners, and which is not itself a start method, never appears in the run's trace. |
| FlowScenarios.FetchDoubleReportRuns | src/crewai/flow/flow.py:66-82 | `fetch` returns 10, `double` doubles its input, and `report` listens on `double`. The run calls `fetch`, then `double` with 10, then `report` with 20. |
| FlowScenarios.TwoStartsRunInOrder | src/crewai/flow/flow.py:70-72 | Two start methods without listeners are both called, in declaration order. |
| FlowScenarios.FailingListenerSkipsLaterSibling | src/crewai/flow/flow.py:76-82 | `y` raises and is reported, and its later sibling `z` is not called. The run still completes without error. |
| FlowRuntime.CreateInitialState | src/crewai/flow/flow.py:54-60 | Only calling the state class can fail. A `Dict` state (the flow's own `{}`) arises only when `initial_state` is unset, and it is empty. A dict given as `initial_state`, or made by calling `dict`, is an `Instance` state here. |
| FlowRuntime.NewFlow | src/crewai/flow/flow.py:44-60 | Creating a flow fails iff calling the state class raises. Otherwise the flow holds `StartMethods(ms)` and `ListenerMap(ms)` built from its class body, and the given method table. Its trace is empty. Its state is the empty dict when `initial_state` is unset, what the class call returned for a class, and the given value otherwise. |
| FlowRuntime.Flow.constructor | src/crewai/flow/flow.py:44-52 | The rest of `__init__` once the state exists: the flow holds the start methods and listener map that the builder computes from its class body `ms`, its method table and that state. Its trace is empty. |
| FlowRuntime.UnfiredListenerNeverCalled | src/crewai/flow/flow.py:15-23 | For a flow built from class body `ms`: a non-start member whose every trigger names neither a start method nor a member with triggers of its own (or names no member at all) never appears in the run's trace. |
| FlowRuntime.Flow.Run | src/crewai/flow/flow.py:66-72 | The imperative `run` returns the error of `Execute`, and leaves the state and trace that `Execute` describes. |
| FlowRuntime.Flow.ExecuteListeners | src/crewai/flow/flow.py:74-82 | The imperative `_execute_listeners`, a loop with an early `return` and a recursive call, leaves the state and trace that `Propagate` describes. |

## Left out

- Reflection: `hasattr`, `setattr`, the `dir(self)` harvesting of `_methods`, and the attributes that `start()` and `listen()` attach (flow.py:16-18, 25-26, 48-52, 85-98). They are replaced by the explicit `Member` table, with its `isStart` and `triggers` role tags, and by an explicit method map given to the constructor.
- Inheritance: the metaclass scans only the class's own body, so the model takes the members of that one body as input.
- The injection of the state type hint into `__annotations__` and the pydantic checks (flow.py:28-34). This is typing metadata with no run-time effect on the engine.
- The `state` property (flow.py:62-64). It is the `state` field of `Flow`.
- The `print` of the error message (flow.py:81). It is modelled as a `Reported(name)` trace event. An exception raised while formatting the message is not modelled.
- The bodies of user steps. They are arbitrary total functions of the shared state and the input.
- The interpreter's recursion limit and the `RecursionError` it raises. Python catches that error in the listener loop (flow.py:80-82), reports it and returns, so a cyclic graph or an acyclic chain deeper than the limit is cut off there and `run` still completes. The model has no recursion limit. It requires a ranking (`Ranked`) that makes the graph acyclic, and so runs every acyclic chain to its end.
- `Ranked` constrains the whole listener map, including parts that no run reaches. A class whose only cycle lies among listeners that no start method fires is excluded, although Python runs it normally.
- FlowRuntime.CreateInitialState: freshness is not captured. States are values, so the model does not say that each call makes a new dict object, or that each class call makes a new object. The values of the flow's own dict are typed as the user state type `O`, whereas a Python dict holds any object.
- A trigger that is a callable without `__name__` (an `AttributeError` at class creation), and a trigger that is neither a string nor callable (used as a dictionary key that no step name matches). Neither is modelled.
- Exceptions that are not subclasses of `Exception` (such as `KeyboardInterrupt`). They escape the `except` in Python; here every listener failure is treated as caught.
- Object identity of the state. States are values, so the model does not capture that a value given as `initial_state` is one object shared by every instance of the class. It also does not capture that a class given as `initial_state` makes a fresh object per instance.

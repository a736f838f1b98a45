/**
 * The trigger-graph builder of a flow class (`FlowMeta.__new__`).
 *
 * The metaclass scans the members of the class body in declaration order and
 * collects the names of the members tagged by `@start()` and, for every member
 * tagged by `@listen(...)`, appends the member's name to the list of every
 * trigger it names. The class body is modelled as a sequence of `Member`
 * records, one per dictionary entry, in insertion order.
 */
module FlowMeta {

  /** A trigger given to `@listen`: a method name, or a function object that is
      normalised to its `__name__`. */
  datatype TriggerRef = Named(name: string) | FunctionRef(funcName: string)

  /** One entry of the class body: its name, whether `@start()` tagged it, and
      the triggers `@listen(...)` attached to it (empty when it has none). */
  datatype Member = Member(name: string, isStart: bool, triggers: seq<TriggerRef>)

  /** The trigger name a reference stands for. */
  function TriggerName(t: TriggerRef): string
  {
    match t
    case Named(n) => n
    case FunctionRef(n) => n
  }

  ghost predicate NoDuplicates(s: seq<string>)
  {
    forall i, j :: 0 <= i < j < |s| ==> s[i] != s[j]
  }

  /** The names of the class-body entries, in declaration order. */
  function MemberNames(ms: seq<Member>): seq<string>
  {
    seq(|ms|, i requires 0 <= i < |ms| => ms[i].name)
  }

  /** Class-body entries are dictionary keys, so their names are distinct. */
  ghost predicate DistinctNames(ms: seq<Member>)
  {
    NoDuplicates(MemberNames(ms))
  }

  // ---------------------------------------------------------------------------
  // The scan, member by member, as the loop performs it

  /** `start_methods` after the members `ms` have been scanned. */
  function StartMethods(ms: seq<Member>): seq<string>
  {
    if ms == [] then []
    else
      var m := ms[|ms| - 1];
      StartMethods(ms[..|ms| - 1]) + (if m.isStart then [m.name] else [])
  }

  /** The list registered under `t` so far, `[]` when `t` has no entry. */
  function Lookup(listeners: map<string, seq<string>>, t: string): seq<string>
  {
    if t in listeners then listeners[t] else []
  }

  /** `listeners` after `name` is registered under each trigger of `ts`, in order. */
  function Register(listeners: map<string, seq<string>>, name: string, ts: seq<TriggerRef>): map<string, seq<string>>
  {
    if ts == [] then listeners
    else
      var before := Register(listeners, name, ts[..|ts| - 1]);
      var t := TriggerName(ts[|ts| - 1]);
      before[t := Lookup(before, t) + [name]]
  }

  /** `listeners` after the members `ms` have been scanned. */
  function ListenerMap(ms: seq<Member>): map<string, seq<string>>
  {
    if ms == [] then map[]
    else
      var m := ms[|ms| - 1];
      Register(ListenerMap(ms[..|ms| - 1]), m.name, m.triggers)
  }

  /** The builder itself: one pass over the class body, appending as it goes. */
  method BuildGraph(ms: seq<Member>) returns (startMethods: seq<string>, listeners: map<string, seq<string>>)
    ensures startMethods == StartMethods(ms)
    ensures listeners == ListenerMap(ms)
  {
    startMethods := [];
    listeners := map[];
    for i := 0 to |ms|
      invariant startMethods == StartMethods(ms[..i])
      invariant listeners == ListenerMap(ms[..i])
    {
      var m := ms[i];
      assert ms[..i + 1][..i] == ms[..i];
      if m.isStart {
        startMethods := startMethods + [m.name];
      }
      ghost var scanned := listeners;
      for j := 0 to |m.triggers|
        invariant listeners == Register(scanned, m.name, m.triggers[..j])
      {
        assert m.triggers[..j + 1][..j] == m.triggers[..j];
        var triggerName := TriggerName(m.triggers[j]);
        if triggerName !in listeners {
          listeners := listeners[triggerName := []];
        }
        listeners := listeners[triggerName := listeners[triggerName] + [m.name]];
      }
      assert m.triggers[..|m.triggers|] == m.triggers;
    }
    assert ms[..|ms|] == ms;
  }

  // ---------------------------------------------------------------------------
  // A declarative reading of the result, independent of the scan

  /** How many of the references `ts` name the trigger `t`. */
  function Occurrences(ts: seq<TriggerRef>, t: string): nat
  {
    if ts == [] then 0
    else Occurrences(ts[..|ts| - 1], t) + (if TriggerName(ts[|ts| - 1]) == t then 1 else 0)
  }

  function Repeat(name: string, k: nat): (r: seq<string>)
    ensures |r| == k && forall i :: 0 <= i < k ==> r[i] == name
  {
    seq(k, _ => name)
  }

  /** The listeners of `t`: every member, in declaration order, once per time it
      names `t` among its triggers. */
  function ListenersFor(ms: seq<Member>, t: string): seq<string>
  {
    if ms == [] then []
    else Repeat(ms[0].name, Occurrences(ms[0].triggers, t)) + ListenersFor(ms[1..], t)
  }

  lemma {:induction false} OccurrencesPositive(ts: seq<TriggerRef>, t: string)
    ensures Occurrences(ts, t) > 0 <==> exists j :: 0 <= j < |ts| && TriggerName(ts[j]) == t
  {
    if ts != [] {
      var init := ts[..|ts| - 1];
      OccurrencesPositive(init, t);
      if Occurrences(init, t) > 0 {
        var j :| 0 <= j < |init| && TriggerName(init[j]) == t;
        assert ts[j] == init[j];
      }
      forall j | 0 <= j < |init| && TriggerName(ts[j]) == t
        ensures Occurrences(init, t) > 0
      {
        assert init[j] == ts[j];
      }
    }
  }

  lemma {:induction false} RegisterLookup(listeners: map<string, seq<string>>, name: string, ts: seq<TriggerRef>, t: string)
    ensures Lookup(Register(listeners, name, ts), t) == Lookup(listeners, t) + Repeat(name, Occurrences(ts, t))
    ensures t in Register(listeners, name, ts) <==> t in listeners || Occurrences(ts, t) > 0
  {
    if ts != [] {
      var init := ts[..|ts| - 1];
      RegisterLookup(listeners, name, init, t);
      var before, u, k := Register(listeners, name, init), TriggerName(ts[|ts| - 1]), Occurrences(init, t);
      assert Register(listeners, name, ts) == before[u := Lookup(before, u) + [name]];
      if u == t {
        assert Occurrences(ts, t) == k + 1;
        assert Repeat(name, k + 1) == Repeat(name, k) + [name];
        assert Lookup(listeners, t) + Repeat(name, k) + [name] == Lookup(listeners, t) + (Repeat(name, k) + [name]);
      } else {
        assert Occurrences(ts, t) == k;
      }
    }
  }

  lemma {:induction false} ListenersForAppend(a: seq<Member>, b: seq<Member>, t: string)
    ensures ListenersFor(a + b, t) == ListenersFor(a, t) + ListenersFor(b, t)
  {
    if a == [] {
      assert a + b == b;
    } else {
      assert (a + b)[1..] == a[1..] + b;
      ListenersForAppend(a[1..], b, t);
    }
  }

  /** The scan builds exactly the declarative listener lists: a trigger has an
      entry iff some member names it, and its list is `ListenersFor`, so
      declaration order is kept and a trigger named twice is listed twice. */
  lemma {:induction false} ListenerMapIsListenersFor(ms: seq<Member>, t: string)
    ensures Lookup(ListenerMap(ms), t) == ListenersFor(ms, t)
    ensures t in ListenerMap(ms) <==> |ListenersFor(ms, t)| > 0
  {
    if ms != [] {
      var init, m := ms[..|ms| - 1], ms[|ms| - 1];
      ListenerMapIsListenersFor(init, t);
      RegisterLookup(ListenerMap(init), m.name, m.triggers, t);
      ListenersForAppend(init, [m], t);
      assert init + [m] == ms;
      assert ListenersFor([m], t) == Repeat(m.name, Occurrences(m.triggers, t));
    }
  }

  /** No list in the map is ever empty. */
  lemma ListenerListsNonEmpty(ms: seq<Member>, t: string)
    requires t in ListenerMap(ms)
    ensures |ListenerMap(ms)[t]| > 0
  {
    ListenerMapIsListenersFor(ms, t);
  }

  /** A trigger gets an entry exactly when some member names it, whether or not
      any member of the class is called `t`. */
  lemma {:induction false} ListenerMapDomain(ms: seq<Member>, t: string)
    ensures t in ListenerMap(ms) <==> exists i, j :: 0 <= i < |ms| && 0 <= j < |ms[i].triggers| && TriggerName(ms[i].triggers[j]) == t
  {
    ListenerMapIsListenersFor(ms, t);
    if ms != [] {
      OccurrencesPositive(ms[0].triggers, t);
      ListenerMapDomain(ms[1..], t);
      ListenerMapIsListenersFor(ms[1..], t);
      if exists i, j :: 0 <= i < |ms| && 0 <= j < |ms[i].triggers| && TriggerName(ms[i].triggers[j]) == t {
        var i, j :| 0 <= i < |ms| && 0 <= j < |ms[i].triggers| && TriggerName(ms[i].triggers[j]) == t;
        if i > 0 {
          assert ms[1..][i - 1] == ms[i];
        }
      }
      if Occurrences(ms[0].triggers, t) == 0 && |ListenersFor(ms[1..], t)| > 0 {
        var i, j :| 0 <= i < |ms[1..]| && 0 <= j < |ms[1..][i].triggers| && TriggerName(ms[1..][i].triggers[j]) == t;
        assert ms[i + 1] == ms[1..][i];
      }
    }
  }

  lemma MultisetRepeat(name: string, k: nat, x: string)
    ensures multiset(Repeat(name, k))[x] == if x == name then k else 0
  {
    if k > 0 {
      assert Repeat(name, k) == Repeat(name, k - 1) + [name];
      MultisetRepeat(name, k - 1, x);
    } else {
      assert Repeat(name, k) == [];
    }
  }

  /** No deduplication: a member appears in the list of `t` exactly as many
      times as it names `t` among its triggers. */
  lemma {:induction false} ListenerMultiplicity(ms: seq<Member>, i: nat, t: string)
    requires DistinctNames(ms) && i < |ms|
    ensures multiset(ListenersFor(ms, t))[ms[i].name] == Occurrences(ms[i].triggers, t)
  {
    MultisetRepeat(ms[0].name, Occurrences(ms[0].triggers, t), ms[i].name);
    var rest := ms[1..];
    assert DistinctNames(rest) by {
      assert MemberNames(rest) == MemberNames(ms)[1..];
    }
    if i == 0 {
      forall j | 0 <= j < |rest| ensures rest[j].name != ms[0].name {
        assert MemberNames(ms)[0] == ms[0].name && MemberNames(ms)[j + 1] == rest[j].name;
      }
      NotListedWhenAbsent(rest, ms[0].name, t);
    } else {
      assert rest[i - 1] == ms[i];
      assert MemberNames(ms)[0] == ms[0].name && MemberNames(ms)[i] == ms[i].name;
      ListenerMultiplicity(rest, i - 1, t);
    }
  }

  /** A name that no member carries never appears in a listener list. */
  lemma {:induction false} NotListedWhenAbsent(ms: seq<Member>, name: string, t: string)
    requires forall i :: 0 <= i < |ms| ==> ms[i].name != name
    ensures multiset(ListenersFor(ms, t))[name] == 0
  {
    if ms != [] {
      MultisetRepeat(ms[0].name, Occurrences(ms[0].triggers, t), name);
      assert forall i :: 0 <= i < |ms[1..]| ==> ms[1..][i] == ms[i + 1];
      NotListedWhenAbsent(ms[1..], name, t);
    }
  }

  lemma {:induction false} StartMethodsAppend(a: seq<Member>, b: seq<Member>)
    ensures StartMethods(a + b) == StartMethods(a) + StartMethods(b)
  {
    if b != [] {
      var init := b[..|b| - 1];
      assert (a + b)[..|a + b| - 1] == a + init;
      StartMethodsAppend(a, init);
    } else {
      assert a + b == a;
    }
  }

  /** `start_methods` holds a name iff a member of that name is tagged as a start method. */
  lemma {:induction false} StartMethodsMembership(ms: seq<Member>, x: string)
    ensures x in StartMethods(ms) <==> exists i :: 0 <= i < |ms| && ms[i].name == x && ms[i].isStart
  {
    if ms != [] {
      var init := ms[..|ms| - 1];
      StartMethodsMembership(init, x);
      if exists i :: 0 <= i < |ms| && ms[i].name == x && ms[i].isStart {
        var i :| 0 <= i < |ms| && ms[i].name == x && ms[i].isStart;
        if i < |init| {
          assert init[i] == ms[i];
        }
      }
      if exists i :: 0 <= i < |init| && init[i].name == x && init[i].isStart {
        var i :| 0 <= i < |init| && init[i].name == x && init[i].isStart;
        assert ms[i] == init[i];
      }
    }
  }

  /** Each start method is listed once when the member names are distinct. */
  lemma {:induction false} StartMethodsDistinct(ms: seq<Member>)
    requires DistinctNames(ms)
    ensures NoDuplicates(StartMethods(ms))
  {
    if ms != [] {
      var init, m := ms[..|ms| - 1], ms[|ms| - 1];
      assert DistinctNames(init) by {
        assert MemberNames(init) == MemberNames(ms)[..|ms| - 1];
      }
      StartMethodsDistinct(init);
      if m.isStart {
        forall i | 0 <= i < |init| ensures init[i].name != m.name {
          assert MemberNames(ms)[i] == init[i].name && MemberNames(ms)[|ms| - 1] == m.name;
        }
        StartMethodsMembership(init, m.name);
      }
    }
  }

  /** A member that names the same trigger twice, once by name and once by
      function object, is registered twice under that trigger. */
  lemma RepeatedTriggerListedTwice(name: string, t: string)
    ensures ListenerMap([Member(name, false, [Named(t), FunctionRef(t)])]) == map[t := [name, name]]
  {
    var ts := [Named(t), FunctionRef(t)];
    var first := ts[..1];
    assert [Member(name, false, ts)][..0] == [];
    assert first[..0] == [] && first[0] == Named(t);
    assert Register(map[], name, first) == map[][t := Lookup(map[], t) + [name]];
    assert Lookup(map[], t) + [name] == [name];
    assert ts[..|ts| - 1] == first;
    var one := map[t := [name]];
    assert Register(map[], name, ts) == one[t := Lookup(one, t) + [name]];
    assert Lookup(one, t) + [name] == [name, name];
    assert ListenerMap([Member(name, false, ts)]) == Register(ListenerMap([]), name, ts);
  }
}

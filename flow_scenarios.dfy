/**
 * Three small flows run through the engine, with the traces they produce.
 */
module FlowScenarios {
  import opened Wrappers
  import opened FlowSemantics

  /** `fetch` starts and returns 10, `double` listens on `fetch` and returns
      twice its input, `report` listens on `double`. */
  function FetchDoubleReport(): Engine<int, int>
  {
    Engine(
      ["fetch"],
      map["fetch" := ["double"], "double" := ["report"]],
      map[
        "fetch" := (s: int, x: Option<int>) => Returned(s, 10),
        "double" := (s: int, x: Option<int>) => Returned(s + 1, if x.Some? then 2 * x.value else 0),
        "report" := (s: int, x: Option<int>) => Returned(s + 1, 0)])
  }

  const ChainRank: map<string, nat> := map["fetch" := 2, "double" := 1, "report" := 0]

  lemma FetchDoubleReportRuns(st: int)
    ensures Ranked(FetchDoubleReport().listeners, ChainRank)
    ensures var r := Execute(FetchDoubleReport(), ChainRank, st);
            r.error == None && r.state == st + 2
            && r.trace == [Invoked("fetch", None), Invoked("double", Some(10)), Invoked("report", Some(20))]
  {
    var e := FetchDoubleReport();
    assert Ranked(e.listeners, ChainRank);
    var report := Propagate(e, ChainRank, "report", 0, st + 2);
    assert report == Walk(st + 2, [], false);
    var fromDouble := ListenerLoop(e, ChainRank, "double", ["report"], 20, st + 1);
    assert ListenerLoop(e, ChainRank, "double", [], 20, st + 2) == Walk(st + 2, [], false);
    assert fromDouble == Walk(st + 2, [Invoked("report", Some(20))], false);
    var fromFetch := ListenerLoop(e, ChainRank, "fetch", ["double"], 10, st);
    assert ListenerLoop(e, ChainRank, "fetch", [], 10, st + 2) == Walk(st + 2, [], false);
    assert fromFetch == Walk(st + 2, [Invoked("double", Some(10)), Invoked("report", Some(20))], false);
    assert RunStarts(e, ChainRank, [], st + 2) == RunResult(st + 2, [], None);
  }

  /** Two start methods `a` and `b` and no listeners. */
  function TwoStarts(): Engine<int, int>
  {
    Engine(
      ["a", "b"],
      map[],
      map["a" := (s: int, x: Option<int>) => Returned(s, 1), "b" := (s: int, x: Option<int>) => Returned(s, 2)])
  }

  lemma TwoStartsRunInOrder(st: int)
    ensures Ranked(TwoStarts().listeners, map[])
    ensures var r := Execute(TwoStarts(), map[], st);
            r.error == None && r.trace == [Invoked("a", None), Invoked("b", None)]
  {
    var e := TwoStarts();
    assert ["a", "b"][1..] == ["b"] && ["b"][1..] == [];
    assert RunStarts(e, map[], ["b"], st) == RunResult(st, [Invoked("b", None)], None);
  }

  /** Start method `x` with two listeners, `y` that raises and `z` declared
      after it. */
  function FailingFirstListener(): Engine<int, int>
  {
    Engine(
      ["x"],
      map["x" := ["y", "z"]],
      map[
        "x" := (s: int, v: Option<int>) => Returned(s, 7),
        "y" := (s: int, v: Option<int>) => Raised(s + 1),
        "z" := (s: int, v: Option<int>) => Returned(s + 10, 0)])
  }

  const FailingRank: map<string, nat> := map["x" := 1]

  /** `y` is called with the result of `x` and its error reported; the
      `return` in the listener loop then skips `z` as well. */
  lemma FailingListenerSkipsLaterSibling(st: int)
    ensures Ranked(FailingFirstListener().listeners, FailingRank)
    ensures var r := Execute(FailingFirstListener(), FailingRank, st);
            r.error == None && r.state == st + 1
            && r.trace == [Invoked("x", None), Invoked("y", Some(7)), Reported("y")]
  {
    var e := FailingFirstListener();
    assert Ranked(e.listeners, FailingRank);
    assert ListenerLoop(e, FailingRank, "x", ["y", "z"], 7, st) == Walk(st + 1, [Invoked("y", Some(7)), Reported("y")], true);
    assert RunStarts(e, FailingRank, [], st + 1) == RunResult(st + 1, [], None);
  }
}

/** The repository's test cases, replayed against the model. Enum values are
    their declaration ordinals (the first enumerator is 0). */
module Scenarios {

  import opened Wrappers
  import opened CompositeKey
  import opened Transitions
  import opened Dispatch
  import opened Decimal
  import opened Dot
  import opened Runtime

  /** The `Context` struct of the traffic-light tests. */
  datatype Counter = Counter(counter: int)

  const Red: Ordinal := 0
  const Green: Ordinal := 1
  const Yellow: Ordinal := 2
  const Timer: Ordinal := 0

  const Locked: Ordinal := 0
  const Unlocked: Ordinal := 1
  const Push: Ordinal := 0
  const Coin: Ordinal := 1

  function Tick(): Option<Counter -> Counter>
  {
    Some((c: Counter) => c.(counter := c.counter + 1))
  }

  /** Three Timer dispatches around the Red -> Green -> Yellow -> Red cycle,
      each action incrementing the counter. */
  method TimerCycle() returns (s0: Ordinal,
                               r1: Result, s1: Ordinal, n1: int,
                               r2: Result, s2: Ordinal, n2: int,
                               r3: Result, s3: Ordinal, n3: int)
    ensures s0 == Red
    ensures r1 == Ok && s1 == Green && n1 == 1
    ensures r2 == Ok && s2 == Yellow && n2 == 2
    ensures r3 == Ok && s3 == Red && n3 == 3
  {
    var sm := new Machine<Counter>(Red);
    sm.AddTransition(Transition(Red, Timer, Green, None, Tick()));
    sm.AddTransition(Transition(Green, Timer, Yellow, None, Tick()));
    sm.AddTransition(Transition(Yellow, Timer, Red, None, Tick()));
    var ctx := Counter(0);
    s0 := sm.Current();
    r1, ctx := sm.Dispatch(Timer, ctx);
    s1, n1 := sm.Current(), ctx.counter;
    r2, ctx := sm.Dispatch(Timer, ctx);
    s2, n2 := sm.Current(), ctx.counter;
    r3, ctx := sm.Dispatch(Timer, ctx);
    s3, n3 := sm.Current(), ctx.counter;
  }

  /** A guard that returns false stops the transition: GuardRejected, and the
      machine stays in Red with the context untouched. */
  method GuardRejection() returns (r: Result, state: Ordinal, ctx: Counter)
    ensures r == GuardRejected && state == Red && ctx == Counter(0)
  {
    var sm := new Machine<Counter>(Red);
    sm.AddTransition(Transition(Red, Timer, Green, Some((c: Counter) => false), None));
    r, ctx := sm.Dispatch(Timer, Counter(0));
    state := sm.Current();
  }

  /** The DOT text of a table holding the one edge Red --Timer--> Green: it
      starts with "digraph FSM" and holds exactly that edge, written as
      `"0" -> "1"` with the event's ordinal as its label. */
  method DotSingleEdge() returns (dot: string)
    ensures "digraph FSM" <= dot
    ensures dot == Header + "  \"0\" -> \"1\" [label=\"0\"];\n" + Footer
  {
    var sm := new Machine<Counter>(Red);
    sm.AddTransition(Transition(Red, Timer, Green, None, None));
    ghost var order;
    dot, order := sm.ToDot();
    SingleEdgeText(sm.table, order);
    assert "digraph FSM" <= Header;
  }

  lemma SingleEdgeText(t: Table<Counter>, order: seq<u64>)
    requires t == Insert(map[], Transition(Red, Timer, Green, None, None))
    requires Enumerates(order, t.Keys)
    ensures Render(t, order) == Header + "  \"0\" -> \"1\" [label=\"0\"];\n" + Footer
  {
    var k := Key(Red, Timer);
    assert t.Keys == {k};
    EnumerationLength(order, t.Keys);
    assert order == [k];
    RenderOne(t, k);
    RedTimerGreenLine();
  }

  lemma RenderOne<C>(t: Table<C>, k: u64)
    ensures Render(t, [k]) == Header + LineOf(t, k) + Footer
  {
    LinesSnoc(t, [], k);
    assert [] + [k] == [k];
    assert Concat([LineOf(t, k)]) == LineOf(t, k);
  }

  lemma RedTimerGreenLine()
    ensures EdgeLine(Red, Timer, Green) == "  \"0\" -> \"1\" [label=\"0\"];\n"
  {
    assert ToString(0) == "0" && ToString(1) == "1";
  }

  /** The three-state traffic light exported to DOT: whatever order the table is
      walked in, the text holds exactly its three edge statements. */
  method DotThreeEdges() returns (dot: string, ghost lines: seq<string>)
    ensures dot == Header + Concat(lines) + Footer
    ensures multiset(lines) == multiset{EdgeLine(Red, Timer, Green),
      EdgeLine(Green, Timer, Yellow), EdgeLine(Yellow, Timer, Red)}
    ensures exists ls :: (dot == Header + Concat(ls) + Footer
                          && multiset(ls) == multiset{EdgeLine(Red, Timer, Green),
                               EdgeLine(Green, Timer, Yellow), EdgeLine(Yellow, Timer, Red)})
  {
    var sm := new Machine<()>(Red);
    sm.AddTransition(Transition(Red, Timer, Green, None, None));
    sm.AddTransition(Transition(Green, Timer, Yellow, None, None));
    sm.AddTransition(Transition(Yellow, Timer, Red, None, None));
    ghost var order;
    dot, order := sm.ToDot();
    lines := Lines(sm.table, order);
    ThreeEdgeLines(sm.table, order);
    RenderSplit(sm.table, order);
  }

  lemma RenderSplit<C>(t: Table<C>, order: seq<u64>)
    ensures Render(t, order) == Header + Concat(Lines(t, order)) + Footer
  {
  }

  lemma ThreeEdgeLines(t: Table<()>, order: seq<u64>)
    requires t == Insert(Insert(Insert(map[], Transition(Red, Timer, Green, None, None)),
      Transition(Green, Timer, Yellow, None, None)), Transition(Yellow, Timer, Red, None, None))
    requires Enumerates(order, t.Keys)
    ensures multiset(Lines(t, order)) == multiset{EdgeLine(Red, Timer, Green),
      EdgeLine(Green, Timer, Yellow), EdgeLine(Yellow, Timer, Red)}
  {
    var k0, k1, k2 := Key(Red, Timer), Key(Green, Timer), Key(Yellow, Timer);
    ThreeEntries(t);
    var fixed := [k0, k1, k2];
    assert Enumerates(fixed, t.Keys);
    OrderIndependent(t, order, fixed);
    LinesOfThree(t, k0, k1, k2);
  }

  lemma ThreeEntries(t: Table<()>)
    requires t == Insert(Insert(Insert(map[], Transition(Red, Timer, Green, None, None)),
      Transition(Green, Timer, Yellow, None, None)), Transition(Yellow, Timer, Red, None, None))
    ensures Key(Red, Timer) != Key(Green, Timer) && Key(Red, Timer) != Key(Yellow, Timer)
      && Key(Green, Timer) != Key(Yellow, Timer)
    ensures t.Keys == {Key(Red, Timer), Key(Green, Timer), Key(Yellow, Timer)}
    ensures LineOf(t, Key(Red, Timer)) == EdgeLine(Red, Timer, Green)
    ensures LineOf(t, Key(Green, Timer)) == EdgeLine(Green, Timer, Yellow)
    ensures LineOf(t, Key(Yellow, Timer)) == EdgeLine(Yellow, Timer, Red)
  {
    assert StateOf(Key(Red, Timer)) == Red && StateOf(Key(Green, Timer)) == Green
      && StateOf(Key(Yellow, Timer)) == Yellow;
  }

  lemma LinesOfThree<C>(t: Table<C>, k0: u64, k1: u64, k2: u64)
    ensures multiset(Lines(t, [k0, k1, k2])) == multiset{LineOf(t, k0), LineOf(t, k1), LineOf(t, k2)}
  {
    var a, b, c := LineOf(t, k0), LineOf(t, k1), LineOf(t, k2);
    LinesSnoc(t, [], k0);
    assert [] + [k0] == [k0];
    assert Lines(t, [k0]) == [a];
    LinesSnoc(t, [k0], k1);
    assert [k0] + [k1] == [k0, k1];
    assert Lines(t, [k0, k1]) == [a, b];
    LinesSnoc(t, [k0, k1], k2);
    assert [k0, k1] + [k2] == [k0, k1, k2];
    assert Lines(t, [k0, k1, k2]) == [a, b, c];
  }

  /** With an empty table every dispatch reports NoTransition and the machine
      stays where it started. */
  method EmptyTable() returns (r: Result, state: Ordinal)
    ensures r == NoTransition && state == Locked
  {
    var sm := new Machine<()>(Locked);
    var unit: ();
    r, unit := sm.Dispatch(Push, ());
    state := sm.Current();
  }

  /** The turnstile with only Locked --Coin--> Unlocked: the first Coin unlocks,
      the second finds no transition and leaves it Unlocked. */
  method PartialTable() returns (r1: Result, r2: Result, state: Ordinal)
    ensures r1 == Ok && r2 == NoTransition && state == Unlocked
  {
    var sm := new Machine<()>(Locked);
    sm.AddTransition(Transition(Locked, Coin, Unlocked, None, None));
    var unit: ();
    r1, unit := sm.Dispatch(Coin, ());
    r2, unit := sm.Dispatch(Coin, ());
    state := sm.Current();
  }

  /** Two machines share nothing: dispatching on one leaves the other's state alone. */
  method IndependentInstances() returns (before1: Ordinal, before2: Ordinal, after1: Ordinal, after2: Ordinal)
    ensures before1 == Locked && before2 == Unlocked
    ensures after1 == Unlocked && after2 == Unlocked
  {
    var sm1 := new Machine<()>(Locked);
    var sm2 := new Machine<()>(Unlocked);
    sm1.AddTransition(Transition(Locked, Coin, Unlocked, None, None));
    sm2.AddTransition(Transition(Unlocked, Push, Locked, None, None));
    before1, before2 := sm1.Current(), sm2.Current();
    var r, unit := sm1.Dispatch(Coin, ());
    after1, after2 := sm1.Current(), sm2.Current();
  }

  /** A second transition for the same (A, X) replaces the first: dispatch goes
      to C, not B. */
  method Overwrite() returns (r: Result, state: Ordinal)
    ensures r == Ok && state == 2
  {
    var sm := new Machine<()>(0);
    sm.AddTransition(Transition(0, 0, 1, None, None));
    sm.AddTransition(Transition(0, 0, 2, None, None));
    var unit: ();
    r, unit := sm.Dispatch(0, ());
    state := sm.Current();
  }

  /** A true guard lets the action run once and the transition happen; a false
      guard on a fresh machine rejects, and the action does not run. The
      test's static counter is carried here as the context. */
  method GuardAndAction() returns (r1: Result, s1: Ordinal, n1: int, r2: Result, s2: Ordinal, n2: int)
    ensures r1 == Ok && s1 == 1 && n1 == 1
    ensures r2 == GuardRejected && s2 == 0 && n2 == 1
  {
    var bump := Some((n: int) => n + 1);
    var sm := new Machine<int>(0);
    sm.AddTransition(Transition(0, 0, 1, Some((n: int) => true), bump));
    r1, n1 := sm.Dispatch(0, 0);
    s1 := sm.Current();
    sm := new Machine<int>(0);
    sm.AddTransition(Transition(0, 0, 1, Some((n: int) => false), bump));
    r2, n2 := sm.Dispatch(0, n1);
    s2 := sm.Current();
  }

  /** Plain integers as states and events: 0 --0--> 1 --1--> 2. */
  method IntegralStates() returns (r1: Result, s1: Ordinal, r2: Result, s2: Ordinal)
    ensures r1 == Ok && s1 == 1 && r2 == Ok && s2 == 2
  {
    var sm := new Machine<()>(0);
    sm.AddTransition(Transition(0, 0, 1, None, None));
    sm.AddTransition(Transition(1, 1, 2, None, None));
    assert Lookup(sm.table, 0, 0) == Some(Transition(0, 0, 1, None, None));
    var unit: ();
    r1, unit := sm.Dispatch(0, ());
    s1 := sm.Current();
    r2, unit := sm.Dispatch(1, ());
    s2 := sm.Current();
  }

  /** `runtime<int, int, int>` with the transition 0 --1--> 2 and an int context. */
  method IntContext() returns (r: Result, state: Ordinal, ctx: int)
    ensures r == Ok && state == 2 && ctx == 0
  {
    var sm := new Machine<int>(0);
    sm.AddTransition(Transition(0, 1, 2, None, None));
    r, ctx := sm.Dispatch(1, 0);
    state := sm.Current();
  }

  /** No context at all (the unit type): A --X--> B. */
  method UnitContext() returns (r: Result, state: Ordinal)
    ensures r == Ok && state == 1
  {
    var sm := new Machine<()>(0);
    sm.AddTransition(Transition(0, 0, 1, None, None));
    var unit: ();
    r, unit := sm.Dispatch(0, ());
    state := sm.Current();
  }

}

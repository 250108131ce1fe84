/** `fsm::runtime`: a transition table and the current state, updated in place. */
module Runtime {

  import opened Wrappers
  import opened CompositeKey
  import opened Transitions
  import opened Dispatch
  import opened Dot

  class Machine<C> {
    /** `runtime::table_`. */
    var table: Table<C>
    /** `runtime::current_`. */
    var current: Ordinal

    ghost predicate Valid()
      reads this
    {
      WellKeyed(table)
    }

    /** `runtime(State start)`: the machine starts in `start` with an empty table. */
    constructor (start: Ordinal)
      ensures Valid()
      ensures current == start && table == map[]
    {
      table := map[];
      current := start;
    }

    /** `add_transition`: store `tr` under the key of (tr.src, tr.ev), replacing
        any transition stored there before; nothing else changes. */
    method AddTransition(tr: Transition<C>)
      requires Valid()
      modifies this
      ensures Valid()
      ensures table == Insert(old(table), tr)
      ensures current == old(current)
    {
      InsertKeys(table, tr);
      table := table[Key(tr.src, tr.ev) := tr];
    }

    /** `dispatch(ev, ctx)`: the context is passed in and handed back, so the
        action's effect on it is the returned `ctx'`. Only `current` may change;
        the table never does. */
    method Dispatch(ev: Ordinal, ctx: C) returns (r: Result, ctx': C)
      requires Valid()
      modifies this`current
      ensures Valid()
      ensures Outcome(r, current, ctx') == Step(table, old(current), ev, ctx)
      ensures r == Ok ==>
        && Lookup(table, old(current), ev).Some?
        && Lookup(table, old(current), ev).value.src == old(current)
        && Lookup(table, old(current), ev).value.ev == ev
        && Lookup(table, old(current), ev).value.dst == current
    {
      var k := Key(current, ev);
      if k !in table {
        return NoTransition, ctx;
      }
      var tr := table[k];
      if tr.guard.Some? && !tr.guard.value(ctx) {
        return GuardRejected, ctx;
      }
      ctx' := ctx;
      if tr.action.Some? {
        ctx' := tr.action.value(ctx);
      }
      current := tr.dst;
      r := Ok;
    }

    /** `current()`. */
    function Current(): Ordinal
      reads this
    {
      current
    }

    /** `to_dot`: walk the table in some order and append one edge statement per
        entry between the graph header and the closing brace. The order taken is
        returned as `order`; which order it is, is not specified. */
    method ToDot() returns (dot: string, ghost order: seq<u64>)
      ensures Enumerates(order, table.Keys)
      ensures dot == Render(table, order)
      ensures exists o :: Enumerates(o, table.Keys) && dot == Render(table, o)
    {
      var t := table;
      var edges := "";
      order := [];
      var rest := t.Keys;
      while rest != {}
        invariant forall i, j :: 0 <= i < j < |order| ==> order[i] != order[j]
        invariant forall k :: k in t.Keys <==> k in order || k in rest
        invariant forall k :: k in order ==> k !in rest
        invariant edges == Concat(Lines(t, order))
        decreases rest
      {
        var k :| k in rest;
        ConcatLinesSnoc(t, order, k);
        edges := edges + LineOf(t, k);
        order := order + [k];
        rest := rest - {k};
      }
      dot := Header + edges + Footer;
      assert Enumerates(order, t.Keys) && dot == Render(t, order);
    }
  }

}

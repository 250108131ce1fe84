/** One dispatch step of `runtime::dispatch`, as a function of the table, the
    current state, the event and the context. */
module Dispatch {

  import opened Wrappers
  import opened CompositeKey
  import opened Transitions

  /** `runtime::Result`. */
  datatype Result = Ok | NoTransition | GuardRejected

  /** What a dispatch returns (the result code), the state it leaves the
      machine in and the context it leaves behind. */
  datatype Outcome<C> = Outcome(result: Result, state: Ordinal, ctx: C)

  /** An absent guard admits every context. */
  predicate Admits<C>(guard: Option<C -> bool>, ctx: C)
  {
    guard.None? || guard.value(ctx)
  }

  /** An absent action leaves the context as it is. */
  function Apply<C>(action: Option<C -> C>, ctx: C): C
  {
    if action.Some? then action.value(ctx) else ctx
  }

  /** Lookup, then guard, then action, then state update. */
  function Step<C>(t: Table<C>, current: Ordinal, ev: Ordinal, ctx: C): (o: Outcome<C>)
    ensures o.result == NoTransition <==> Lookup(t, current, ev).None?
    ensures o.result == GuardRejected <==>
      Lookup(t, current, ev).Some? && !Admits(Lookup(t, current, ev).value.guard, ctx)
    ensures o.result != Ok ==> o.state == current && o.ctx == ctx
    ensures o.result == Ok ==>
      var tr := Lookup(t, current, ev).value;
      o.state == tr.dst && o.ctx == Apply(tr.action, ctx)
  {
    match Lookup(t, current, ev)
    case None => Outcome(NoTransition, current, ctx)
    case Some(tr) =>
      if tr.guard.Some? && !tr.guard.value(ctx) then Outcome(GuardRejected, current, ctx)
      else Outcome(Ok, tr.dst, Apply(tr.action, ctx))
  }

  /** A machine whose table was built by inserting `trs` in order: a pair that
      was never inserted reports NoTransition and changes nothing; a pair that
      was inserted is served by the last transition inserted for it. */
  lemma DispatchAfterInserts<C>(trs: seq<Transition<C>>, current: Ordinal, ev: Ordinal, ctx: C)
    ensures
      var o := Step(Build(trs), current, ev, ctx);
      (o.result == NoTransition <==>
        forall i :: 0 <= i < |trs| ==> !(trs[i].src == current && trs[i].ev == ev))
      && (o.result == NoTransition ==> o.state == current && o.ctx == ctx)
    ensures
      var o := Step(Build(trs), current, ev, ctx);
      o.result != NoTransition ==>
        exists i :: 0 <= i < |trs| && trs[i].src == current && trs[i].ev == ev
          && (forall j :: i < j < |trs| ==> !(trs[j].src == current && trs[j].ev == ev))
          && (o.result == GuardRejected <==> !Admits(trs[i].guard, ctx))
          && (o.result == Ok ==> o.state == trs[i].dst && o.ctx == Apply(trs[i].action, ctx))
  {
    BuildLookup(trs, current, ev);
    LastMatchSpec(trs, current, ev);
  }

}

/** Transitions and the transition table `runtime::table_`, an
    `unordered_map<uint64_t, Transition>` keyed by the composite key. */
module Transitions {

  import opened Wrappers
  import opened CompositeKey

  /** `runtime::Transition`. An empty `std::function` is `None`. The guard reads
      the context; the action maps it to its new value. */
  datatype Transition<!C> = Transition(
    src: Ordinal,
    ev: Ordinal,
    dst: Ordinal,
    guard: Option<C -> bool>,
    action: Option<C -> C>)

  type Table<!C> = map<u64, Transition<C>>

  /** Every entry sits under the key of its own (src, ev) pair. */
  ghost predicate WellKeyed<C>(t: Table<C>)
  {
    forall k :: k in t ==> Key(t[k].src, t[k].ev) == k
  }

  /** `table_.find(key(s, e))`. */
  function Lookup<C>(t: Table<C>, s: Ordinal, e: Ordinal): (r: Option<Transition<C>>)
    ensures r.Some? <==> Key(s, e) in t
    ensures r.Some? ==> r.value == t[Key(s, e)]
    ensures r.Some? && WellKeyed(t) ==> r.value.src == s && r.value.ev == e
  {
    if Key(s, e) in t then Some(t[Key(s, e)]) else None
  }

  /** `table_[key(tr.src, tr.ev)] = tr`: the specification of `add_transition`. */
  function Insert<C>(t: Table<C>, tr: Transition<C>): (t': Table<C>)
    ensures Lookup(t', tr.src, tr.ev) == Some(tr)
    ensures forall s, e :: (s != tr.src || e != tr.ev) ==> Lookup(t', s, e) == Lookup(t, s, e)
  {
    t[Key(tr.src, tr.ev) := tr]
  }

  /** Insertion adds at most the one key of the new transition, and keeps
      every entry under its own key. */
  lemma InsertKeys<C>(t: Table<C>, tr: Transition<C>)
    ensures Insert(t, tr).Keys == t.Keys + {Key(tr.src, tr.ev)}
    ensures WellKeyed(t) ==> WellKeyed(Insert(t, tr))
  {
  }

  /** The table after inserting `trs` in order into an empty table. */
  function Build<C>(trs: seq<Transition<C>>): (t: Table<C>)
    ensures WellKeyed(t)
  {
    if trs == [] then map[]
    else
      var t := Build(trs[..|trs| - 1]);
      InsertKeys(t, trs[|trs| - 1]);
      Insert(t, trs[|trs| - 1])
  }

  /** The last transition of `trs` registered for (s, e), if there is one. */
  function LastMatch<C>(trs: seq<Transition<C>>, s: Ordinal, e: Ordinal): Option<Transition<C>>
  {
    if trs == [] then None
    else if trs[|trs| - 1].src == s && trs[|trs| - 1].ev == e then Some(trs[|trs| - 1])
    else LastMatch(trs[..|trs| - 1], s, e)
  }

  /** Last write wins: after a sequence of insertions, looking up (s, e) finds
      exactly the last transition inserted for (s, e), and nothing if none was. */
  lemma {:induction false} BuildLookup<C>(trs: seq<Transition<C>>, s: Ordinal, e: Ordinal)
    ensures Lookup(Build(trs), s, e) == LastMatch(trs, s, e)
    decreases |trs|
  {
    if trs != [] {
      BuildLookup(trs[..|trs| - 1], s, e);
    }
  }

  /** LastMatch finds nothing exactly when no transition for (s, e) was given,
      and what it finds is the one with the highest index. */
  lemma {:induction false} LastMatchSpec<C>(trs: seq<Transition<C>>, s: Ordinal, e: Ordinal)
    ensures LastMatch(trs, s, e).None? <==>
      forall i :: 0 <= i < |trs| ==> !(trs[i].src == s && trs[i].ev == e)
    ensures LastMatch(trs, s, e).Some? ==>
      exists i :: 0 <= i < |trs| && trs[i] == LastMatch(trs, s, e).value
        && trs[i].src == s && trs[i].ev == e
        && forall j :: i < j < |trs| ==> !(trs[j].src == s && trs[j].ev == e)
    decreases |trs|
  {
    if trs != [] {
      var n := |trs| - 1;
      var p := trs[..n];
      LastMatchSpec(p, s, e);
      if trs[n].src == s && trs[n].ev == e {
        assert trs[n] == LastMatch(trs, s, e).value;
      } else if LastMatch(p, s, e).Some? {
        var i :| 0 <= i < |p| && p[i] == LastMatch(p, s, e).value
          && p[i].src == s && p[i].ev == e
          && forall j :: i < j < |p| ==> !(p[j].src == s && p[j].ev == e);
        assert trs[i] == p[i];
        assert forall j :: i < j < |trs| ==> !(trs[j].src == s && trs[j].ev == e) by {
          forall j | i < j < |trs| ensures !(trs[j].src == s && trs[j].ev == e) {
            if j < n {
              assert trs[j] == p[j];
            }
          }
        }
      } else {
        forall i | 0 <= i < |trs| ensures !(trs[i].src == s && trs[i].ev == e) {
          if i < n {
            assert trs[i] == p[i];
          }
        }
      }
    }
  }

}

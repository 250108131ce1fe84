/** The text `runtime::to_dot` produces: a Graphviz `digraph` with one edge
    statement per table entry, in the order the table is enumerated. */
module Dot {

  import opened CompositeKey
  import opened Decimal
  import opened Transitions

  const Header: string := "digraph FSM {\n  rankdir=LR;\n"
  const Footer: string := "}\n"

  /** The edge statement for a transition from `src` to `dst` on `ev`,
      grouped from the right. */
  function EdgeLine(src: Ordinal, ev: Ordinal, dst: Ordinal): string
  {
    "  \"" + (ToString(src) + ("\" -> \"" + (ToString(dst) + ("\" [label=\"" + (ToString(ev) + "\"];\n")))))
  }

  /** In a digit string followed by a quote, the first quote stands right after
      the digits. */
  lemma FirstQuote(x: string, rest: string)
    requires IsDigits(x) && |rest| > 0 && rest[0] == '"'
    ensures (x + rest)[|x|] == '"'
    ensures forall i :: 0 <= i < |x| ==> (x + rest)[i] != '"'
  {
  }

  /** A text made of digits, a separator that opens with a quote, and a rest
      splits in only one way. */
  lemma SplitAtQuote(x: string, sep: string, rest: string, x': string, rest': string)
    requires IsDigits(x) && IsDigits(x') && |sep| > 0 && sep[0] == '"'
    requires x + (sep + rest) == x' + (sep + rest')
    ensures x == x' && rest == rest'
  {
    FirstQuote(x, sep + rest);
    FirstQuote(x', sep + rest');
    assert |x| == |x'|;
    var w := x + (sep + rest);
    assert x == w[..|x|] && x' == w[..|x'|];
    assert sep + rest == w[|x|..] && sep + rest' == w[|x|..];
    assert rest == (sep + rest)[|sep|..] && rest' == (sep + rest')[|sep|..];
  }

  /** Every edge statement names its transition unambiguously: equal lines come
      from equal (source, event, destination) triples. */
  lemma EdgeLineInjective(s: Ordinal, e: Ordinal, d: Ordinal, s': Ordinal, e': Ordinal, d': Ordinal)
    ensures EdgeLine(s, e, d) == EdgeLine(s', e', d') <==> s == s' && e == e' && d == d'
  {
    if EdgeLine(s, e, d) == EdgeLine(s', e', d') {
      var lead, arrow, attr, tail := "  \"", "\" -> \"", "\" [label=\"", "\"];\n";
      var r := ToString(s) + (arrow + (ToString(d) + (attr + (ToString(e) + tail))));
      var r' := ToString(s') + (arrow + (ToString(d') + (attr + (ToString(e') + tail))));
      assert EdgeLine(s, e, d) == lead + r;
      assert EdgeLine(s', e', d') == lead + r';
      var w := EdgeLine(s, e, d);
      assert w[|lead|..] == r;
      assert w[|lead|..] == r';
      SplitAtQuote(ToString(s), arrow, ToString(d) + (attr + (ToString(e) + tail)),
        ToString(s'), ToString(d') + (attr + (ToString(e') + tail)));
      SplitAtQuote(ToString(d), attr, ToString(e) + tail, ToString(d'), ToString(e') + tail);
      assert tail + "" == tail;
      SplitAtQuote(ToString(e), tail, "", ToString(e'), "");
      ToStringInjective(s, s');
      ToStringInjective(d, d');
      ToStringInjective(e, e');
    }
  }

  /** `order` lists every key of `keys` exactly once: one possible iteration
      order of the table. */
  ghost predicate Enumerates(order: seq<u64>, keys: set<u64>)
  {
    && (forall i, j :: 0 <= i < j < |order| ==> order[i] != order[j])
    && (forall k :: k in keys <==> k in order)
  }

  /** The edge statement of the entry under key `k`. */
  function LineOf<C>(t: Table<C>, k: u64): string
  {
    if k in t then EdgeLine(t[k].src, t[k].ev, t[k].dst) else ""
  }

  /** `f` applied to every key of `order`, in that order. */
  function MapKeys<X>(f: u64 -> X, order: seq<u64>): (xs: seq<X>)
    ensures |xs| == |order|
    decreases |order|
  {
    if order == [] then [] else MapKeys(f, order[..|order| - 1]) + [f(order[|order| - 1])]
  }

  /** The element at position `i` is the image of the `i`-th key. */
  lemma {:induction false} MapKeysAt<X>(f: u64 -> X, order: seq<u64>, i: nat)
    requires i < |order|
    ensures MapKeys(f, order)[i] == f(order[i])
    decreases |order|
  {
    var n := |order| - 1;
    var init := order[..n];
    if i < n {
      MapKeysAt(f, init, i);
      assert init[i] == order[i];
    }
  }

  /** Appending one key appends its image. */
  lemma MapKeysSnoc<X>(f: u64 -> X, order: seq<u64>, k: u64)
    ensures MapKeys(f, order + [k]) == MapKeys(f, order) + [f(k)]
  {
    assert (order + [k])[..|order|] == order;
  }

  /** The edge statement of every key of `t`. */
  function LineFn<C>(t: Table<C>): u64 -> string
  {
    k => LineOf(t, k)
  }

  /** The edge statements of the entries listed in `order`, in that order. */
  function Lines<C>(t: Table<C>, order: seq<u64>): (ls: seq<string>)
    ensures |ls| == |order|
  {
    MapKeys(LineFn(t), order)
  }

  /** The statement at position `i` is that of the `i`-th key. */
  lemma LinesAt<C>(t: Table<C>, order: seq<u64>, i: nat)
    requires i < |order|
    ensures Lines(t, order)[i] == LineOf(t, order[i])
  {
    MapKeysAt(LineFn(t), order, i);
  }

  function Concat(ls: seq<string>): string
    decreases |ls|
  {
    if ls == [] then "" else Concat(ls[..|ls| - 1]) + ls[|ls| - 1]
  }

  /** Enumerating one more key appends its edge statement to the text. */
  lemma ConcatLinesSnoc<C>(t: Table<C>, order: seq<u64>, k: u64)
    ensures Concat(Lines(t, order + [k])) == Concat(Lines(t, order)) + LineOf(t, k)
  {
    LinesSnoc(t, order, k);
    var ls := Lines(t, order);
    assert (ls + [LineOf(t, k)])[..|ls|] == ls;
  }

  /** The whole DOT text for the table enumerated in `order`. */
  function Render<C>(t: Table<C>, order: seq<u64>): (dot: string)
    ensures Header <= dot
    ensures dot[|Header|..] == Concat(Lines(t, order)) + Footer
  {
    var body := Concat(Lines(t, order)) + Footer;
    assert (Header + body)[|Header|..] == body;
    Header + body
  }

  /** An enumeration of a set is exactly as long as the set is large. */
  lemma {:induction false} EnumerationLength(order: seq<u64>, keys: set<u64>)
    requires Enumerates(order, keys)
    ensures |order| == |keys|
    decreases |order|
  {
    if order != [] {
      var n := |order| - 1;
      var last := order[n];
      var rest := keys - {last};
      assert forall k :: k in order[..n] ==> k != last by {
        forall k | k in order[..n] ensures k != last {
          var i :| 0 <= i < n && order[..n][i] == k;
          assert order[i] == k;
        }
      }
      assert forall k :: k in rest <==> k in order[..n] by {
        forall k ensures k in rest <==> k in order[..n] {
          if k in order && k != last {
            var i :| 0 <= i < |order| && order[i] == k;
            assert i < n && order[..n][i] == k;
          }
        }
      }
      EnumerationLength(order[..n], rest);
    }
  }

  /** `to_dot` emits exactly one edge statement per table entry. */
  lemma OneLinePerEntry<C>(t: Table<C>, order: seq<u64>)
    requires Enumerates(order, t.Keys)
    ensures |Lines(t, order)| == |t|
    ensures forall k :: k in t ==>
      exists i :: 0 <= i < |order| && order[i] == k
        && Lines(t, order)[i] == EdgeLine(t[k].src, t[k].ev, t[k].dst)
  {
    EnumerationLength(order, t.Keys);
    assert |t.Keys| == |t|;
    forall k | k in t
      ensures exists i :: (0 <= i < |order| && order[i] == k
                           && Lines(t, order)[i] == EdgeLine(t[k].src, t[k].ev, t[k].dst))
    {
      var i :| 0 <= i < |order| && order[i] == k;
      LinesAt(t, order, i);
    }
  }

  /** In a list without repetitions every element occurs once. */
  lemma {:induction false} DistinctCounts(order: seq<u64>)
    requires forall i, j :: 0 <= i < j < |order| ==> order[i] != order[j]
    ensures forall k :: multiset(order)[k] == if k in order then 1 else 0
    decreases |order|
  {
    if order != [] {
      var n := |order| - 1;
      DistinctCounts(order[..n]);
      assert order == order[..n] + [order[n]];
      forall k ensures multiset(order)[k] == if k in order then 1 else 0 {
        if k == order[n] {
          forall i | 0 <= i < n ensures order[..n][i] != k {
            assert order[i] != order[n];
          }
        }
      }
    }
  }

  /** Taking out the element at `j` takes one occurrence of it out of the multiset. */
  lemma RemoveAt(s: seq<u64>, j: nat)
    requires j < |s|
    ensures multiset(s[..j] + s[j + 1..]) == multiset(s) - multiset{s[j]}
  {
    assert s == s[..j] + [s[j]] + s[j + 1..];
  }

  /** Appending one key appends its edge statement. */
  lemma LinesSnoc<C>(t: Table<C>, order: seq<u64>, k: u64)
    ensures Lines(t, order + [k]) == Lines(t, order) + [LineOf(t, k)]
  {
    MapKeysSnoc(LineFn(t), order, k);
  }

  /** Mapping distributes over concatenation. */
  lemma {:induction false} MapKeysAppend<X>(f: u64 -> X, a: seq<u64>, b: seq<u64>)
    ensures MapKeys(f, a + b) == MapKeys(f, a) + MapKeys(f, b)
    decreases |b|
  {
    if b == [] {
      assert a + b == a;
    } else {
      var n := |b| - 1;
      var init, last := b[..n], b[n];
      assert b == init + [last];
      assert a + b == (a + init) + [last];
      MapKeysAppend(f, a, init);
      MapKeysSnoc(f, a + init, last);
      MapKeysSnoc(f, init, last);
    }
  }

  /** Taking out the key at `j` takes one occurrence of its image out. */
  lemma MapKeysRemoveAt<X>(f: u64 -> X, s: seq<u64>, j: nat)
    requires j < |s|
    ensures multiset(MapKeys(f, s)) ==
      multiset(MapKeys(f, s[..j] + s[j + 1..])) + multiset{f(s[j])}
  {
    var pre, post := s[..j], s[j + 1..];
    assert s == pre + ([s[j]] + post);
    MapKeysAppend(f, pre, [s[j]] + post);
    MapKeysAppend(f, [s[j]], post);
    MapKeysSnoc(f, [], s[j]);
    assert [] + [s[j]] == [s[j]];
    MapKeysAppend(f, pre, post);
  }

  /** Two orders holding the same keys give the same images, possibly in
      another order. */
  lemma {:induction false} MapKeysPermute<X>(f: u64 -> X, o1: seq<u64>, o2: seq<u64>)
    requires multiset(o1) == multiset(o2)
    ensures multiset(MapKeys(f, o1)) == multiset(MapKeys(f, o2))
    decreases |o1|
  {
    if o1 != [] {
      var n := |o1| - 1;
      var x := o1[n];
      assert o1 == o1[..n] + [x];
      assert multiset(o1[..n]) == multiset(o1) - multiset{x};
      assert x in multiset(o2);
      var j :| 0 <= j < |o2| && o2[j] == x;
      RemoveAt(o2, j);
      var r2 := o2[..j] + o2[j + 1..];
      assert multiset(r2) == multiset(o1[..n]);
      MapKeysPermute(f, o1[..n], r2);
      MapKeysRemoveAt(f, o2, j);
    }
  }

  /** The iteration order of the table is unspecified: whichever order `to_dot`
      takes, it emits the same edge statements, each the same number of times. */
  lemma OrderIndependent<C>(t: Table<C>, o1: seq<u64>, o2: seq<u64>)
    requires Enumerates(o1, t.Keys) && Enumerates(o2, t.Keys)
    ensures multiset(Lines(t, o1)) == multiset(Lines(t, o2))
  {
    DistinctCounts(o1);
    DistinctCounts(o2);
    forall k ensures multiset(o1)[k] == multiset(o2)[k] {
      assert k in o1 <==> k in o2;
    }
    assert multiset(o1) == multiset(o2);
    MapKeysPermute(LineFn(t), o1, o2);
  }

}

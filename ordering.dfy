/**
 What `order` computes: the registered plugins a plugin names in its before-
 and after-class lists, the `addAfterPlug` calls the edge-building loop
 makes, and the sort of `$plugs` by each plugin's order index.
 */
module Ordering {
  import opened Plugins

  /** The plugins registered under the class names `classes`, in declaration
      order; names with no registered plugin are dropped. */
  function Registered(classes: seq<string>, byClass: map<string, Plugin>): (r: seq<Plugin>)
    ensures |r| <= |classes|
  {
    if classes == [] then []
    else
      var c := classes[|classes| - 1];
      Registered(classes[..|classes| - 1], byClass) + (if c in byClass then [byClass[c]] else [])
  }

  /** `q` is registered under one of the class names in `classes`. */
  ghost predicate NamedIn(q: Plugin, classes: seq<string>, byClass: map<string, Plugin>)
  {
    exists k :: 0 <= k < |classes| && classes[k] in byClass && byClass[classes[k]] == q
  }

  /** Resolving a concatenation resolves each part, in order. */
  lemma {:induction false} RegisteredAppend(a: seq<string>, b: seq<string>, byClass: map<string, Plugin>)
    ensures Registered(a + b, byClass) == Registered(a, byClass) + Registered(b, byClass)
  {
    if b == [] {
      assert a + b == a;
    } else {
      var c := b[|b| - 1];
      assert (a + b)[..|a + b| - 1] == a + b[..|b| - 1];
      RegisteredAppend(a, b[..|b| - 1], byClass);
    }
  }

  /** A plugin is in the result exactly when one of the listed class names is
      registered to it. */
  lemma {:induction false} RegisteredMembership(q: Plugin, classes: seq<string>, byClass: map<string, Plugin>)
    ensures q in Registered(classes, byClass) <==> NamedIn(q, classes, byClass)
  {
    if classes != [] {
      var init := classes[..|classes| - 1];
      RegisteredMembership(q, init, byClass);
      if NamedIn(q, init, byClass) {
        var k :| 0 <= k < |init| && init[k] in byClass && byClass[init[k]] == q;
        assert classes[k] == init[k];
      }
      if NamedIn(q, classes, byClass) {
        var k :| 0 <= k < |classes| && classes[k] in byClass && byClass[classes[k]] == q;
        if k < |init| {
          assert init[k] == classes[k];
        }
      }
    }
  }

  /** When every listed class is registered, nothing is dropped and the
      result follows the declaration one for one. */
  lemma {:induction false} RegisteredAllPresent(classes: seq<string>, byClass: map<string, Plugin>)
    requires forall k :: 0 <= k < |classes| ==> classes[k] in byClass
    ensures |Registered(classes, byClass)| == |classes|
    ensures forall k :: 0 <= k < |classes| ==> Registered(classes, byClass)[k] == byClass[classes[k]]
  {
    if classes != [] {
      var init := classes[..|classes| - 1];
      RegisteredAllPresent(init, byClass);
    }
  }

  /** `q->addAfterPlug(p)` for every registered `q` that `p` must run before. */
  function BeforeEdges(p: Plugin, befores: seq<Plugin>): seq<AfterCall>
  {
    seq(|befores|, i requires 0 <= i < |befores| => AfterCall(befores[i], p))
  }

  /** `p->addAfterPlug(q)` for every registered `q` that `p` must run after. */
  function AfterEdges(p: Plugin, afters: seq<Plugin>): seq<AfterCall>
  {
    seq(|afters|, i requires 0 <= i < |afters| => AfterCall(p, afters[i]))
  }

  /** The calls one turn of the edge-building loop makes for `p`. */
  function PlugEdges(p: Plugin, byClass: map<string, Plugin>): seq<AfterCall>
  {
    BeforeEdges(p, Registered(p.beforeClasses, byClass)) + AfterEdges(p, Registered(p.afterClasses, byClass))
  }

  /** The calls the whole edge-building loop makes over `ps`, in call order. */
  function EdgeCalls(ps: seq<Plugin>, byClass: map<string, Plugin>): seq<AfterCall>
  {
    if ps == [] then []
    else EdgeCalls(ps[..|ps| - 1], byClass) + PlugEdges(ps[|ps| - 1], byClass)
  }

  /** The edge `c` is demanded by `p`'s declarations: `p` names the receiver
      of `c` in its before list and is the plugin to run first, or `p` is the
      receiver and names the plugin to run first in its after list. */
  ghost predicate Demands(p: Plugin, byClass: map<string, Plugin>, c: AfterCall)
  {
    || (c.after == p && NamedIn(c.receiver, p.beforeClasses, byClass))
    || (c.receiver == p && NamedIn(c.after, p.afterClasses, byClass))
  }

  lemma PlugEdgesExact(p: Plugin, byClass: map<string, Plugin>, c: AfterCall)
    ensures c in PlugEdges(p, byClass) <==> Demands(p, byClass, c)
  {
    var bs := Registered(p.beforeClasses, byClass);
    var afters := Registered(p.afterClasses, byClass);
    RegisteredMembership(c.receiver, p.beforeClasses, byClass);
    RegisteredMembership(c.after, p.afterClasses, byClass);
    if c in BeforeEdges(p, bs) {
      var i :| 0 <= i < |bs| && BeforeEdges(p, bs)[i] == c;
    }
    if c in AfterEdges(p, afters) {
      var i :| 0 <= i < |afters| && AfterEdges(p, afters)[i] == c;
    }
    if c.after == p && c.receiver in bs {
      var i :| 0 <= i < |bs| && bs[i] == c.receiver;
      assert BeforeEdges(p, bs)[i] == c;
    }
    if c.receiver == p && c.after in afters {
      var i :| 0 <= i < |afters| && afters[i] == c.after;
      assert AfterEdges(p, afters)[i] == c;
    }
  }

  /** Every edge the loop adds is demanded by some plugin's declarations. */
  lemma {:induction false} EdgeCallsSound(ps: seq<Plugin>, byClass: map<string, Plugin>, c: AfterCall)
    requires c in EdgeCalls(ps, byClass)
    ensures exists i :: 0 <= i < |ps| && Demands(ps[i], byClass, c)
  {
    var init := ps[..|ps| - 1];
    if c in EdgeCalls(init, byClass) {
      EdgeCallsSound(init, byClass, c);
      var i :| 0 <= i < |init| && Demands(init[i], byClass, c);
      assert ps[i] == init[i];
    } else {
      PlugEdgesExact(ps[|ps| - 1], byClass, c);
    }
  }

  /** Every edge some plugin's declarations demand is added. */
  lemma {:induction false} EdgeCallsComplete(ps: seq<Plugin>, byClass: map<string, Plugin>, c: AfterCall, i: nat)
    requires i < |ps| && Demands(ps[i], byClass, c)
    ensures c in EdgeCalls(ps, byClass)
  {
    var init := ps[..|ps| - 1];
    if i == |ps| - 1 {
      PlugEdgesExact(ps[i], byClass, c);
    } else {
      assert init[i] == ps[i];
      EdgeCallsComplete(init, byClass, c, i);
    }
  }

  /** The edges `order` adds are exactly those some registered plugin's
      declarations demand: no edge is missing and none is invented. */
  lemma EdgeCallsExact(ps: seq<Plugin>, byClass: map<string, Plugin>, c: AfterCall)
    ensures c in EdgeCalls(ps, byClass) <==> exists i :: 0 <= i < |ps| && Demands(ps[i], byClass, c)
  {
    if c in EdgeCalls(ps, byClass) {
      EdgeCallsSound(ps, byClass, c);
    }
    if exists i :: 0 <= i < |ps| && Demands(ps[i], byClass, c) {
      var i :| 0 <= i < |ps| && Demands(ps[i], byClass, c);
      EdgeCallsComplete(ps, byClass, c, i);
    }
  }

  /** `s` is in non-decreasing order of `getOrderIndex`, each plugin's index
      computed once all `calls` have been made. */
  ghost predicate SortedByIndex(s: seq<Plugin>, orderIndex: (Plugin, seq<AfterCall>) -> int, calls: seq<AfterCall>)
  {
    forall i, j :: 0 <= i < j < |s| ==> orderIndex(s[i], calls) <= orderIndex(s[j], calls)
  }

  /** The first slot of the sorted `r` whose plugin ranks strictly above
      `x`: inserting `x` there keeps `r` sorted. */
  method InsertionPoint(r: seq<Plugin>, x: Plugin, orderIndex: (Plugin, seq<AfterCall>) -> int, calls: seq<AfterCall>)
    returns (k: nat)
    requires SortedByIndex(r, orderIndex, calls)
    ensures k <= |r|
    ensures forall j :: 0 <= j < k ==> orderIndex(r[j], calls) <= orderIndex(x, calls)
    ensures forall j :: k <= j < |r| ==> orderIndex(x, calls) < orderIndex(r[j], calls)
  {
    k := 0;
    while k < |r| && orderIndex(r[k], calls) <= orderIndex(x, calls)
      invariant k <= |r|
      invariant forall j :: 0 <= j < k ==> orderIndex(r[j], calls) <= orderIndex(x, calls)
    {
      k := k + 1;
    }
  }

  /** Inserting at such a slot keeps the order and adds exactly `x`. */
  lemma InsertSorted(r: seq<Plugin>, k: nat, x: Plugin, orderIndex: (Plugin, seq<AfterCall>) -> int, calls: seq<AfterCall>)
    requires SortedByIndex(r, orderIndex, calls)
    requires k <= |r|
    requires forall j :: 0 <= j < k ==> orderIndex(r[j], calls) <= orderIndex(x, calls)
    requires forall j :: k <= j < |r| ==> orderIndex(x, calls) < orderIndex(r[j], calls)
    ensures SortedByIndex(r[..k] + [x] + r[k..], orderIndex, calls)
    ensures multiset(r[..k] + [x] + r[k..]) == multiset(r) + multiset{x}
  {
    var t := r[..k] + [x] + r[k..];
    forall i, j | 0 <= i < j < |t|
      ensures orderIndex(t[i], calls) <= orderIndex(t[j], calls)
    {
      if j < k {
        assert t[i] == r[i] && t[j] == r[j];
      } else if j == k {
        assert t[j] == x && t[i] == r[i];
      } else if i < k {
        assert t[i] == r[i] && t[j] == r[j - 1];
      } else if i == k {
        assert t[i] == x && t[j] == r[j - 1];
      } else {
        assert t[i] == r[i - 1] && t[j] == r[j - 1];
      }
    }
    assert r == r[..k] + r[k..];
  }

  /** `usort` with the comparator of `order`: a rearrangement of `s` in
      non-decreasing order of the order index. The comparator never answers
      "equal", so which of several equally ranked plugins comes first is not
      part of the contract. */
  method SortByIndex(s: seq<Plugin>, orderIndex: (Plugin, seq<AfterCall>) -> int, calls: seq<AfterCall>)
    returns (r: seq<Plugin>)
    ensures multiset(r) == multiset(s)
    ensures SortedByIndex(r, orderIndex, calls)
  {
    r := [];
    var i := 0;
    while i < |s|
      invariant 0 <= i <= |s|
      invariant multiset(r) == multiset(s[..i])
      invariant SortedByIndex(r, orderIndex, calls)
    {
      var k := InsertionPoint(r, s[i], orderIndex, calls);
      InsertSorted(r, k, s[i], orderIndex, calls);
      r := r[..k] + [s[i]] + r[k..];
      assert s[..i + 1] == s[..i] + [s[i]];
      i := i + 1;
    }
    assert s[..|s|] == s;
  }

  /** When every edge's receiver has a strictly larger order index than the
      plugin it must run after, the sorted sequence puts the latter first. */
  lemma SortedRespectsEdges(s: seq<Plugin>, orderIndex: (Plugin, seq<AfterCall>) -> int, calls: seq<AfterCall>)
    requires SortedByIndex(s, orderIndex, calls)
    requires forall c :: c in calls ==> orderIndex(c.after, calls) < orderIndex(c.receiver, calls)
    ensures forall i, j :: 0 <= i < |s| && 0 <= j < |s| && AfterCall(s[i], s[j]) in calls ==> j < i
  {
  }
}

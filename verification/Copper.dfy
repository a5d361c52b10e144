/** Pad groups on a graph of copper: items joined where they touch, a group being a connected cluster that
    holds a pad. */
module Copper {

  /** Touching items of one net, as pairs of item numbers. */
  type Touches = seq<(nat, nat)>

  ghost predicate InRange(n: nat, edges: Touches) { forall k | 0 <= k < |edges| :: edges[k].0 < n && edges[k].1 < n }

  // --- connectivity by paths ------------------------------------------------------------------------------------------

  ghost predicate Adjacent(edges: Touches, i: nat, j: nat) { (i, j) in edges || (j, i) in edges }

  ghost predicate IsPath(edges: Touches, path: seq<nat>) {
    path != [] && forall k | 0 <= k < |path| - 1 :: Adjacent(edges, path[k], path[k + 1])
  }

  ghost predicate Leads(edges: Touches, path: seq<nat>, i: nat, j: nat) {
    IsPath(edges, path) && path[0] == i && path[|path| - 1] == j
  }

  ghost predicate Connected(edges: Touches, i: nat, j: nat) { exists path :: Leads(edges, path, i, j) }

  lemma Reflexive(edges: Touches, i: nat)
    ensures Connected(edges, i, i)
  {
    assert Leads(edges, [i], i, i);
  }

  lemma OneTouch(edges: Touches, i: nat, j: nat)
    requires Adjacent(edges, i, j)
    ensures Connected(edges, i, j)
  {
    assert Leads(edges, [i, j], i, j);
  }

  lemma Transitive(edges: Touches, i: nat, j: nat, k: nat)
    requires Connected(edges, i, j) && Connected(edges, j, k)
    ensures Connected(edges, i, k)
  {
    var p, q :| Leads(edges, p, i, j) && Leads(edges, q, j, k);
    var r := p + q[1..];
    forall m | 0 <= m < |r| - 1
      ensures Adjacent(edges, r[m], r[m + 1])
    {
      if m < |p| - 1 {
        assert Adjacent(edges, p[m], p[m + 1]);
      } else {
        assert r[m] == q[m - |p| + 1] && r[m + 1] == q[m - |p| + 2];
        assert Adjacent(edges, q[m - |p| + 1], q[m - |p| + 1 + 1]);
      }
    }
    assert Leads(edges, r, i, k);
  }

  lemma MoreTouches(edges: Touches, more: Touches, i: nat, j: nat)
    requires Connected(edges, i, j)
    ensures Connected(edges + more, i, j)
  {
    var p :| Leads(edges, p, i, j);
    forall m | 0 <= m < |p| - 1
      ensures Adjacent(edges + more, p[m], p[m + 1])
    {
      assert Adjacent(edges, p[m], p[m + 1]);
    }
    assert Leads(edges + more, p, i, j);
  }

  // --- connectivity by labels -----------------------------------------------------------------------------------------

  /** Merging the cluster of `v` into that of `u`. */
  function Merge(labels: seq<nat>, u: nat, v: nat): (l: seq<nat>)
    requires u < |labels| && v < |labels|
    ensures |l| == |labels| && forall i | 0 <= i < |l| :: l[i] == if labels[i] == labels[v] then labels[u] else labels[i]
  {
    seq(|labels|, i requires 0 <= i < |labels| => if labels[i] == labels[v] then labels[u] else labels[i])
  }

  /** A label per item, equal within a cluster. */
  ghost function Labels(n: nat, edges: Touches): (l: seq<nat>)
    requires InRange(n, edges)
    ensures |l| == n
  {
    if edges == [] then seq(n, i => i)
    else Merge(Labels(n, edges[..|edges| - 1]), edges[|edges| - 1].0, edges[|edges| - 1].1)
  }

  lemma {:induction false} TouchingShareLabels(n: nat, edges: Touches, i: nat, j: nat)
    requires InRange(n, edges) && i < n && j < n && Adjacent(edges, i, j)
    ensures Labels(n, edges)[i] == Labels(n, edges)[j]
  {
    var init, last := edges[..|edges| - 1], edges[|edges| - 1];
    assert edges == init + [last];
    if Adjacent(init, i, j) {
      TouchingShareLabels(n, init, i, j);
    }
  }

  lemma {:induction false} PathSharesLabels(n: nat, edges: Touches, path: seq<nat>)
    requires InRange(n, edges) && IsPath(edges, path) && path[0] < n
    ensures path[|path| - 1] < n && Labels(n, edges)[path[0]] == Labels(n, edges)[path[|path| - 1]]
  {
    if |path| > 1 {
      var init := path[..|path| - 1];
      forall k | 0 <= k < |init| - 1 ensures Adjacent(edges, init[k], init[k + 1]) { assert Adjacent(edges, path[k], path[k + 1]); }
      PathSharesLabels(n, edges, init);
      var i, j := path[|path| - 2], path[|path| - 1];
      assert Adjacent(edges, i, path[|path| - 2 + 1]);
      TouchesInRange(n, edges, i, j);
      TouchingShareLabels(n, edges, i, j);
    }
  }

  lemma TouchesInRange(n: nat, edges: Touches, i: nat, j: nat)
    requires InRange(n, edges) && Adjacent(edges, i, j)
    ensures i < n && j < n
  {
  }

  lemma {:induction false} SameLabelIsConnected(n: nat, edges: Touches, i: nat, j: nat)
    requires InRange(n, edges) && i < n && j < n && Labels(n, edges)[i] == Labels(n, edges)[j]
    ensures Connected(edges, i, j)
    decreases |edges|, 0
  {
    if edges == [] {
      Reflexive(edges, i);
    } else {
      var init, last := edges[..|edges| - 1], edges[|edges| - 1];
      var was, u, v := Labels(n, init), last.0, last.1;
      assert edges == init + [last];
      assert Adjacent(edges, u, v) && Adjacent(edges, v, u);
      if was[i] == was[j] {
        StillConnected(n, init, last, i, j);
      } else if was[i] == was[v] {
        StillConnected(n, init, last, i, v);
        OneTouch(edges, v, u);
        StillConnected(n, init, last, u, j);
        Transitive(edges, i, v, u);
        Transitive(edges, i, u, j);
      } else {
        StillConnected(n, init, last, i, u);
        OneTouch(edges, u, v);
        StillConnected(n, init, last, v, j);
        Transitive(edges, i, u, v);
        Transitive(edges, i, v, j);
      }
    }
  }

  lemma {:induction false} StillConnected(n: nat, init: Touches, last: (nat, nat), i: nat, j: nat)
    requires InRange(n, init) && i < n && j < n && Labels(n, init)[i] == Labels(n, init)[j]
    ensures Connected(init + [last], i, j)
    decreases |init|, 1
  {
    SameLabelIsConnected(n, init, i, j);
    MoreTouches(init, [last], i, j);
  }

  /** Labels and paths tell the same clusters. */
  lemma LabelsAreClusters(n: nat, edges: Touches, i: nat, j: nat)
    requires InRange(n, edges) && i < n && j < n
    ensures Labels(n, edges)[i] == Labels(n, edges)[j] <==> Connected(edges, i, j)
  {
    if Connected(edges, i, j) {
      var p :| Leads(edges, p, i, j);
      PathSharesLabels(n, edges, p);
    }
    if Labels(n, edges)[i] == Labels(n, edges)[j] {
      SameLabelIsConnected(n, edges, i, j);
    }
  }

  // --- pad groups -------------------------------------------------------------------------------------------------------

  ghost function PadLabels(n: nat, edges: Touches, pads: set<nat>): set<nat>
    requires InRange(n, edges) && forall p | p in pads :: p < n
  {
    set p | p in pads :: Labels(n, edges)[p]
  }

  /** The number of clusters that hold a pad. */
  ghost function PadGroups(n: nat, edges: Touches, pads: set<nat>): nat
    requires InRange(n, edges) && forall p | p in pads :: p < n
  {
    |PadLabels(n, edges, pads)|
  }

  /** The cluster of an item holds a pad. */
  ghost predicate HoldsPad(edges: Touches, pads: set<nat>, i: nat) { exists p | p in pads :: Connected(edges, p, i) }

  lemma LabelOfPad(n: nat, edges: Touches, pads: set<nat>, i: nat)
    requires InRange(n, edges) && (forall p | p in pads :: p < n) && i < n
    ensures Labels(n, edges)[i] in PadLabels(n, edges, pads) <==> HoldsPad(edges, pads, i)
  {
    var labels := Labels(n, edges);
    forall p | p in pads
      ensures labels[p] == labels[i] <==> Connected(edges, p, i)
    {
      LabelsAreClusters(n, edges, p, i);
    }
  }

  /** A touch that joins two clusters with pads makes one connection; any other touch makes none. */
  lemma OneTouchMore(n: nat, edges: Touches, pads: set<nat>, u: nat, v: nat)
    requires InRange(n, edges) && (forall p | p in pads :: p < n) && u < n && v < n
    ensures PadGroups(n, edges + [(u, v)], pads)
      == PadGroups(n, edges, pads)
         - if !Connected(edges, u, v) && HoldsPad(edges, pads, u) && HoldsPad(edges, pads, v) then 1 else 0
  {
    var more := edges + [(u, v)];
    var was, now := Labels(n, edges), Labels(n, more);
    assert more[..|edges|] == edges;
    assert now == Merge(was, u, v);
    LabelsAreClusters(n, edges, u, v);
    LabelOfPad(n, edges, pads, u);
    LabelOfPad(n, edges, pads, v);
    var s, t, a, b := PadLabels(n, edges, pads), PadLabels(n, more, pads), was[u], was[v];
    hide Labels, HoldsPad, Connected;
    if a == b || b !in s {
      assert forall p | p in pads :: now[p] == was[p] by { forall p | p in pads ensures now[p] == was[p] { assert was[p] in s; } }
      assert t == s;
    } else {
      forall x ensures x in t <==> (x in s && x != b) || x == a {
        if x in t {
          var p :| p in pads && now[p] == x;
          assert was[p] in s;
        }
        if x in s && x != b {
          var p :| p in pads && was[p] == x;
          assert now[p] == x;
        }
        if x == a {
          var p :| p in pads && was[p] == b;
          assert now[p] == a;
        }
      }
      assert t == (s - {b}) + {a};
      if a in s {
        assert t == s - {b};
      }
    }
  }

  /** Any copper added to a net leaves at most as many pad groups, and never none. */
  lemma {:induction false} AddedCopperOnlyJoins(n: nat, edges: Touches, more: Touches, pads: set<nat>)
    requires InRange(n, edges) && InRange(n, more) && (forall p | p in pads :: p < n)
    ensures InRange(n, edges + more)
    ensures PadGroups(n, edges + more, pads) <= PadGroups(n, edges, pads)
    ensures pads != {} ==> PadGroups(n, edges + more, pads) >= 1
  {
    if more == [] {
      assert edges + more == edges;
      if p :| p in pads { assert Labels(n, edges)[p] in PadLabels(n, edges, pads); }
    } else {
      var init, last := more[..|more| - 1], more[|more| - 1];
      AddedCopperOnlyJoins(n, edges, init, pads);
      assert edges + more == (edges + init) + [last];
      OneTouchMore(n, edges + init, pads, last.0, last.1);
      if p :| p in pads { assert Labels(n, edges + more)[p] in PadLabels(n, edges + more, pads); }
    }
  }

  /** On a bare net every pad is a group of its own. */
  lemma BareNet(n: nat, pads: set<nat>)
    requires forall p | p in pads :: p < n
    ensures PadGroups(n, [], pads) == |pads|
  {
    assert PadLabels(n, [], pads) == pads by {
      forall x ensures x in PadLabels(n, [], pads) <==> x in pads {
        if x in pads { assert Labels(n, [])[x] == x; }
      }
    }
  }

  lemma OneLabel(s: set<nat>, x: nat)
    requires x in s
    ensures |s| == 1 <==> forall y | y in s :: y == x
  {
    assert s == (s - {x}) + {x};
    if forall y | y in s :: y == x {
      assert s - {x} == {};
    }
    if |s| == 1 {
      assert |s - {x}| == 0;
    }
  }

  /** One group means all the pads are connected. */
  lemma OneGroupIsWhole(n: nat, edges: Touches, pads: set<nat>)
    requires InRange(n, edges) && (forall p | p in pads :: p < n) && pads != {}
    ensures PadGroups(n, edges, pads) == 1 <==> forall p, q | p in pads && q in pads :: Connected(edges, p, q)
  {
    var labels, s := Labels(n, edges), PadLabels(n, edges, pads);
    var p0 :| p0 in pads;
    assert labels[p0] in s;
    OneLabel(s, labels[p0]);
    forall p, q | p in pads && q in pads
      ensures labels[p] == labels[q] <==> Connected(edges, p, q)
    {
      LabelsAreClusters(n, edges, p, q);
    }
    hide Labels, Connected;
    if |s| == 1 {
      forall p | p in pads ensures labels[p] == labels[p0] { assert labels[p] in s; }
    } else {
      var x :| x in s && x != labels[p0];
      var p :| p in pads && labels[p] == x;
      assert !Connected(edges, p, p0);
    }
  }
}

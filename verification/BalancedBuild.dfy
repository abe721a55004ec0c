/** Building the allocator's tree of partitions from a set of metrics. */
module BalancedBuild {
  import opened Basics
  import opened PartitionTree
  import opened Grouping
  import opened Balanced

  ghost function Models(ps: seq<Partition>): (ms: seq<Part>)
    reads ps
    ensures |ms| == |ps| && forall i :: 0 <= i < |ps| ==> ms[i] == ps[i].model
  {
    seq(|ps|, i requires 0 <= i < |ps| reads ps => ps[i].model)
  }

  ghost predicate AreSingles(ps: seq<Partition>, ms: seq<Metric>)
    reads ps
  {
    |ps| == |ms| && NoDup(ps) && forall i :: 0 <= i < |ps| ==> ps[i].IsGroup([ms[i]])
  }

  ghost predicate AreGroups(ps: map<string, Partition>, ms: map<string, seq<Metric>>)
    reads ps.Values
  {
    && ps.Keys == ms.Keys
    && (forall v :: v in ps ==> ps[v] in ps.Values && ps[v].IsGroup(ms[v]))
    && (forall v, w :: v in ps && w in ps && v != w ==> ps[v] != ps[w])
  }

  ghost predicate Apart(singles: seq<Partition>, byValue: map<string, Partition>) {
    forall v :: v in byValue ==> byValue[v] !in singles
  }

  /** The grouping so far: `sm` apart and `groups` by value. */
  ghost predicate SoFar(
    singles: seq<Partition>, byValue: map<string, Partition>, sm: seq<Metric>, groups: map<string, seq<Metric>>)
    reads singles, byValue.Values
  {
    AreSingles(singles, sm) && AreGroups(byValue, groups) && Apart(singles, byValue)
  }

  method AppendSingle(m: Metric, singles: seq<Partition>, byValue: map<string, Partition>,
                      ghost sm: seq<Metric>, ghost groups: map<string, seq<Metric>>) returns (singles': seq<Partition>)
    requires m.peer != "" && SoFar(singles, byValue, sm, groups)
    ensures SoFar(singles', byValue, sm + [m], groups)
    ensures forall p :: p in singles' ==> p in singles || fresh(p)
  {
    var p := new Partition(m);
    singles' := singles + [p];
  }

  method JoinGroup(m: Metric, singles: seq<Partition>, byValue: map<string, Partition>,
                   ghost sm: seq<Metric>, ghost groups: map<string, seq<Metric>>)
    requires m.peer != "" && SoFar(singles, byValue, sm, groups) && m.value in byValue
    modifies byValue[m.value]
    ensures SoFar(singles, byValue, sm, groups[m.value := groups[m.value] + [m]])
  {
    byValue[m.value].Join(m, groups[m.value]);
  }

  method NewGroup(m: Metric, singles: seq<Partition>, byValue: map<string, Partition>,
                  ghost sm: seq<Metric>, ghost groups: map<string, seq<Metric>>)
    returns (byValue': map<string, Partition>)
    requires m.peer != "" && SoFar(singles, byValue, sm, groups) && m.value !in byValue
    ensures SoFar(singles, byValue', sm, groups[m.value := [m]])
    ensures forall v :: v in byValue' ==> (v in byValue && byValue'[v] == byValue[v]) || fresh(byValue'[v])
  {
    var p := new Partition(m);
    byValue' := byValue[m.value := p];
  }

  /** The grouping of the metrics `seen`. */
  ghost predicate GroupedSoFar(
    singles: seq<Partition>, byValue: map<string, Partition>, seen: seq<Metric>, groups: map<string, seq<Metric>>)
    reads singles, byValue.Values
  {
    SoFar(singles, byValue, Singles(seen), groups) && GroupsByValue(groups, seen)
  }

  /** Puts one metric in its partition. */
  method Place(m: Metric, singles: seq<Partition>, byValue: map<string, Partition>,
               ghost seen: seq<Metric>, ghost groups: map<string, seq<Metric>>)
    returns (singles': seq<Partition>, byValue': map<string, Partition>)
    requires m.peer != "" && GroupedSoFar(singles, byValue, seen, groups)
    modifies byValue.Values
    ensures GroupedSoFar(singles', byValue', seen + [m], GroupsAdd(groups, m))
    ensures forall p :: p in singles' ==> p in singles || fresh(p)
    ensures forall v :: v in byValue' ==> (v in byValue && byValue'[v] == byValue[v]) || fresh(byValue'[v])
  {
    singles', byValue' := singles, byValue;
    ghost var sm := Singles(seen);
    GroupsStep(groups, seen, m);
    if !m.partitionable {
      singles' := AppendSingle(m, singles, byValue, sm, groups);
    } else if m.value in byValue {
      JoinGroup(m, singles, byValue, sm, groups);
    } else {
      byValue' := NewGroup(m, singles, byValue, sm, groups);
      assert [] + [m] == [m];
    }
  }

  /** Groups the metrics: non-partitionable ones apart, the others by value. */
  method GroupValues(metrics: seq<Metric>)
    returns (singles: seq<Partition>, byValue: map<string, Partition>, ghost groups: map<string, seq<Metric>>)
    requires forall m :: m in metrics ==> m.peer != ""
    ensures GroupedSoFar(singles, byValue, metrics, groups)
    ensures (forall p :: p in singles ==> fresh(p)) && (forall v :: v in byValue ==> fresh(byValue[v]))
  {
    singles, byValue, groups := [], map[], map[];
    ghost var seen: seq<Metric> := [];
    var i := 0;
    while i < |metrics|
      invariant 0 <= i <= |metrics| && seen == metrics[..i]
      invariant GroupedSoFar(singles, byValue, seen, groups)
      invariant (forall p :: p in singles ==> fresh(p)) && (forall v :: v in byValue ==> fresh(byValue[v]))
    {
      var m := metrics[i];
      PrefixSnoc(metrics, i);
      singles, byValue := Place(m, singles, byValue, seen, groups);
      groups := GroupsAdd(groups, m);
      seen := seen + [m];
      i := i + 1;
    }
    assert seen == metrics;
  }

  ghost predicate Loose(ps: seq<Partition>)
    reads ps
  {
    NoDup(ps) && forall i :: 0 <= i < |ps| ==> ps[i].IsGroup(ps[i].model.members)
  }

  /** The grouped partitions in the given order. */
  method ListGroups(byValue: map<string, Partition>, ghost groups: map<string, seq<Metric>>, keys: seq<string>)
    returns (qs: seq<Partition>)
    requires AreGroups(byValue, groups) && NoDup(keys) && forall v :: v in keys ==> v in byValue
    ensures |qs| == |keys| && Loose(qs)
    ensures forall i :: 0 <= i < |qs| ==> qs[i] == byValue[keys[i]] && qs[i].model.members == groups[keys[i]]
  {
    qs := seq(|keys|, i requires 0 <= i < |keys| => byValue[keys[i]]);
  }

  lemma LooseConcat(ps: seq<Partition>, qs: seq<Partition>)
    requires Loose(ps) && Loose(qs) && forall q :: q in qs ==> q !in ps
    ensures Loose(ps + qs) && Models(ps + qs) == Models(ps) + Models(qs)
  {
    NoDupConcat(ps, qs);
  }

  lemma GroupsModels(singles: seq<Partition>, qs: seq<Partition>, ms: seq<Metric>,
                     groups: map<string, seq<Metric>>, keys: seq<string>)
    requires AreSingles(singles, Singles(ms)) && Loose(qs) && (forall q :: q in qs ==> q !in singles)
    requires GroupsByValue(groups, ms) && NoDup(keys) && |qs| == |keys| && forall v :: v in groups <==> v in keys
    requires forall i :: 0 <= i < |qs| ==> keys[i] in groups && qs[i].model.members == groups[keys[i]]
    ensures Loose(singles + qs) && Grouped(Models(singles + qs), ms)
  {
    assert forall i :: 0 <= i < |singles| ==> singles[i].IsGroup([Singles(ms)[i]]);
    LooseConcat(singles, qs);
    assert forall i :: 0 <= i < |qs| ==> qs[i].IsGroup(qs[i].model.members);
    GroupedFrom(Models(singles), Models(qs), ms, groups, keys);
  }

  /** The partitions grouped by value, in any order, after the others. */
  method Collect(
    singles: seq<Partition>, byValue: map<string, Partition>, ghost groups: map<string, seq<Metric>>,
    ghost ms: seq<Metric>)
    returns (ps: seq<Partition>)
    requires GroupedSoFar(singles, byValue, ms, groups)
    ensures Loose(ps) && Grouped(Models(ps), ms)
    ensures forall i :: 0 <= i < |ps| ==> ps[i] in singles || ps[i] in byValue.Values
  {
    var keys := AnyOrder(byValue.Keys);
    assert forall v :: v in keys <==> v in Elements(keys);
    var qs := ListGroups(byValue, groups, keys);
    forall q | q in qs
      ensures q in byValue.Values && q !in singles
    {
      var i :| 0 <= i < |qs| && q == qs[i];
      assert keys[i] in byValue;
    }
    GroupsModels(singles, qs, ms, groups, keys);
    ps := singles + qs;
  }

  /** The partitions of a list of metrics. */
  method PartitionValues(metrics: seq<Metric>) returns (ps: seq<Partition>)
    requires forall m :: m in metrics ==> m.peer != ""
    ensures Loose(ps) && forall i :: 0 <= i < |ps| ==> fresh(ps[i])
    ensures Grouped(Models(ps), metrics)
  {
    var singles, byValue;
    ghost var groups;
    singles, byValue, groups := GroupValues(metrics);
    ps := Collect(singles, byValue, groups, metrics);
  }

  /** The comparison function given to the sort. */
  predicate LessF(p: Partition, q: Partition)
    reads p, q
  {
    if p.weight == q.weight then
      if p.aggregatedWeight == q.aggregatedWeight then StrLess(p.value, q.value)
      else q.aggregatedWeight < p.aggregatedWeight
    else
      q.weight < p.weight
  }

  ghost predicate Tied(ps: seq<Partition>)
    reads ps
  {
    forall i :: 0 <= i < |ps| ==>
      && ps[i].model.weight == ps[i].weight && ps[i].model.aggregate == ps[i].aggregatedWeight
      && ps[i].model.value == ps[i].value
  }

  method Insert(ps: seq<Partition>, p: Partition) returns (r: seq<Partition>)
    requires Tied(ps) && Tied([p]) && Sorted(Models(ps))
    ensures multiset(r) == multiset(ps) + multiset{p} && Tied(r) && Sorted(Models(r))
  {
    var i := 0;
    assert Tied([p]) ==> [p][0] == p;
    while i < |ps| && !LessF(p, ps[i])
      invariant 0 <= i <= |ps|
      invariant forall k :: 0 <= k < i ==> !Before(p.model, ps[k].model)
    {
      i := i + 1;
    }
    r := ps[..i] + [p] + ps[i..];
    SortedInsert(Models(ps), i, p.model);
    InsertMultiset(ps, i, p);
    assert Models(r) == Models(ps)[..i] + [p.model] + Models(ps)[i..];
  }

  /** `sort.Slice`, of which only this contract is used. */
  method SortPartitions(ps: seq<Partition>) returns (r: seq<Partition>)
    requires Tied(ps)
    ensures multiset(r) == multiset(ps) && Sorted(Models(r))
  {
    r := [];
    var i := 0;
    while i < |ps|
      invariant 0 <= i <= |ps|
      invariant multiset(r) == multiset(ps[..i]) && Tied(r) && Sorted(Models(r))
    {
      PrefixSnoc(ps, i);
      r := Insert(r, ps[i]);
      i := i + 1;
    }
    assert ps[..i] == ps;
  }

  /** Only the metrics of other names that belong to the peers of a partition. */
  method FilterSet(ms: MetricsSet, root: string, peers: map<PeerID, bool>) returns (r: MetricsSet)
    ensures r == Restrict(ms, root, peers.Keys)
  {
    r := map[];
    var order := AnyOrder(ms.Keys);
    var i := 0;
    while i < |order|
      invariant 0 <= i <= |order|
      invariant forall k :: k in r <==> k in order[..i] && k != root && FilterPeers(ms[k], peers.Keys) != []
      invariant forall k :: k in r ==> r[k] == FilterPeers(ms[k], peers.Keys)
    {
      var k := order[i];
      assert k in Elements(order);
      if k != root {
        var kept := KeepPeers(ms[k], peers);
        if kept != [] {
          r := r[k := kept];
        }
      }
      PrefixSnoc(order, i);
      i := i + 1;
    }
    assert order[..i] == order;
    assert forall k :: k in order <==> k in Elements(order);
  }

  method KeepPeers(v: seq<Metric>, peers: map<PeerID, bool>) returns (kept: seq<Metric>)
    ensures kept == FilterPeers(v, peers.Keys)
  {
    kept := [];
    var i := 0;
    while i < |v|
      invariant 0 <= i <= |v| && kept == FilterPeers(v[..i], peers.Keys)
    {
      assert Front(v[..i + 1]) == v[..i] && Last(v[..i + 1]) == v[i];
      if v[i].peer in peers {
        kept := kept + [v[i]];
      }
      i := i + 1;
    }
    assert v[..i] == v;
  }

  ghost predicate NoBlankPeers(ms: MetricsSet) {
    forall k, m :: k in ms && m in ms[k] ==> m.peer != ""
  }

  lemma ModelsPermutation(a: seq<Partition>, b: seq<Partition>)
    requires multiset(a) == multiset(b)
    ensures multiset(Models(a)) == multiset(Models(b))
  {
    var f := map p | p in a :: p.model;
    ImagePermutation(a, b, f);
    assert Models(a) == Image(a, f) && Models(b) == Image(b, f);
  }

  lemma PermutedIndex<T>(a: seq<T>, b: seq<T>, j: int) returns (i: int)
    requires multiset(a) == multiset(b) && 0 <= j < |b|
    ensures 0 <= i < |a| && a[i] == b[j]
  {
    assert b[j] in multiset(a);
    i :| 0 <= i < |a| && a[i] == b[j];
  }

  /** Partitions with everything below them built, sharing nothing and owning only `owned`. */
  ghost predicate Standing(ps: seq<Partition>, owned: set<object>, ms: MetricsSet, names: seq<string>)
    requires names != []
    reads ps, owned
  {
    && (forall i :: 0 <= i < |ps| ==> ps[i] in owned && ps[i].Repr <= owned && Finished(ps[i], ms, names))
    && (forall i, j :: 0 <= i < j < |ps| ==> ps[i].Repr !! ps[j].Repr)
  }

  lemma StandingPermutation(
    a: seq<Partition>, b: seq<Partition>, owned: set<object>, ms: MetricsSet, names: seq<string>)
    requires names != [] && NoDup(a) && multiset(a) == multiset(b) && Standing(a, owned, ms, names)
    ensures Standing(b, owned, ms, names)
  {
    NoDupPermutation(a, b);
    forall j | 0 <= j < |b|
      ensures b[j] in owned && b[j].Repr <= owned && Finished(b[j], ms, names)
    {
      var i := PermutedIndex(a, b, j);
    }
    forall i, j | 0 <= i < j < |b|
      ensures b[i].Repr !! b[j].Repr
    {
      var k := PermutedIndex(a, b, i);
      var l := PermutedIndex(a, b, j);
      assert a[k] != a[l];
      assert k < l || l < k;
    }
  }

  /** Sorts finished partitions and makes a tree node of them. */
  method Wrap(
    ps: seq<Partition>, ghost owned: set<object>, ms: MetricsSet, names: seq<string>)
    returns (t: PartitionedMetric)
    requires names != [] && NoDup(ps) && Grouped(Models(ps), Lookup(ms, names[0])) && Standing(ps, owned, ms, names)
    ensures t.Valid() && Built(t.model, ms, names) && fresh(t) && t.Repr == {t} + owned
  {
    var sorted := SortPartitions(ps);
    SortedBuilt(ps, sorted, owned, ms, names);
    t := NewNode(sorted, owned, ms, names);
  }

  method NewNode(
    ps: seq<Partition>, ghost owned: set<object>, ms: MetricsSet, names: seq<string>)
    returns (t: PartitionedMetric)
    requires names != [] && Standing(ps, owned, ms, names) && Built(Tree(names[0], 0, Models(ps)), ms, names)
    ensures t.Valid() && Built(t.model, ms, names) && fresh(t) && t.Repr == {t} + owned
  {
    ghost var parts := Models(ps);
    t := new PartitionedMetric(names[0], ps, owned);
    assert t.model == Tree(names[0], 0, parts);
  }

  lemma SortedBuilt(ps: seq<Partition>, sorted: seq<Partition>, owned: set<object>, ms: MetricsSet, names: seq<string>)
    requires names != [] && NoDup(ps) && Grouped(Models(ps), Lookup(ms, names[0])) && Standing(ps, owned, ms, names)
    requires multiset(sorted) == multiset(ps) && Sorted(Models(sorted))
    ensures Standing(sorted, owned, ms, names) && Built(Tree(names[0], 0, Models(sorted)), ms, names)
  {
    ModelsPermutation(ps, sorted);
    BuiltFrom(Models(ps), Models(sorted), ms, names);
    StandingPermutation(ps, sorted, owned, ms, names);
  }

  /** Partitions the metrics by the first name, and each partition by the remaining names. */
  method PartitionMetrics(ms: MetricsSet, names: seq<string>) returns (t: PartitionedMetric)
    requires names != [] && NoBlankPeers(ms)
    ensures t.Valid() && fresh(t.Repr) && Built(t.model, ms, names)
    decreases |names|, 3
  {
    var ps := PartitionValues(Lookup(ms, names[0]));
    ghost var base := Models(ps);
    ghost var owned := BuildSubs(ps, ms, names);
    SameGroups(base, Models(ps));
    t := Wrap(ps, owned, ms, names);
  }

  /** Hangs sub-partitions below every partition, unless the names are used up. */
  method BuildSubs(ps: seq<Partition>, ms: MetricsSet, names: seq<string>) returns (ghost owned: set<object>)
    requires names != [] && NoBlankPeers(ms) && Loose(ps)
    modifies ps
    ensures Standing(ps, owned, ms, names) && forall i :: 0 <= i < |ps| ==> SameGroup(old(Models(ps))[i], ps[i].model)
    ensures forall o :: o in owned ==> o in ps || fresh(o)
    decreases |names|, 2
  {
    owned := set p | p in ps;
    if |names| == 1 {
      return;
    }
    ghost var base := Models(ps);
    var i := 0;
    while i < |ps|
      invariant 0 <= i <= |ps| && Partway(ps, i, owned, base, ms, names)
      invariant forall o :: o in owned ==> o in ps || fresh(o)
    {
      owned := BuildAt(ps, i, owned, base, ms, names);
      i := i + 1;
    }
  }

  method BuildAt(
    ps: seq<Partition>, i: int, ghost owned: set<object>, ghost base: seq<Part>, ms: MetricsSet, names: seq<string>)
    returns (ghost owned': set<object>)
    requires |names| > 1 && NoBlankPeers(ms) && 0 <= i < |ps| && Partway(ps, i, owned, base, ms, names)
    modifies ps[i]
    ensures Partway(ps, i + 1, owned', base, ms, names)
    ensures forall o :: o in owned' ==> o in owned || fresh(o)
    decreases |names|, 1
  {
    var p := ps[i];
    assert p.IsGroup(p.model.members) && p.Repr == {p};
    BuildSub(p, ms, names);
    owned' := owned + p.Repr;
    forall j | 0 <= j < |ps| && j != i
      ensures ps[j].Repr == old(ps[j].Repr) && ps[j].model == old(ps[j].model) && p !in ps[j].Repr
      ensures ps[j].Repr !! p.Repr
    {
      assert old(ps[j].Repr) !! old(p.Repr);
    }
  }

  /** The first `i` partitions are finished and the others still without sub-partitions. */
  ghost predicate Partway(
    ps: seq<Partition>, i: int, owned: set<object>, base: seq<Part>, ms: MetricsSet, names: seq<string>)
    requires names != []
    reads ps, owned
  {
    && |base| == |ps|
    && (forall j :: 0 <= j < |ps| ==> ps[j] in owned && ps[j].Repr <= owned)
    && (forall j :: 0 <= j < |ps| && j < i ==> Finished(ps[j], ms, names) && SameGroup(base[j], ps[j].model))
    && (forall j :: 0 <= j < |ps| && i <= j ==> ps[j].IsGroup(ps[j].model.members) && ps[j].model == base[j])
    && (forall j, k :: 0 <= j < k < |ps| ==> ps[j].Repr !! ps[k].Repr)
  }

  ghost predicate Finished(p: Partition, ms: MetricsSet, names: seq<string>)
    requires names != []
    reads p, p.Repr
  {
    p.Valid() && PartBuilt(p.model, ms, names)
  }

  /** Hangs sub-partitions below one partition. */
  method BuildSub(p: Partition, ms: MetricsSet, names: seq<string>)
    requires |names| > 1 && NoBlankPeers(ms) && p.IsGroup(p.model.members)
    modifies p
    ensures Finished(p, ms, names) && SameGroup(old(p.model), p.model)
    ensures fresh(p.Repr - {p})
    decreases |names|, 0
  {
    var filtered := FilterSet(ms, names[0], p.peers);
    forall k: string, m: Metric | k in filtered && m in filtered[k]
      ensures m.peer != ""
    {
      FilterPeersMember(ms[k], p.peers.Keys, m);
    }
    var t := PartitionMetrics(filtered, names[1..]);
    p.Attach(t, p.model.members);
  }

  // ----- the allocator -----

  /** `xs` is a complete balanced order of the peers in `ms`: all choices from a fresh tree, until none is left. */
  ghost predicate BalancedOrder(ms: MetricsSet, names: seq<string>, xs: seq<PeerID>)
    requires names != []
  {
    exists t, t' :: Built(t, ms, names) && Run(t, xs, t') && Peers(t', true) == multiset{}
  }

  method SortMetrics(ms: MetricsSet, names: seq<string>) returns (xs: seq<PeerID>)
    requires names != [] && NoBlankPeers(ms)
    ensures BalancedOrder(ms, names, xs)
  {
    var t := PartitionMetrics(ms, names);
    ghost var built := t.model;
    xs := t.SortedPeers();
    assert Built(built, ms, names) && Run(built, xs, t.model);
  }

  /** Priority peers in balanced order, then the candidates in balanced order. */
  method Allocate(
    candidates: MetricsSet, priority: MetricsSet, names: seq<string>)
    returns (first: seq<PeerID>, last: seq<PeerID>)
    requires names != [] && NoBlankPeers(candidates) && NoBlankPeers(priority)
    ensures BalancedOrder(priority, names, first) && BalancedOrder(candidates, names, last)
  {
    first := SortMetrics(priority, names);
    last := SortMetrics(candidates, names);
  }

  /** A run until nothing is left hands out the leaf peers, each once. */
  lemma RunsDry(ms: MetricsSet, names: seq<string>, t: Tree, xs: seq<PeerID>, t': Tree)
    requires names != [] && NoDup(names) && Unique(ms) && Built(t, ms, names)
    requires Run(t, xs, t') && Peers(t', true) == multiset{}
    ensures multiset(xs) == Peers(t, false) && AtMostOnce(multiset(xs))
  {
    BuiltFresh(t, ms, names);
    SeqFreshUnused(t.parts);
    RunPeers(t, xs, t');
    LeavesOnce(t, ms, names);
  }

  /** The order lists every peer that has all the metrics, exactly once. */
  lemma OrderPeers(ms: MetricsSet, names: seq<string>, xs: seq<PeerID>)
    requires names != [] && NoDup(names) && Unique(ms) && BalancedOrder(ms, names, xs)
    ensures NoDup(xs)
    ensures forall x :: x in xs <==> HasAll(ms, names, x)
  {
    var t, t' :| Built(t, ms, names) && Run(t, xs, t') && Peers(t', true) == multiset{};
    RunsDry(ms, names, t, xs, t');
    NoDupFromMultiset(xs);
    forall x
      ensures x in xs <==> HasAll(ms, names, x)
    {
      LeavesExactly(t, ms, names, x);
      assert x in xs <==> x in multiset(xs);
    }
  }

  /** However many peers are taken from the front of an order, the partitions of every node contribute evenly. */
  lemma OrderFairness(ms: MetricsSet, names: seq<string>, xs: seq<PeerID>, n: int) returns (t: Tree)
    requires names != [] && NoDup(names) && Unique(ms) && BalancedOrder(ms, names, xs) && 0 <= n <= |xs|
    ensures Built(t, ms, names) && EvenlyDeep(t, xs[..n])
  {
    var t', t'' :| Built(t', ms, names) && Run(t', xs, t'') && Peers(t'', true) == multiset{};
    t := t';
    BuiltFresh(t, ms, names);
    LeavesApart(t, ms, names);
    PrefixFairDeep(t, xs, t'', n);
  }
}

/**
 What `partitionMetrics` builds, said without the loops that build it, and what
 follows for every set of metrics: which peers end up at the leaves, and what
 the aggregated weights add up to.
 */
module Grouping {
  import opened Basics
  import opened PartitionTree

  ghost function PeersOf(ms: seq<Metric>): set<PeerID> {
    set m | m in ms :: m.peer
  }

  /** The weight of a group, added up metric by metric. */
  ghost function GroupWeight(ms: seq<Metric>): Int64 {
    if ms == [] then 0 else Add64(GroupWeight(Front(ms)), Last(ms).weight)
  }

  function SumWeights(ms: seq<Metric>): int {
    if ms == [] then 0 else SumWeights(Front(ms)) + Last(ms).weight
  }

  /** The partitionable metrics with value `v`, in order. */
  ghost function ByValue(ms: seq<Metric>, v: string): seq<Metric> {
    if ms == [] then []
    else ByValue(Front(ms), v) + if Last(ms).partitionable && Last(ms).value == v then [Last(ms)] else []
  }

  /** A partition is one non-partitionable metric, or all partitionable metrics with its value. */
  ghost predicate GroupOf(p: Part, ms: seq<Metric>) {
    && OfMembers(p)
    && p.members == if p.members[0].partitionable then ByValue(ms, p.value) else [p.members[0]]
  }

  ghost function MembersSum(ps: seq<Part>): multiset<Metric> {
    if ps == [] then multiset{} else MembersSum(Front(ps)) + multiset(Last(ps).members)
  }

  /** The partitions `ps` are the metrics `ms`, each in exactly one group. */
  ghost predicate Grouped(ps: seq<Part>, ms: seq<Metric>) {
    && (forall i :: 0 <= i < |ps| ==> GroupOf(ps[i], ms))
    && MembersSum(ps) == multiset(ms)
  }

  ghost function Singles(ms: seq<Metric>): seq<Metric> {
    if ms == [] then [] else Singles(Front(ms)) + if Last(ms).partitionable then [] else [Last(ms)]
  }

  ghost function KeyMembers(ms: seq<Metric>, keys: seq<string>): multiset<Metric> {
    if keys == [] then multiset{} else KeyMembers(ms, Front(keys)) + multiset(ByValue(ms, Last(keys)))
  }

  ghost function Only(m: Metric, b: bool): multiset<Metric> {
    if b then multiset{m} else multiset{}
  }

  lemma {:induction false} KeyMembersSnoc(ms: seq<Metric>, keys: seq<string>)
    requires ms != [] && NoDup(keys)
    ensures KeyMembers(ms, keys) ==
      KeyMembers(Front(ms), keys) + Only(Last(ms), Last(ms).partitionable && Last(ms).value in keys)
  {
    var m := Last(ms);
    if keys != [] {
      var k := Last(keys);
      KeyMembersSnoc(ms, Front(keys));
      assert keys == Front(keys) + [k];
      var x, y := Only(m, m.partitionable && m.value in Front(keys)), Only(m, m.partitionable && m.value == k);
      assert multiset(ByValue(ms, k)) == multiset(ByValue(Front(ms), k)) + y;
      Regroup(KeyMembers(Front(ms), Front(keys)), x, multiset(ByValue(Front(ms), k)), y);
      assert x + y == Only(m, m.partitionable && m.value in keys);
    }
  }

  lemma {:induction false} KeyMembersNone(keys: seq<string>)
    ensures KeyMembers([], keys) == multiset{}
  {
    if keys != [] {
      KeyMembersNone(Front(keys));
    }
  }

  /** `groups` are the groups by value of the partitionable metrics of `ms`. */
  ghost predicate GroupsByValue(groups: map<string, seq<Metric>>, ms: seq<Metric>) {
    forall v :: if v in groups then groups[v] == ByValue(ms, v) && groups[v] != [] else ByValue(ms, v) == []
  }

  ghost function GroupsAdd(groups: map<string, seq<Metric>>, m: Metric): map<string, seq<Metric>> {
    if !m.partitionable then groups
    else groups[m.value := (if m.value in groups then groups[m.value] else []) + [m]]
  }

  lemma GroupsStep(groups: map<string, seq<Metric>>, ms: seq<Metric>, m: Metric)
    requires GroupsByValue(groups, ms)
    ensures GroupsByValue(GroupsAdd(groups, m), ms + [m])
    ensures Singles(ms + [m]) == if m.partitionable then Singles(ms) else Singles(ms) + [m]
  {
    assert Front(ms + [m]) == ms && Last(ms + [m]) == m;
  }

  lemma SinglesSnoc(ms: seq<Metric>)
    requires ms != []
    ensures multiset(Singles(ms)) == multiset(Singles(Front(ms))) + Only(Last(ms), !Last(ms).partitionable)
    ensures multiset(ms) == multiset(Front(ms)) + multiset{Last(ms)}
  {
    assert ms == Front(ms) + [Last(ms)];
  }

  /** Grouping by value and keeping the others apart loses and repeats nothing. */
  lemma {:induction false} SplitMembers(ms: seq<Metric>, keys: seq<string>)
    requires NoDup(keys) && forall m :: m in ms && m.partitionable ==> m.value in keys
    ensures multiset(Singles(ms)) + KeyMembers(ms, keys) == multiset(ms)
  {
    if ms == [] {
      KeyMembersNone(keys);
    } else {
      var m := Last(ms);
      assert m in ms;
      SplitMembers(Front(ms), keys);
      KeyMembersSnoc(ms, keys);
      SinglesSnoc(ms);
      Regroup(
        multiset(Singles(Front(ms))), Only(m, !m.partitionable), KeyMembers(Front(ms), keys), Only(m, m.partitionable));
      assert Only(m, !m.partitionable) + Only(m, m.partitionable) == multiset{m};
    }
  }

  lemma {:induction false} MembersConcat(a: seq<Part>, b: seq<Part>)
    ensures MembersSum(a + b) == MembersSum(a) + MembersSum(b)
  {
    if b == [] {
      assert a + b == a;
    } else {
      assert Front(a + b) == a + Front(b) && Last(a + b) == Last(b);
      MembersConcat(a, Front(b));
      var x, y, z := MembersSum(a), MembersSum(Front(b)), multiset(Last(b).members);
      assert x + y + z == x + (y + z);
    }
  }

  lemma {:induction false} SinglesSum(ps: seq<Part>, sm: seq<Metric>)
    requires |ps| == |sm| && forall i :: 0 <= i < |ps| ==> ps[i].members == [sm[i]]
    ensures MembersSum(ps) == multiset(sm)
  {
    if ps != [] {
      SinglesSum(Front(ps), Front(sm));
      assert sm == Front(sm) + [Last(sm)];
    }
  }

  lemma {:induction false} KeysSum(ps: seq<Part>, ms: seq<Metric>, keys: seq<string>)
    requires |ps| == |keys| && forall i :: 0 <= i < |ps| ==> ps[i].members == ByValue(ms, keys[i])
    ensures MembersSum(ps) == KeyMembers(ms, keys)
  {
    if ps != [] {
      KeysSum(Front(ps), ms, Front(keys));
    }
  }

  lemma {:induction false} ByValueMember(ms: seq<Metric>, v: string, m: Metric)
    ensures m in ByValue(ms, v) <==> m in ms && m.partitionable && m.value == v
  {
    if ms != [] {
      ByValueMember(Front(ms), v, m);
      assert m in ms <==> m in Front(ms) || m == Last(ms);
    }
  }

  lemma {:induction false} SinglesMember(ms: seq<Metric>, m: Metric)
    ensures m in Singles(ms) <==> m in ms && !m.partitionable
  {
    if ms != [] {
      SinglesMember(Front(ms), m);
      assert m in ms <==> m in Front(ms) || m == Last(ms);
    }
  }

  lemma GroupedSum(ps: seq<Part>, qs: seq<Part>, ms: seq<Metric>, groups: map<string, seq<Metric>>, keys: seq<string>)
    requires |ps| == |Singles(ms)| && |qs| == |keys|
    requires GroupsByValue(groups, ms) && NoDup(keys) && forall v :: v in groups <==> v in keys
    requires forall i :: 0 <= i < |ps| ==> ps[i].members == [Singles(ms)[i]]
    requires forall i :: 0 <= i < |qs| ==> keys[i] in groups && qs[i].members == groups[keys[i]]
    ensures MembersSum(ps + qs) == multiset(ms)
  {
    SinglesSum(ps, Singles(ms));
    KeysSum(qs, ms, keys);
    MembersConcat(ps, qs);
    forall m | m in ms && m.partitionable
      ensures m.value in keys
    {
      ByValueMember(ms, m.value, m);
    }
    SplitMembers(ms, keys);
  }

  /** One partition per non-partitionable metric and per value group the metrics. */
  lemma GroupedFrom(ps: seq<Part>, qs: seq<Part>, ms: seq<Metric>, groups: map<string, seq<Metric>>, keys: seq<string>)
    requires |ps| == |Singles(ms)| && |qs| == |keys|
    requires GroupsByValue(groups, ms) && NoDup(keys) && forall v :: v in groups <==> v in keys
    requires forall i :: 0 <= i < |ps| ==> OfMembers(ps[i]) && ps[i].members == [Singles(ms)[i]]
    requires forall i :: 0 <= i < |qs| ==> OfMembers(qs[i]) && keys[i] in groups && qs[i].members == groups[keys[i]]
    ensures Grouped(ps + qs, ms)
  {
    GroupedSum(ps, qs, ms, groups, keys);
    forall i | 0 <= i < |ps|
      ensures GroupOf(ps[i], ms)
    {
      SinglesMember(ms, Singles(ms)[i]);
    }
    forall i | 0 <= i < |qs|
      ensures GroupOf(qs[i], ms)
    {
      ByValueMember(ms, keys[i], qs[i].members[0]);
    }
  }

  ghost predicate OfMembers(p: Part) {
    && p.members != []
    && p.value == p.members[0].value
    && p.weight == GroupWeight(p.members)
    && p.peers.Keys == PeersOf(p.members)
  }

  /** The order of partitions: weight, then aggregated weight, descending; then value, ascending. */
  ghost predicate Before(p: Part, q: Part) {
    if p.weight != q.weight then q.weight < p.weight
    else if p.aggregate != q.aggregate then q.aggregate < p.aggregate
    else StrLess(p.value, q.value)
  }

  lemma BeforeTransitive(p: Part, q: Part, r: Part)
    requires !Before(q, p) && !Before(r, q)
    ensures !Before(r, p)
  {
    StrLessTotal(p.value, q.value);
    StrLessTotal(q.value, r.value);
    StrLessTotal(p.value, r.value);
    if StrLess(p.value, q.value) && StrLess(q.value, r.value) {
      StrLessTransitive(p.value, q.value, r.value);
    }
  }

  lemma BeforeAsymmetric(p: Part, q: Part)
    requires Before(p, q)
    ensures !Before(q, p)
  {
    StrLessTotal(p.value, q.value);
  }

  ghost predicate Sorted(ps: seq<Part>) {
    forall i, j :: 0 <= i < j < |ps| ==> !Before(ps[j], ps[i])
  }

  /** Putting `p` before everything it precedes and after all the rest keeps the order. */
  lemma SortedInsert(ps: seq<Part>, i: int, p: Part)
    requires Sorted(ps) && 0 <= i <= |ps|
    requires forall k :: 0 <= k < i ==> !Before(p, ps[k])
    requires i < |ps| ==> Before(p, ps[i])
    ensures Sorted(ps[..i] + [p] + ps[i..])
  {
    var r := ps[..i] + [p] + ps[i..];
    forall a, b | 0 <= a < b < |r|
      ensures !Before(r[b], r[a])
    {
      if a == i {
        BeforeAsymmetric(p, ps[i]);
        if b > i + 1 {
          BeforeTransitive(p, ps[i], ps[b - 1]);
        }
      }
    }
  }

  lemma {:induction false} MembersPermutation(a: seq<Part>, b: seq<Part>)
    requires multiset(a) == multiset(b)
    ensures MembersSum(a) == MembersSum(b)
  {
    if a == [] {
      assert b == [] by {
        assert |multiset(b)| == 0;
      }
    } else {
      var n := |a| - 1;
      assert a[n] in multiset(b);
      var i :| 0 <= i < |b| && b[i] == a[n];
      WithoutOne(a, n);
      WithoutOne(b, i);
      SumCancel(multiset(Without(a, n)), multiset{a[n]}, multiset(Without(b, i)));
      MembersPermutation(Without(a, n), Without(b, i));
      MembersWithout(a, n);
      MembersWithout(b, i);
    }
  }

  lemma MembersWithout(ps: seq<Part>, i: int)
    requires 0 <= i < |ps|
    ensures MembersSum(ps) == MembersSum(Without(ps, i)) + multiset(ps[i].members)
  {
    var l, m, r := ps[..i], [ps[i]], ps[i + 1..];
    SplitThree(ps, i);
    MembersConcat(l, m + r);
    MembersConcat(m, r);
    MembersConcat(l, r);
    assert Front(m) == [];
    Rotate3(MembersSum(l), multiset(ps[i].members), MembersSum(r));
  }

  /** Being grouped does not depend on order, sub-partitions or aggregates. */
  lemma GroupedPermutation(a: seq<Part>, b: seq<Part>, ms: seq<Metric>)
    requires Grouped(a, ms) && multiset(a) == multiset(b)
    ensures Grouped(b, ms)
  {
    MembersPermutation(a, b);
    forall i | 0 <= i < |b|
      ensures GroupOf(b[i], ms)
    {
      assert b[i] in multiset(a);
    }
  }

  ghost predicate SameGroup(p: Part, q: Part) {
    q == p.(sub := q.sub, aggregate := q.aggregate)
  }

  lemma {:induction false} SameGroups(a: seq<Part>, b: seq<Part>)
    requires |a| == |b| && forall i :: 0 <= i < |a| ==> SameGroup(a[i], b[i])
    ensures MembersSum(a) == MembersSum(b)
    ensures forall ms :: Grouped(a, ms) ==> Grouped(b, ms)
  {
    if a != [] {
      SameGroups(Front(a), Front(b));
    }
    forall ms | Grouped(a, ms)
      ensures Grouped(b, ms)
    {
      forall i | 0 <= i < |b|
        ensures GroupOf(b[i], ms)
      {
        assert GroupOf(a[i], ms) && SameGroup(a[i], b[i]);
      }
    }
  }

  function FilterPeers(ms: seq<Metric>, keep: set<PeerID>): seq<Metric> {
    if ms == [] then []
    else FilterPeers(Front(ms), keep) + if Last(ms).peer in keep then [Last(ms)] else []
  }

  /** The metrics of a set that are not called `root` and belong to the peers in `keep`. */
  ghost function Restrict(ms: MetricsSet, root: string, keep: set<PeerID>): MetricsSet {
    map k | k in ms && k != root && FilterPeers(ms[k], keep) != [] :: FilterPeers(ms[k], keep)
  }

  /** A weight and the aggregated weights of partitions, added up one by one. */
  ghost function AddAggregates(weight: Int64, ps: seq<Part>): Int64 {
    if ps == [] then weight else Add64(AddAggregates(weight, Front(ps)), Last(ps).aggregate)
  }

  /** `t` partitions the metrics `ms` by `names`, one level per name. */
  ghost predicate Built(t: Tree, ms: MetricsSet, names: seq<string>)
    requires names != []
    decreases names, 1
  {
    && t.name == names[0]
    && t.cursor == 0
    && Grouped(t.parts, Lookup(ms, names[0]))
    && Sorted(t.parts)
    && forall i :: 0 <= i < |t.parts| ==> PartBuilt(t.parts[i], ms, names)
  }

  ghost predicate PartBuilt(p: Part, ms: MetricsSet, names: seq<string>)
    requires names != []
    decreases names, 0
  {
    && (forall x :: x in p.peers ==> !p.peers[x])
    && if |names| == 1 then
         p.sub.None? && p.aggregate == p.weight
       else
         && p.sub.Some?
         && Built(p.sub.value, Restrict(ms, names[0], p.peers.Keys), names[1..])
         && p.aggregate == AddAggregates(p.weight, p.sub.value.parts)
  }

  lemma BuiltFrom(a: seq<Part>, b: seq<Part>, ms: MetricsSet, names: seq<string>)
    requires names != [] && Grouped(a, Lookup(ms, names[0])) && multiset(a) == multiset(b) && Sorted(b)
    requires forall i :: 0 <= i < |a| ==> PartBuilt(a[i], ms, names)
    ensures Built(Tree(names[0], 0, b), ms, names)
  {
    GroupedPermutation(a, b, Lookup(ms, names[0]));
    forall i | 0 <= i < |b|
      ensures PartBuilt(b[i], ms, names)
    {
      assert b[i] in multiset(a);
    }
  }

  lemma {:induction false} BuiltFresh(t: Tree, ms: MetricsSet, names: seq<string>)
    requires names != [] && Built(t, ms, names)
    ensures Fresh(t)
    decreases names
  {
    forall i | 0 <= i < |t.parts|
      ensures PartFresh(t.parts[i])
    {
      var p := t.parts[i];
      assert PartBuilt(p, ms, names);
      if |names| > 1 {
        BuiltFresh(p.sub.value, Restrict(ms, names[0], p.peers.Keys), names[1..]);
      }
    }
  }

  /** Heavier partitions come first, then those with the larger aggregate, then by value; each metric is in one. */
  lemma LevelOrder(t: Tree, ms: MetricsSet, names: seq<string>, i: int, j: int)
    requires names != [] && Built(t, ms, names) && 0 <= i < j < |t.parts|
    ensures var p, q := t.parts[i], t.parts[j];
      && p.weight >= q.weight
      && (p.weight == q.weight ==> p.aggregate >= q.aggregate)
      && (p.weight == q.weight && p.aggregate == q.aggregate ==>
            p.value == q.value || exists k: nat :: LessAt(p.value, q.value, k))
    ensures MembersSum(t.parts) == multiset(Lookup(ms, names[0]))
  {
    assert !Before(t.parts[j], t.parts[i]);
    StrLessTotal(t.parts[i].value, t.parts[j].value);
    LessIffFirstDiffers(t.parts[i].value, t.parts[j].value);
  }

  // ----- which peers are at the leaves -----

  /** `x` has a metric for every name. */
  ghost predicate HasAll(ms: MetricsSet, names: seq<string>, x: PeerID) {
    forall k :: 0 <= k < |names| ==> x in PeersOf(Lookup(ms, names[k]))
  }

  /** At most one metric per peer and name. */
  ghost predicate Unique(ms: MetricsSet) {
    forall k :: k in ms ==> UniquePeers(ms[k])
  }

  ghost predicate UniquePeers(ms: seq<Metric>) {
    forall i, j :: 0 <= i < j < |ms| ==> ms[i].peer != ms[j].peer
  }

  lemma {:induction false} FilterPeersMember(ms: seq<Metric>, keep: set<PeerID>, m: Metric)
    ensures m in FilterPeers(ms, keep) <==> m in ms && m.peer in keep
  {
    if ms != [] {
      FilterPeersMember(Front(ms), keep, m);
      assert m in ms <==> m in Front(ms) || m == Last(ms);
    }
  }

  lemma FilterPeersOf(ms: seq<Metric>, keep: set<PeerID>)
    ensures PeersOf(FilterPeers(ms, keep)) == PeersOf(ms) * keep
  {
    forall m
      ensures m in FilterPeers(ms, keep) <==> m in ms && m.peer in keep
    {
      FilterPeersMember(ms, keep, m);
    }
  }

  lemma {:induction false} FilterPeersUnique(ms: seq<Metric>, keep: set<PeerID>)
    requires UniquePeers(ms)
    ensures UniquePeers(FilterPeers(ms, keep))
  {
    if ms != [] {
      FilterPeersUnique(Front(ms), keep);
      forall m | m in FilterPeers(Front(ms), keep)
        ensures m.peer != Last(ms).peer
      {
        FilterPeersMember(Front(ms), keep, m);
      }
    }
  }

  lemma RestrictLookup(ms: MetricsSet, root: string, keep: set<PeerID>, k: string)
    requires k != root
    ensures Lookup(Restrict(ms, root, keep), k) == FilterPeers(Lookup(ms, k), keep)
  {
  }

  lemma RestrictHasAll(ms: MetricsSet, names: seq<string>, keep: set<PeerID>, x: PeerID)
    requires |names| > 1 && NoDup(names)
    ensures HasAll(Restrict(ms, names[0], keep), names[1..], x) <==> x in keep && HasAll(ms, names[1..], x)
  {
    forall k | 0 <= k < |names[1..]|
      ensures x in PeersOf(Lookup(Restrict(ms, names[0], keep), names[1..][k])) <==>
        x in PeersOf(Lookup(ms, names[1..][k])) && x in keep
    {
      RestrictLookup(ms, names[0], keep, names[1..][k]);
      FilterPeersOf(Lookup(ms, names[1..][k]), keep);
    }
    if HasAll(Restrict(ms, names[0], keep), names[1..], x) {
      assert x in PeersOf(Lookup(Restrict(ms, names[0], keep), names[1..][0]));
    }
  }

  lemma RestrictUnique(ms: MetricsSet, root: string, keep: set<PeerID>)
    requires Unique(ms)
    ensures Unique(Restrict(ms, root, keep))
  {
    forall k | k in Restrict(ms, root, keep)
      ensures UniquePeers(Restrict(ms, root, keep)[k])
    {
      FilterPeersUnique(ms[k], keep);
    }
  }

  lemma {:induction false} MembersWitness(ps: seq<Part>, m: Metric) returns (k: int)
    requires m in MembersSum(ps)
    ensures 0 <= k < |ps| && m in ps[k].members
  {
    if m in Last(ps).members {
      k := |ps| - 1;
    } else {
      k := MembersWitness(Front(ps), m);
    }
  }

  lemma {:induction false} MembersPair(ps: seq<Part>, i: int, j: int)
    requires 0 <= i < j < |ps|
    ensures multiset(ps[i].members) + multiset(ps[j].members) <= MembersSum(ps)
    decreases ps
  {
    if j == |ps| - 1 {
      MembersOne(Front(ps), i);
    } else {
      MembersPair(Front(ps), i, j);
    }
  }

  lemma {:induction false} MembersOne(ps: seq<Part>, i: int)
    requires 0 <= i < |ps|
    ensures multiset(ps[i].members) <= MembersSum(ps)
  {
    if i < |ps| - 1 {
      MembersOne(Front(ps), i);
    }
  }

  /** A peer has a metric at this level exactly when some partition holds the peer. */
  lemma GroupedPeers(ps: seq<Part>, ms: seq<Metric>, x: PeerID)
    requires Grouped(ps, ms)
    ensures x in PeersOf(ms) <==> exists i :: 0 <= i < |ps| && x in ps[i].peers
  {
    if x in PeersOf(ms) {
      var m :| m in ms && m.peer == x;
      assert m in multiset(ms);
      var k := MembersWitness(ps, m);
      assert x in ps[k].peers;
    }
    forall i | 0 <= i < |ps| && x in ps[i].peers
      ensures x in PeersOf(ms)
    {
      var m :| m in ps[i].members && m.peer == x;
      MembersOne(ps, i);
      assert m in multiset(ps[i].members);
      assert m in multiset(ms);
    }
  }

  lemma UniqueMultiset(ms: seq<Metric>, a: Metric, b: Metric)
    requires UniquePeers(ms) && multiset{a, b} <= multiset(ms)
    ensures a.peer != b.peer
  {
    assert forall i, j :: 0 <= i < j < |ms| ==> ms[i].peer != ms[j].peer;
    assert NoDup(ms);
    NoDupMultiset(ms);
    assert multiset{a, b}[a] <= multiset(ms)[a] && multiset{a, b}[b] <= multiset(ms)[b];
    assert a in ms && b in ms;
  }

  /** With one metric per peer, no peer is in two partitions. */
  lemma GroupedDisjoint(ps: seq<Part>, ms: seq<Metric>, i: int, j: int)
    requires Grouped(ps, ms) && UniquePeers(ms) && 0 <= i < j < |ps|
    ensures ps[i].peers.Keys !! ps[j].peers.Keys
  {
    forall x | x in ps[i].peers && x in ps[j].peers
      ensures false
    {
      var a :| a in ps[i].members && a.peer == x;
      var b :| b in ps[j].members && b.peer == x;
      MembersPair(ps, i, j);
      assert multiset{a} <= multiset(ps[i].members) && multiset{b} <= multiset(ps[j].members);
      UniqueMultiset(ms, a, b);
    }
  }

  /** The leaf peers below a partition are its own peers that have all the remaining metrics. */
  lemma {:induction false} PartLeaves(p: Part, ms: MetricsSet, names: seq<string>, x: PeerID)
    requires names != [] && NoDup(names) && PartBuilt(p, ms, names)
    ensures x in PartPeers(p, false) <==> x in p.peers && HasAll(ms, names[1..], x)
    decreases names, 0
  {
    if |names| > 1 {
      var ms' := Restrict(ms, names[0], p.peers.Keys);
      LeavesExactly(p.sub.value, ms', names[1..], x);
      RestrictHasAll(ms, names, p.peers.Keys, x);
    }
  }

  /** The leaves hold exactly the peers that have a metric for every name. */
  lemma {:induction false} LeavesExactly(t: Tree, ms: MetricsSet, names: seq<string>, x: PeerID)
    requires names != [] && NoDup(names) && Built(t, ms, names)
    ensures x in Peers(t, false) <==> HasAll(ms, names, x)
    decreases names, 1
  {
    GroupedPeers(t.parts, Lookup(ms, names[0]), x);
    forall i | 0 <= i < |t.parts|
      ensures x in PartPeers(t.parts[i], false) <==> x in t.parts[i].peers && HasAll(ms, names[1..], x)
    {
      PartLeaves(t.parts[i], ms, names, x);
    }
    HasAllSplit(ms, names, x);
    if x in Peers(t, false) {
      var k := PeersWitness(t.parts, x, false);
    }
    if HasAll(ms, names, x) {
      var i :| 0 <= i < |t.parts| && x in t.parts[i].peers;
      PeersMember(t.parts, i, false);
    }
  }

  lemma HasAllSplit(ms: MetricsSet, names: seq<string>, x: PeerID)
    requires names != []
    ensures HasAll(ms, names, x) <==> x in PeersOf(Lookup(ms, names[0])) && HasAll(ms, names[1..], x)
  {
    if x in PeersOf(Lookup(ms, names[0])) && HasAll(ms, names[1..], x) {
      forall k | 0 <= k < |names|
        ensures x in PeersOf(Lookup(ms, names[k]))
      {
        assert k > 0 ==> names[k] == names[1..][k - 1];
      }
    }
    if HasAll(ms, names, x) {
      forall k | 0 <= k < |names[1..]|
        ensures x in PeersOf(Lookup(ms, names[1..][k]))
      {
        assert names[1..][k] == names[k + 1];
      }
    }
  }

  lemma {:induction false} PartOnce(p: Part, ms: MetricsSet, names: seq<string>)
    requires names != [] && NoDup(names) && PartBuilt(p, ms, names) && Unique(ms)
    ensures AtMostOnce(PartPeers(p, false))
    ensures forall x :: x in PartPeers(p, false) ==> x in p.peers
    decreases names, 0
  {
    if |names| > 1 {
      RestrictUnique(ms, names[0], p.peers.Keys);
      LeavesOnce(p.sub.value, Restrict(ms, names[0], p.peers.Keys), names[1..]);
    }
    forall x
      ensures x in PartPeers(p, false) ==> x in p.peers
    {
      PartLeaves(p, ms, names, x);
    }
  }

  ghost predicate AtMostOnce(ps: multiset<PeerID>) {
    forall x :: ps[x] <= 1
  }

  /** With one metric per peer and name, every peer is at one leaf at most. */
  lemma {:induction false} LeavesOnce(t: Tree, ms: MetricsSet, names: seq<string>)
    requires names != [] && NoDup(names) && Built(t, ms, names) && Unique(ms)
    ensures DisjointParts(t)
    ensures AtMostOnce(Peers(t, false))
    decreases names, 1
  {
    forall i | 0 <= i < |t.parts|
      ensures AtMostOnce(PartPeers(t.parts[i], false))
      ensures forall x :: x in PartPeers(t.parts[i], false) ==> x in t.parts[i].peers
    {
      PartOnce(t.parts[i], ms, names);
    }
    forall i, j | 0 <= i < j < |t.parts|
      ensures PartPeers(t.parts[i], false) !! PartPeers(t.parts[j], false)
    {
      GroupedDisjoint(t.parts, Lookup(ms, names[0]), i, j);
    }
    SumOnce(t.parts);
  }

  /** And the same holds at every node below. */
  lemma {:induction false} LeavesApart(t: Tree, ms: MetricsSet, names: seq<string>)
    requires names != [] && NoDup(names) && Built(t, ms, names) && Unique(ms)
    ensures DeepDisjoint(t)
    decreases names
  {
    LeavesOnce(t, ms, names);
    forall i | 0 <= i < |t.parts|
      ensures PartDisjoint(t.parts[i])
    {
      var p := t.parts[i];
      assert PartBuilt(p, ms, names);
      if |names| > 1 {
        RestrictUnique(ms, names[0], p.peers.Keys);
        LeavesApart(p.sub.value, Restrict(ms, names[0], p.peers.Keys), names[1..]);
      }
    }
  }

  lemma {:induction false} SumOnce(ps: seq<Part>)
    requires forall i :: 0 <= i < |ps| ==> AtMostOnce(PartPeers(ps[i], false))
    requires forall i, j :: 0 <= i < j < |ps| ==> PartPeers(ps[i], false) !! PartPeers(ps[j], false)
    ensures AtMostOnce(SeqPeers(ps, false))
  {
    if ps != [] {
      SumOnce(ps[1..]);
      forall x
        ensures SeqPeers(ps, false)[x] <= 1
      {
        if x in SeqPeers(ps[1..], false) {
          var k := PeersWitness(ps[1..], x, false);
          assert PartPeers(ps[0], false) !! PartPeers(ps[k + 1], false);
        }
      }
    }
  }

  // ----- what the aggregated weights are -----

  /** Every peer with a metric has one for each name, as the allocator expects of its caller. */
  ghost predicate Complete(ms: MetricsSet, names: seq<string>) {
    forall k :: 0 <= k < |names| ==> PeersOf(Lookup(ms, names[k])) == PeersOf(Lookup(ms, names[0]))
  }

  ghost function PeerWeight(ms: seq<Metric>, x: PeerID): int {
    if ms == [] then 0 else PeerWeight(Front(ms), x) + if Last(ms).peer == x then Last(ms).weight else 0
  }

  /** The weights of peer `x` over all `names`. */
  ghost function Total(ms: MetricsSet, names: seq<string>, x: PeerID): int {
    if names == [] then 0 else PeerWeight(Lookup(ms, names[0]), x) + Total(ms, names[1..], x)
  }

  /** The weights over all `names` of the peers that the metrics `of` belong to. */
  ghost function SumTotals(of: seq<Metric>, ms: MetricsSet, names: seq<string>): int {
    if of == [] then 0 else SumTotals(Front(of), ms, names) + Total(ms, names, Last(of).peer)
  }

  ghost function AllMembers(ps: seq<Part>): seq<Metric> {
    if ps == [] then [] else AllMembers(Front(ps)) + Last(ps).members
  }

  lemma {:induction false} FlatMembers(ps: seq<Part>)
    ensures multiset(AllMembers(ps)) == MembersSum(ps)
  {
    if ps != [] {
      FlatMembers(Front(ps));
    }
  }

  lemma {:induction false} SumTotalsConcat(a: seq<Metric>, b: seq<Metric>, ms: MetricsSet, names: seq<string>)
    ensures SumTotals(a + b, ms, names) == SumTotals(a, ms, names) + SumTotals(b, ms, names)
  {
    if b == [] {
      assert a + b == a;
    } else {
      assert Front(a + b) == a + Front(b) && Last(a + b) == Last(b);
      SumTotalsConcat(a, Front(b), ms, names);
    }
  }

  lemma SubUnique(a: seq<Metric>, ms: seq<Metric>)
    requires UniquePeers(ms) && multiset(a) <= multiset(ms)
    ensures UniquePeers(a)
  {
    forall i, j | 0 <= i < j < |a|
      ensures a[i].peer != a[j].peer
    {
      assert a == a[..i] + [a[i]] + a[i + 1..j] + [a[j]] + a[j + 1..];
      assert multiset{a[i], a[j]} <= multiset(a);
      UniqueMultiset(ms, a[i], a[j]);
    }
  }

  lemma NoPeers(b: seq<Metric>)
    ensures b != [] ==> PeersOf(b) != {}
  {
    if b != [] {
      assert b[0] in b && b[0].peer in PeersOf(b);
    }
  }

  /** The sum depends only on which peers there are. */
  lemma {:induction false} SameSum(a: seq<Metric>, b: seq<Metric>, ms: MetricsSet, names: seq<string>)
    requires UniquePeers(a) && UniquePeers(b) && PeersOf(a) == PeersOf(b)
    ensures SumTotals(a, ms, names) == SumTotals(b, ms, names)
  {
    if a == [] {
      NoPeers(b);
    } else {
      var x := Last(a).peer;
      assert Last(a) in a;
      assert x in PeersOf(b);
      var m :| m in b && m.peer == x;
      var i :| 0 <= i < |b| && b[i] == m;
      var b' := b[..i] + b[i + 1..];
      SkipOne(a, |a| - 1);
      SkipOne(b, i);
      assert Front(a) == a[..|a| - 1] + a[|a| - 1 + 1..];
      SameSum(Front(a), b', ms, names);
      SumTotalsSkip(b, i, ms, names);
    }
  }

  lemma SumTotalsSkip(b: seq<Metric>, i: int, ms: MetricsSet, names: seq<string>)
    requires 0 <= i < |b|
    ensures SumTotals(b, ms, names) == SumTotals(b[..i] + b[i + 1..], ms, names) + Total(ms, names, b[i].peer)
  {
    var l, m, r := b[..i], [b[i]], b[i + 1..];
    assert b == l + (m + r);
    SumTotalsConcat(l, m + r, ms, names);
    SumTotalsConcat(m, r, ms, names);
    SumTotalsConcat(l, r, ms, names);
    assert Front(m) == [];
  }

  lemma SkipOne(b: seq<Metric>, i: int)
    requires UniquePeers(b) && 0 <= i < |b|
    ensures UniquePeers(b[..i] + b[i + 1..])
    ensures PeersOf(b[..i] + b[i + 1..]) == PeersOf(b) - {b[i].peer}
  {
    var b' := b[..i] + b[i + 1..];
    assert forall j :: 0 <= j < |b'| ==> b'[j] == if j < i then b[j] else b[j + 1];
    forall x | x in PeersOf(b) - {b[i].peer}
      ensures x in PeersOf(b')
    {
      var j :| 0 <= j < |b| && b[j].peer == x;
      assert b[j] == if j < i then b'[j] else b'[j - 1];
    }
  }

  lemma {:induction false} PeerWeightOne(ms: seq<Metric>, m: Metric)
    requires UniquePeers(ms) && m in ms
    ensures PeerWeight(ms, m.peer) == m.weight
  {
    if m == Last(ms) {
      PeerWeightNone(Front(ms), m.peer);
    } else {
      PeerWeightOne(Front(ms), m);
    }
  }

  lemma {:induction false} PeerWeightNone(ms: seq<Metric>, x: PeerID)
    requires forall i :: 0 <= i < |ms| ==> ms[i].peer != x
    ensures PeerWeight(ms, x) == 0
  {
    if ms != [] {
      PeerWeightNone(Front(ms), x);
    }
  }

  lemma {:induction false} FilterWeight(ms: seq<Metric>, keep: set<PeerID>, x: PeerID)
    requires x in keep
    ensures PeerWeight(FilterPeers(ms, keep), x) == PeerWeight(ms, x)
  {
    if ms != [] {
      FilterWeight(Front(ms), keep, x);
      var f := FilterPeers(Front(ms), keep);
      assert Front(f + [Last(ms)]) == f && f + [] == f;
    }
  }

  lemma {:induction false} RestrictTotal(ms: MetricsSet, root: string, keep: set<PeerID>, names: seq<string>, x: PeerID)
    requires x in keep && root !in names
    ensures Total(Restrict(ms, root, keep), names, x) == Total(ms, names, x)
  {
    if names != [] {
      RestrictLookup(ms, root, keep, names[0]);
      FilterWeight(Lookup(ms, names[0]), keep, x);
      RestrictTotal(ms, root, keep, names[1..], x);
    }
  }

  lemma {:induction false} RestrictSum(
    of: seq<Metric>, ms: MetricsSet, root: string, keep: set<PeerID>, names: seq<string>)
    requires root !in names && forall i :: 0 <= i < |of| ==> of[i].peer in keep
    ensures SumTotals(of, Restrict(ms, root, keep), names) == SumTotals(of, ms, names)
  {
    if of != [] {
      RestrictSum(Front(of), ms, root, keep, names);
      RestrictTotal(ms, root, keep, names, Last(of).peer);
    }
  }

  lemma {:induction false} OwnWeights(of: seq<Metric>, ms: MetricsSet, names: seq<string>)
    requires names != [] && UniquePeers(Lookup(ms, names[0]))
    requires forall i :: 0 <= i < |of| ==> of[i] in Lookup(ms, names[0])
    ensures SumTotals(of, ms, names) == SumWeights(of) + SumTotals(of, ms, names[1..])
  {
    if of != [] {
      OwnWeights(Front(of), ms, names);
      PeerWeightOne(Lookup(ms, names[0]), Last(of));
    }
  }

  /** At this node and below, a partition's aggregate is the total weight of its peers from here on. */
  ghost predicate AggregatesTotal(t: Tree, ms: MetricsSet, names: seq<string>)
    requires names != []
    decreases names, 1
  {
    forall i :: 0 <= i < |t.parts| ==> PartAggregates(t.parts[i], ms, names)
  }

  ghost predicate PartAggregates(p: Part, ms: MetricsSet, names: seq<string>)
    requires names != []
    decreases names, 0
  {
    && p.aggregate == Wrap64(SumTotals(p.members, ms, names))
    && (|names| > 1 ==> p.sub.Some? && AggregatesTotal(p.sub.value, Restrict(ms, names[0], p.peers.Keys), names[1..]))
  }

  lemma {:induction false} GroupWeightIs(ms: seq<Metric>)
    ensures GroupWeight(ms) == Wrap64(SumWeights(ms))
  {
    if ms != [] {
      GroupWeightIs(Front(ms));
      WrapSum(SumWeights(Front(ms)), Last(ms).weight);
      WrapExact(Last(ms).weight);
    }
  }

  /** Adding up aggregates that are totals gives the total, wherever the sum wraps around. */
  lemma {:induction false} AddAggregatesIs(
    weight: Int64, w: int, ps: seq<Part>, ms: MetricsSet, names: seq<string>, total: int)
    requires weight == Wrap64(w) && total == w + SumTotals(AllMembers(ps), ms, names)
    requires forall i :: 0 <= i < |ps| ==> ps[i].aggregate == Wrap64(SumTotals(ps[i].members, ms, names))
    ensures AddAggregates(weight, ps) == Wrap64(total)
  {
    if ps == [] {
      assert total == w;
    } else {
      var first, last := w + SumTotals(AllMembers(Front(ps)), ms, names), SumTotals(Last(ps).members, ms, names);
      AddAggregatesIs(weight, w, Front(ps), ms, names, first);
      SumTotalsConcat(AllMembers(Front(ps)), Last(ps).members, ms, names);
      AddWrapped(AddAggregates(weight, Front(ps)), first, Last(ps).aggregate, last, total);
    }
  }

  lemma AddWrapped(a: Int64, x: int, b: Int64, y: int, z: int)
    requires a == Wrap64(x) && b == Wrap64(y) && z == x + y
    ensures Add64(a, b) == Wrap64(z)
  {
    WrapSum(x, y);
  }

  lemma RestrictComplete(ms: MetricsSet, names: seq<string>, keep: set<PeerID>)
    requires |names| > 1 && NoDup(names) && Complete(ms, names)
    ensures Complete(Restrict(ms, names[0], keep), names[1..])
    ensures PeersOf(Lookup(Restrict(ms, names[0], keep), names[1])) == PeersOf(Lookup(ms, names[0])) * keep
  {
    forall k | 0 < k < |names|
      ensures PeersOf(Lookup(Restrict(ms, names[0], keep), names[k])) == PeersOf(Lookup(ms, names[0])) * keep
    {
      RestrictLookup(ms, names[0], keep, names[k]);
      FilterPeersOf(Lookup(ms, names[k]), keep);
    }
  }

  /** The aggregate of `p` is its own weight and what its members weigh from the next name on. */
  lemma SubSum(p: Part, ms: MetricsSet, names: seq<string>, total: int)
    requires |names| > 1 && NoDup(names) && Unique(ms) && Complete(ms, names)
    requires PartBuilt(p, ms, names) && UniquePeers(p.members) && OfMembers(p)
    requires p.peers.Keys <= PeersOf(Lookup(ms, names[0]))
    requires AggregatesTotal(p.sub.value, Restrict(ms, names[0], p.peers.Keys), names[1..])
    requires total == SumWeights(p.members) + SumTotals(p.members, ms, names[1..])
    ensures p.aggregate == Wrap64(total)
  {
    GroupWeightIs(p.members);
    SubTotals(p, ms, names);
    TotalsAdd(p.weight, SumWeights(p.members), p.sub.value, Restrict(ms, names[0], p.peers.Keys), names[1..], total);
    assert PartBuilt(p, ms, names);
    assert p.aggregate == AddAggregates(p.weight, p.sub.value.parts);
  }

  lemma TotalsAdd(weight: Int64, w: int, t: Tree, ms: MetricsSet, names: seq<string>, total: int)
    requires names != [] && AggregatesTotal(t, ms, names) && weight == Wrap64(w)
    requires w + SumTotals(AllMembers(t.parts), ms, names) == total
    ensures AddAggregates(weight, t.parts) == Wrap64(total)
  {
    assert forall i :: 0 <= i < |t.parts| ==> PartAggregates(t.parts[i], ms, names);
    AddAggregatesIs(weight, w, t.parts, ms, names, total);
  }

  /** The peers in the sub-partitions of `p` weigh as much as the members of `p` from the next name on. */
  lemma SubTotals(p: Part, ms: MetricsSet, names: seq<string>)
    requires |names| > 1 && NoDup(names) && Unique(ms) && Complete(ms, names) && PartBuilt(p, ms, names)
    requires UniquePeers(p.members) && p.peers.Keys == PeersOf(p.members) <= PeersOf(Lookup(ms, names[0]))
    ensures SumTotals(AllMembers(p.sub.value.parts), Restrict(ms, names[0], p.peers.Keys), names[1..]) ==
      SumTotals(p.members, ms, names[1..])
  {
    SubPeers(p, ms, names);
    SameSum(AllMembers(p.sub.value.parts), p.members, Restrict(ms, names[0], p.peers.Keys), names[1..]);
    RestrictSum(p.members, ms, names[0], p.peers.Keys, names[1..]);
  }

  /** The sub-partitions of `p` hold the peers of `p`, each once. */
  lemma SubPeers(p: Part, ms: MetricsSet, names: seq<string>)
    requires |names| > 1 && NoDup(names) && Unique(ms) && Complete(ms, names) && PartBuilt(p, ms, names)
    requires p.peers.Keys == PeersOf(p.members) <= PeersOf(Lookup(ms, names[0]))
    ensures UniquePeers(AllMembers(p.sub.value.parts)) && PeersOf(AllMembers(p.sub.value.parts)) == PeersOf(p.members)
  {
    var keep := p.peers.Keys;
    var ps := p.sub.value.parts;
    var next := Lookup(Restrict(ms, names[0], keep), names[1]);
    FlatMembers(ps);
    RestrictUnique(ms, names[0], keep);
    RestrictComplete(ms, names, keep);
    SubUnique(AllMembers(ps), next);
    SamePeers(AllMembers(ps), next);
  }

  lemma SamePeers(a: seq<Metric>, b: seq<Metric>)
    requires multiset(a) == multiset(b)
    ensures PeersOf(a) == PeersOf(b)
  {
    assert forall m :: m in a <==> m in multiset(a);
    assert forall m :: m in b <==> m in multiset(b);
  }

  lemma {:induction false} PartAggregate(t: Tree, i: int, ms: MetricsSet, names: seq<string>)
    requires names != [] && NoDup(names) && Built(t, ms, names) && Unique(ms) && Complete(ms, names)
    requires 0 <= i < |t.parts|
    ensures PartAggregates(t.parts[i], ms, names)
    decreases names, 0
  {
    var p := t.parts[i];
    PartMembers(t.parts, Lookup(ms, names[0]), i);
    OwnWeights(p.members, ms, names);
    assert PartBuilt(p, ms, names);
    if |names| == 1 {
      NoTotals(p.members, ms);
      GroupWeightIs(p.members);
    } else {
      SubAggregates(p, ms, names);
      SubSum(p, ms, names, SumTotals(p.members, ms, names));
    }
  }

  lemma {:induction false} SubAggregates(p: Part, ms: MetricsSet, names: seq<string>)
    requires |names| > 1 && NoDup(names) && PartBuilt(p, ms, names) && Unique(ms) && Complete(ms, names)
    requires p.peers.Keys <= PeersOf(Lookup(ms, names[0]))
    ensures AggregatesTotal(p.sub.value, Restrict(ms, names[0], p.peers.Keys), names[1..])
    decreases names[1..], 2
  {
    RestrictUnique(ms, names[0], p.peers.Keys);
    RestrictComplete(ms, names, p.peers.Keys);
    AggregateTotals(p.sub.value, Restrict(ms, names[0], p.peers.Keys), names[1..]);
  }

  lemma PartMembers(ps: seq<Part>, ms: seq<Metric>, i: int)
    requires Grouped(ps, ms) && UniquePeers(ms) && 0 <= i < |ps|
    ensures UniquePeers(ps[i].members)
    ensures forall m :: m in ps[i].members ==> m in ms
    ensures ps[i].peers.Keys == PeersOf(ps[i].members) <= PeersOf(ms)
  {
    MembersOne(ps, i);
    SubUnique(ps[i].members, ms);
    assert forall m :: m in ps[i].members ==> m in multiset(ps[i].members) && m in multiset(ms);
  }

  /** The aggregate is the exact total exactly if that fits in 64 bits. */
  lemma ExactAggregateIff(p: Part, ms: MetricsSet, names: seq<string>)
    requires names != [] && PartAggregates(p, ms, names)
    ensures p.aggregate == SumTotals(p.members, ms, names) <==> -TWO63 <= SumTotals(p.members, ms, names) < TWO63
  {
    WrapExact(SumTotals(p.members, ms, names));
  }

  const HEAVY := Metric("disk", "p", "x", TWO63 - 1, true)
  const LIGHT := Metric("disk", "q", "x", 1, true)

  /** Two metrics in one partition whose weights add up to a negative number. */
  lemma OverflowExample(t: Tree)
    requires Built(t, map["disk" := [HEAVY, LIGHT]], ["disk"])
    ensures t.parts != [] && forall i :: 0 <= i < |t.parts| ==>
      t.parts[i].aggregate == -TWO63 && SumWeights(t.parts[i].members) == TWO63
  {
    var ms := [HEAVY, LIGHT];
    assert Lookup(map["disk" := ms], "disk") == ms;
    HeavyGroup();
    assert HEAVY == ms[0] && HEAVY in multiset(ms);
    forall i | 0 <= i < |t.parts|
      ensures t.parts[i].members == ms && t.parts[i].aggregate == t.parts[i].weight == GroupWeight(ms)
    {
      assert PartBuilt(t.parts[i], map["disk" := ms], ["disk"]);
      MembersOne(t.parts, i);
      InHeavyGroup(t.parts[i]);
    }
  }

  lemma InHeavyGroup(p: Part)
    requires GroupOf(p, [HEAVY, LIGHT]) && multiset(p.members) <= multiset([HEAVY, LIGHT])
    ensures p.members == [HEAVY, LIGHT]
  {
    assert p.members[0] in multiset(p.members);
    assert p.members[0] in [HEAVY, LIGHT];
    HeavyGroup();
  }

  lemma HeavyGroup()
    ensures ByValue([HEAVY, LIGHT], "x") == [HEAVY, LIGHT]
    ensures GroupWeight([HEAVY, LIGHT]) == -TWO63 && SumWeights([HEAVY, LIGHT]) == TWO63
  {
    var ms := [HEAVY, LIGHT];
    assert Front(ms) == [HEAVY] && Front([HEAVY]) == [];
    assert ByValue([], "x") == [] && ByValue([HEAVY], "x") == [HEAVY];
    assert GroupWeight([]) == 0 && GroupWeight([HEAVY]) == TWO63 - 1;
    assert SumWeights([]) == 0 && SumWeights([HEAVY]) == TWO63 - 1;
  }

  /** Every partition at every depth carries the `int64` total of its peers' weights from its own metric on. */
  lemma {:induction false} AggregateTotals(t: Tree, ms: MetricsSet, names: seq<string>)
    requires names != [] && NoDup(names) && Built(t, ms, names) && Unique(ms) && Complete(ms, names)
    ensures AggregatesTotal(t, ms, names)
    decreases names, 1
  {
    forall i | 0 <= i < |t.parts|
      ensures PartAggregates(t.parts[i], ms, names)
    {
      PartAggregate(t, i, ms, names);
    }
  }

  lemma {:induction false} NoTotals(of: seq<Metric>, ms: MetricsSet)
    ensures SumTotals(of, ms, []) == 0
  {
    if of != [] {
      NoTotals(Front(of), ms);
    }
  }
}

/** An example of a fair allocation: two peers out of two regions. */
module Regions {
  import opened Basics
  import opened PartitionTree
  import opened Grouping
  import opened Allocation
  import opened AllocationTheorems

  const A1 := Metric("region", "a1", "A", 1, true)
  const A2 := Metric("region", "a2", "A", 1, true)
  const B1 := Metric("region", "b1", "B", 1, true)
  const REGIONS := Env(["region"], map["region" := [A1, A2, B1]], {}, false, false)
  const NO_LISTS := Lists([], [], [])

  lemma RegionPeers()
    ensures WellFormed(REGIONS) && Lookup(REGIONS.latest, "region") == [A1, A2, B1]
    ensures HealthyPeers(REGIONS, NO_LISTS) == {"a1", "a2", "b1"} && Holders(REGIONS, NO_LISTS) == {}
  {
    var ms := [A1, A2, B1];
    assert A1 == ms[0] && A2 == ms[1] && B1 == ms[2];
    assert PeersOf(ms) == {"a1", "a2", "b1"};
    assert HasAll(REGIONS.latest, REGIONS.names, "a1");
    assert HasAll(REGIONS.latest, REGIONS.names, "a2");
    assert HasAll(REGIONS.latest, REGIONS.names, "b1");
  }

  lemma SomeMember<T>(s: seq<T>)
    ensures s == [] || exists x :: x in s
  {
    if s != [] {
      assert s[0] in s;
    }
  }

  /** The candidates are the three peers with their metrics, and there is nobody else. */
  lemma RegionGroups(c: Classified)
    requires IsClassified(REGIONS, NO_LISTS, c)
    ensures c.current.peers == [] && c.priority.peers == []
    ensures forall m :: m in Lookup(c.candidate.metrics, "region") <==> m in [A1, A2, B1]
    ensures UniquePeers(Lookup(c.candidate.metrics, "region"))
    ensures forall p :: p in c.candidate.peers ==> p in {"a1", "a2", "b1"}
  {
    RegionPeers();
    var g := c.candidate;
    assert forall p :: KindOf(REGIONS, NO_LISTS, p) == Candidate;
    SomeMember(c.current.peers);
    SomeMember(c.priority.peers);
    assert "region" in REGIONS.names;
    GroupElements(REGIONS, NO_LISTS, Candidate, g);
    assert OfKind(REGIONS, NO_LISTS, Candidate) == {"a1", "a2", "b1"};
    assert forall p :: p in g.peers <==> p in Elements(g.peers);
  }

  /** The peers below the partition of a metric are those of the metrics with the same value. */
  lemma PeersBelow(t: Tree, ms: MetricsSet, m: Metric) returns (i: int)
    requires Built(t, ms, ["region"]) && UniquePeers(Lookup(ms, "region")) && m in Lookup(ms, "region")
    requires forall k :: k in Lookup(ms, "region") ==> k.partitionable
    ensures 0 <= i < |t.parts|
    ensures forall k :: k in Lookup(ms, "region") ==> (k.peer in PartPeers(t.parts[i], false) <==> k.value == m.value)
    ensures forall x :: x in PartPeers(t.parts[i], false) ==> x in PeersOf(Lookup(ms, "region"))
  {
    var all := Lookup(ms, "region");
    GroupedPeers(t.parts, all, m.peer);
    i :| 0 <= i < |t.parts| && m.peer in t.parts[i].peers;
    assert PartBuilt(t.parts[i], ms, ["region"]);
    PartMembers(t.parts, all, i);
    GroupPeers(t.parts[i], all, m);
  }

  lemma GroupPeers(p: Part, all: seq<Metric>, m: Metric)
    requires GroupOf(p, all) && UniquePeers(all) && m in all && m.peer in p.peers && p.sub.None?
    requires forall k :: k in all ==> k.partitionable
    requires forall k :: k in p.members ==> k in all
    ensures forall k :: k in all ==> (k.peer in PartPeers(p, false) <==> k.value == m.value)
    ensures forall x :: x in PartPeers(p, false) ==> x in PeersOf(all)
  {
    assert p.members[0] in p.members;
    forall k | k in all
      ensures k.peer in p.peers <==> k.value == p.value
    {
      ByValueMember(all, p.value, k);
      if k.peer in p.peers {
        var q :| q in p.members && q.peer == k.peer;
        ByValueMember(all, p.value, q);
      }
    }
  }

  lemma TwoPicks(p: PeerID, q: PeerID, pool: multiset<PeerID>)
    ensures From([p, q], pool) == Share(p, pool) + Share(q, pool)
  {
    FromSnoc([], p, pool);
    FromSnoc([p], q, pool);
    assert [] + [p] == [p] && [p] + [q] == [p, q];
  }

  /** With two peers in region A and one in B, an allocation of two always takes the one in B. */
  lemma BothRegions(a: seq<PeerID>)
    requires Allocated(REGIONS, NO_LISTS, 2, 2, Ok(a))
    ensures "b1" in a
  {
    RegionPeers();
    var c, first, last, priority, candidates := EvenlyAllocated(REGIONS, NO_LISTS, 2, 2, a);
    RegionGroups(c);
    SomeMember(first);
    assert a == last && |a| == 2 && NoDup(a);
    var i, j := Partitions(candidates, c.candidate.metrics);
    if "b1" !in a {
      NearlyEqual(candidates, a, i, j);
      OnlyRegionA(a, PartPeers(candidates.parts[i], false), PartPeers(candidates.parts[j], false));
    }
  }

  lemma Partitions(t: Tree, ms: MetricsSet) returns (i: int, j: int)
    requires Built(t, ms, ["region"]) && UniquePeers(Lookup(ms, "region"))
    requires forall m :: m in Lookup(ms, "region") <==> m in [A1, A2, B1]
    ensures 0 <= i < |t.parts| && "a1" in PartPeers(t.parts[i], false) && "a2" in PartPeers(t.parts[i], false)
    ensures 0 <= j < |t.parts| && "b1" in PartPeers(t.parts[j], false)
    ensures "a1" !in PartPeers(t.parts[j], false) && "a2" !in PartPeers(t.parts[j], false)
  {
    var all := [A1, A2, B1];
    assert A1 == all[0] && A2 == all[1] && B1 == all[2];
    i := PeersBelow(t, ms, A1);
    j := PeersBelow(t, ms, B1);
  }

  lemma OnlyRegionA(a: seq<PeerID>, x: multiset<PeerID>, y: multiset<PeerID>)
    requires NoDup(a) && |a| == 2 && (forall p :: p in a ==> p in {"a1", "a2"})
    requires "a1" in x && "a2" in x && "b1" in y && "a1" !in y && "a2" !in y
    ensures |From(a, x)| == 2 && From(a, y) == multiset{} && |y| > 0
  {
    assert a[0] in a && a[1] in a;
    PicksIn(a, x, y);
  }

  lemma PicksIn(a: seq<PeerID>, x: multiset<PeerID>, y: multiset<PeerID>)
    requires |a| == 2 && a[0] in x && a[1] in x && a[0] !in y && a[1] !in y
    ensures |From(a, x)| == 2 && From(a, y) == multiset{}
  {
    assert a == [a[0], a[1]];
    TwoPicks(a[0], a[1], x);
    TwoPicks(a[0], a[1], y);
  }
}

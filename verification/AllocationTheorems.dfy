/** What every allocation with positive replication factors guarantees, and what it does not. */
module AllocationTheorems {
  import opened Basics
  import opened PartitionTree
  import opened Grouping
  import opened BalancedBuild
  import opened Allocation

  lemma SubsetSize<T>(a: set<T>, b: set<T>)
    requires a <= b
    ensures |a| <= |b|
  {
    assert b == a + (b - a);
  }

  lemma HoldersAreHealthy(env: Env, l: Lists)
    requires env.names != []
    ensures Holders(env, l) <= HealthyPeers(env, l)
    ensures |Holders(env, l)| <= |HealthyPeers(env, l)|
  {
    SubsetSize(Holders(env, l), HealthyPeers(env, l));
  }

  /** Allocation fails exactly when there are fewer than `min` healthy peers. */
  lemma FailsIffTooFew(env: Env, l: Lists, min: int, max: int, r: Result<seq<PeerID>>)
    requires env.names != [] && 0 < min <= max && Allocated(env, l, min, max, r)
    ensures r.Err? <==> |HealthyPeers(env, l)| < min
  {
    HoldersAreHealthy(env, l);
  }

  /** A successful allocation holds at least `min` healthy peers. */
  lemma EnoughHealthy(env: Env, l: Lists, min: int, max: int, a: seq<PeerID>)
    requires env.names != [] && 0 < min <= max && Allocated(env, l, min, max, Ok(a))
    ensures |Elements(a) * HealthyPeers(env, l)| >= min
  {
    HoldersAreHealthy(env, l);
    var held := |Holders(env, l)|;
    if max < held {
      NoDupMultiset(a);
      assert Elements(a) * HealthyPeers(env, l) == Elements(a);
    } else if min <= held {
      assert Holders(env, l) <= Elements(a);
      SubsetSize(Holders(env, l), Elements(a) * HealthyPeers(env, l));
    } else {
      NoDupMultiset(a);
      assert Elements(a) * HealthyPeers(env, l) == Elements(a);
    }
  }

  /** Duplicate-free, healthy throughout and not longer than `max`. */
  ghost predicate Clean(env: Env, l: Lists, max: int, a: seq<PeerID>)
    requires env.names != []
  {
    NoDup(a) && Elements(a) <= HealthyPeers(env, l) && |a| <= max
  }

  /**
   The result is clean unless the old list is returned, which happens when the number of healthy
   holders is between the factors; then it is clean if and only if the old list was.
   */
  lemma CleanIff(env: Env, l: Lists, min: int, max: int, a: seq<PeerID>)
    requires env.names != [] && 0 < min <= max && Allocated(env, l, min, max, Ok(a))
    ensures Clean(env, l, max, a) <==> (min <= |Holders(env, l)| <= max ==> Clean(env, l, max, l.current))
  {
    HoldersAreHealthy(env, l);
  }

  /** With the holders out of range, the size of the result is exact and no holder is dropped below `max`. */
  lemma ExactSize(env: Env, l: Lists, min: int, max: int, a: seq<PeerID>)
    requires env.names != [] && 0 < min <= max && Allocated(env, l, min, max, Ok(a))
    requires !(min <= |Holders(env, l)| <= max)
    ensures |a| == Min(max, |HealthyPeers(env, l)|)
    ensures |Holders(env, l)| <= max ==> Holders(env, l) <= Elements(a)
    ensures |Holders(env, l)| > max ==> Elements(a) <= Holders(env, l)
  {
    HoldersAreHealthy(env, l);
  }

  lemma SplitTaken(
    current: seq<PeerID>, xs: seq<PeerID>, ys: seq<PeerID>, max: int, a: seq<PeerID>)
    returns (i: int, j: int)
    requires TakesFrom(current, xs, ys, max, a)
    ensures 0 <= i <= |xs| && 0 <= j <= |ys| && a == current + xs[..i] + ys[..j]
  {
    var n := Min(max - |current|, |xs + ys|);
    i := Min(n, |xs|);
    j := n - i;
    assert (xs + ys)[..n] == xs[..i] + ys[..j];
  }

  lemma GroupFairness(env: Env, l: Lists, k: Kind, g: Group, xs: seq<PeerID>, n: int) returns (t: Tree)
    requires WellFormed(env) && GroupIs(env, l, k, g) && BalancedOrder(g.metrics, env.names, xs) && 0 <= n <= |xs|
    ensures Built(t, g.metrics, env.names) && EvenlyDeep(t, xs[..n])
    ensures forall x :: x in xs[..n] ==> x in g.peers
  {
    t := OrderFairness(g.metrics, env.names, xs, n);
    OrderPeers(g.metrics, env.names, xs);
    forall x | x in xs[..n]
      ensures x in g.peers
    {
      assert x in xs && x in PeersOf(Lookup(g.metrics, env.names[0]));
      assert env.names[0] in env.names;
    }
  }

  lemma EvenlyToppedUp(env: Env, l: Lists, c: Classified, max: int, a: seq<PeerID>)
    returns (first: seq<PeerID>, last: seq<PeerID>, priority: Tree, candidates: Tree)
    requires WellFormed(env) && IsClassified(env, l, c) && ToppedUp(env, c, max, a)
    ensures a == c.current.peers + first + last
    ensures (forall x :: x in first ==> x in c.priority.peers) && (forall x :: x in last ==> x in c.candidate.peers)
    ensures Built(priority, c.priority.metrics, env.names) && Built(candidates, c.candidate.metrics, env.names)
    ensures EvenlyDeep(priority, first) && EvenlyDeep(candidates, last)
  {
    var xs, ys :|
      && BalancedOrder(c.priority.metrics, env.names, xs)
      && BalancedOrder(c.candidate.metrics, env.names, ys)
      && TakesFrom(c.current.peers, xs, ys, max, a);
    var i, j := SplitTaken(c.current.peers, xs, ys, max, a);
    first, last := xs[..i], ys[..j];
    priority := GroupFairness(env, l, Priority, c.priority, xs, i);
    candidates := GroupFairness(env, l, Candidate, c.candidate, ys, j);
  }

  /**
   An allocation that adds peers is the holders and then peers that are spread
   evenly: those taken from the priority peers over the partitions of the
   priority peers, and those taken from the candidates over the partitions of
   the candidates.
   */
  lemma EvenlyAllocated(env: Env, l: Lists, min: int, max: int, a: seq<PeerID>)
    returns (c: Classified, first: seq<PeerID>, last: seq<PeerID>, priority: Tree, candidates: Tree)
    requires WellFormed(env) && 0 < min <= max && Allocated(env, l, min, max, Ok(a)) && |Holders(env, l)| < min
    ensures IsClassified(env, l, c) && SplitByLists(env, l, c) && a == c.current.peers + first + last
    ensures LatestOf(env, c.priority.metrics, c.priority.peers) && LatestOf(env, c.candidate.metrics, c.candidate.peers)
    ensures (forall x :: x in first ==> x in c.priority.peers) && (forall x :: x in last ==> x in c.candidate.peers)
    ensures Built(priority, c.priority.metrics, env.names) && Built(candidates, c.candidate.metrics, env.names)
    ensures EvenlyDeep(priority, first) && EvenlyDeep(candidates, last)
  {
    c :| IsClassified(env, l, c) && ToppedUp(env, c, max, a);
    first, last, priority, candidates := EvenlyToppedUp(env, l, c, max, a);
    ClassifiedSplits(env, l, c);
  }

  /**
   An allocation that adds peers has all healthy holders, then peers with priority, then others, and
   has others only if it has every healthy peer with priority.
   */
  lemma PriorityFirst(env: Env, l: Lists, min: int, max: int, a: seq<PeerID>)
    requires env.names != [] && 0 < min <= max && Allocated(env, l, min, max, Ok(a))
    requires |Elements(l.current) * HealthyPeers(env, l)| < min
    ensures forall p :: p in l.current && p in HealthyPeers(env, l) ==> p in a
    ensures (exists p :: p in a && p !in l.current && p !in l.priority) ==>
      forall q :: q in l.priority && q in HealthyPeers(env, l) ==> q in a
    ensures forall i, j :: 0 <= i < |a| && 0 <= j < |a| && a[i] in l.current && a[j] !in l.current ==> i < j
    ensures forall i, j ::
      0 <= i < |a| && 0 <= j < |a| && a[i] in l.priority && a[j] !in l.priority && a[j] !in l.current ==> i < j
  {
    SameHealthy(env, l, l.current);
    assert l.(current := l.current) == l;
    HoldersAreHealthy(env, l);
    FilledInOrder(env, l, max, a);
  }

  lemma FilledInOrder(env: Env, l: Lists, max: int, a: seq<PeerID>)
    requires env.names != [] && FilledUp(env, l, max, a)
    ensures forall p :: p in l.current && p in HealthyPeers(env, l) ==> p in a
    ensures (exists p :: p in a && p !in l.current && p !in l.priority) ==>
      forall q :: q in l.priority && q in HealthyPeers(env, l) ==> q in a
    ensures forall i, j :: 0 <= i < |a| && 0 <= j < |a| && a[i] in l.current && a[j] !in l.current ==> i < j
    ensures forall i, j ::
      0 <= i < |a| && 0 <= j < |a| && a[i] in l.priority && a[j] !in l.priority && a[j] !in l.current ==> i < j
  {
    forall i | 0 <= i < |a|
      ensures KindOf(env, l, a[i]) != Discarded
    {
      assert a[i] in Elements(a);
    }
    forall p | p in l.current && p in HealthyPeers(env, l)
      ensures p in a
    {
      assert p in Holders(env, l);
    }
    if p :| p in a && p !in l.current && p !in l.priority {
      var i :| 0 <= i < |a| && a[i] == p;
      assert KindOf(env, l, p) == Candidate;
      forall q | q in l.priority && q in HealthyPeers(env, l)
        ensures q in a
      {
        assert q in OfKind(env, l, Priority) || q in Holders(env, l);
      }
    }
  }

  /** Health does not depend on who holds the CID. */
  lemma SameHealthy(env: Env, l: Lists, a: seq<PeerID>)
    requires env.names != []
    ensures HealthyPeers(env, l.(current := a)) == HealthyPeers(env, l)
    ensures Holders(env, l.(current := a)) == Elements(a) * HealthyPeers(env, l)
  {
    var l' := l.(current := a);
    forall p
      ensures Healthy(env, l', p) <==> Healthy(env, l, p)
    {
    }
    assert HealthyPeers(env, l') == HealthyPeers(env, l);
  }

  /** Allocating again from the result of an allocation changes nothing. */
  lemma Idempotent(env: Env, l: Lists, min: int, max: int, a: seq<PeerID>, r: Result<seq<PeerID>>)
    requires env.names != [] && (0 < min <= max || min == max == -1)
    requires Allocated(env, l, min, max, Ok(a))
    requires Allocated(env, l.(current := a), min, max, r)
    ensures r == Ok(a)
  {
    if 0 < min {
      SameHealthy(env, l, a);
      EnoughHealthy(env, l, min, max, a);
      var again := Holders(env, l.(current := a));
      HoldersAreHealthy(env, l);
      if min <= |Holders(env, l)| <= max {
        assert a == l.current && l.(current := a) == l;
      } else {
        NoDupMultiset(a);
        assert again <= Elements(a);
        SubsetSize(again, Elements(a));
      }
    }
  }

  /** A black-listed peer stays only if the old list is returned. */
  lemma BlacklistedGone(env: Env, l: Lists, min: int, max: int, a: seq<PeerID>, p: PeerID)
    requires env.names != [] && 0 < min <= max && Allocated(env, l, min, max, Ok(a)) && p in l.blacklist
    ensures p in a <==> p in l.current && min <= |Holders(env, l)| <= max
  {
    HoldersAreHealthy(env, l);
    assert p !in HealthyPeers(env, l);
    if p in a {
      assert p in Elements(a);
    }
  }

  const STALE_ENV := Env(["disk"], map["disk" := [Metric("disk", "good", "1", 1, false)]], {}, false, false)
  const STALE_LISTS := Lists(["good", "bad"], [], ["bad"])

  /** An allocation that keeps a black-listed peer and exceeds the maximum. */
  lemma StaleAllocation(r: Result<seq<PeerID>>)
    requires Allocated(STALE_ENV, STALE_LISTS, 1, 1, r)
    ensures r == Ok(["good", "bad"])
  {
    var m := Metric("disk", "good", "1", 1, false);
    assert Lookup(STALE_ENV.latest, "disk") == [m];
    assert PeersOf([m]) == {"good"} by {
      assert m in [m];
    }
    assert HasAll(STALE_ENV.latest, STALE_ENV.names, "good");
    assert Holders(STALE_ENV, STALE_LISTS) == {"good"};
  }
}

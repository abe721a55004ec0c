/** Who is allocated to a CID: filtering the peers by their metrics and deciding whom to drop, keep or add. */
module Allocation {
  import opened Basics
  import opened Grouping
  import opened BalancedBuild

  /** What an allocation looks at besides its arguments: metric names, the latest metrics and trust. */
  datatype Env = Env(
    names: seq<string>,
    latest: MetricsSet,
    trusted: set<PeerID>,
    onlyTrusted: bool,
    onlyUntrusted: bool)

  /** The allocator has distinct metric names and the monitor gives one metric per peer and name. */
  ghost predicate WellFormed(env: Env) {
    && env.names != [] && NoDup(env.names)
    && forall n :: n in env.names ==> GoodMetrics(Lookup(env.latest, n), n)
  }

  ghost predicate GoodMetrics(ms: seq<Metric>, n: string) {
    UniquePeers(ms) && forall m :: m in ms ==> m.name == n && m.peer != ""
  }

  datatype Kind = Discarded | Current | Priority | Candidate

  datatype Lists = Lists(current: seq<PeerID>, priority: seq<PeerID>, blacklist: seq<PeerID>)

  function KindOf(env: Env, l: Lists, p: PeerID): Kind {
    if p in l.blacklist then Discarded
    else if env.onlyTrusted && p !in env.trusted then Discarded
    else if env.onlyUntrusted && p in env.trusted then Discarded
    else if p in l.current then Current
    else if p in l.priority then Priority
    else Candidate
  }

  /** Not discarded, and with a metric of every name. */
  ghost predicate Healthy(env: Env, l: Lists, p: PeerID) {
    KindOf(env, l, p) != Discarded && HasAll(env.latest, env.names, p)
  }

  // ----- counting metrics -----

  /** How many of the metrics are called `n` and belong to `p`. */
  ghost function Count(ms: seq<Metric>, p: PeerID, n: string): nat {
    if ms == [] then 0 else Count(Front(ms), p, n) + if Last(ms).peer == p && Last(ms).name == n then 1 else 0
  }

  lemma {:induction false} CountConcat(a: seq<Metric>, b: seq<Metric>, p: PeerID, n: string)
    ensures Count(a + b, p, n) == Count(a, p, n) + Count(b, p, n)
  {
    if b == [] {
      assert a + b == a;
    } else {
      assert Front(a + b) == a + Front(b) && Last(a + b) == Last(b);
      CountConcat(a, Front(b), p, n);
    }
  }

  lemma {:induction false} CountPositive(ms: seq<Metric>, p: PeerID, n: string)
    ensures Count(ms, p, n) > 0 <==> exists m :: m in ms && m.peer == p && m.name == n
  {
    if ms != [] {
      CountPositive(Front(ms), p, n);
      assert forall m :: m in ms <==> m in Front(ms) || m == Last(ms);
    }
  }

  lemma {:induction false} UniqueCounts(ms: seq<Metric>, n: string, p: PeerID)
    requires UniquePeers(ms)
    ensures Count(ms, p, n) <= 1
  {
    if ms != [] {
      UniqueCounts(Front(ms), n, p);
      CountPositive(Front(ms), p, n);
    }
  }

  lemma {:induction false} CountsUnique(ms: seq<Metric>, n: string)
    requires forall m :: m in ms ==> m.name == n
    requires forall p :: Count(ms, p, n) <= 1
    ensures UniquePeers(ms)
  {
    if ms != [] {
      var f, l := Front(ms), Last(ms);
      assert forall m :: m in f ==> m in ms;
      assert l in ms && Count(ms, l.peer, n) <= 1;
      forall p
        ensures Count(f, p, n) <= 1
      {
        assert Count(ms, p, n) <= 1;
      }
      CountsUnique(f, n);
      CountPositive(f, l.peer, n);
    }
  }

  ghost function OfPeer(ms: seq<Metric>, p: PeerID): seq<Metric> {
    if ms == [] then [] else OfPeer(Front(ms), p) + if Last(ms).peer == p then [Last(ms)] else []
  }

  ghost function Named(ms: seq<Metric>, n: string): seq<Metric> {
    if ms == [] then [] else Named(Front(ms), n) + if Last(ms).name == n then [Last(ms)] else []
  }

  lemma {:induction false} CountOfPeer(ms: seq<Metric>, q: PeerID, p: PeerID, n: string)
    ensures Count(OfPeer(ms, q), p, n) == if p == q then Count(ms, p, n) else 0
  {
    if ms != [] {
      CountOfPeer(Front(ms), q, p, n);
      var f := OfPeer(Front(ms), q);
      if Last(ms).peer == q {
        CountSnoc(f, Last(ms), p, n);
      } else {
        assert f + [] == f;
      }
    }
  }

  lemma {:induction false} CountNamed(ms: seq<Metric>, k: string, p: PeerID, n: string)
    ensures Count(Named(ms, k), p, n) == if n == k then Count(ms, p, n) else 0
  {
    if ms != [] {
      CountNamed(Front(ms), k, p, n);
      var f := Named(Front(ms), k);
      if Last(ms).name == k {
        CountSnoc(f, Last(ms), p, n);
      } else {
        assert f + [] == f;
      }
    }
  }

  lemma CountSnoc(ms: seq<Metric>, m: Metric, p: PeerID, n: string)
    ensures Count(ms + [m], p, n) == Count(ms, p, n) + if m.peer == p && m.name == n then 1 else 0
  {
    SnocParts(ms, m);
  }

  lemma {:induction false} NamedNames(ms: seq<Metric>, k: string)
    ensures forall m :: m in Named(ms, k) ==> m.name == k
  {
    if ms != [] {
      NamedNames(Front(ms), k);
    }
  }

  lemma {:induction false} OfPeerConcat(a: seq<Metric>, b: seq<Metric>, p: PeerID)
    ensures OfPeer(a + b, p) == OfPeer(a, p) + OfPeer(b, p)
  {
    if b == [] {
      assert a + b == a;
    } else {
      assert Front(a + b) == a + Front(b) && Last(a + b) == Last(b);
      OfPeerConcat(a, Front(b), p);
    }
  }

  lemma {:induction false} NamedConcat(a: seq<Metric>, b: seq<Metric>, n: string)
    ensures Named(a + b, n) == Named(a, n) + Named(b, n)
  {
    if b == [] {
      assert a + b == a;
    } else {
      assert Front(a + b) == a + Front(b) && Last(a + b) == Last(b);
      NamedConcat(a, Front(b), n);
    }
  }

  // ----- the metrics in the order in which they are visited -----

  ghost function Flatten(ms: MetricsSet, order: seq<string>): seq<Metric> {
    if order == [] then [] else Flatten(ms, Front(order)) + Lookup(ms, Last(order))
  }

  lemma {:induction false} LengthOfPeer(ms: seq<Metric>, p: PeerID, n: string)
    requires forall m :: m in ms ==> m.name == n
    ensures |OfPeer(ms, p)| == Count(ms, p, n)
  {
    if ms != [] {
      assert Last(ms) in ms && forall m :: m in Front(ms) ==> m in ms;
      LengthOfPeer(Front(ms), p, n);
    }
  }

  lemma OnePeer(ms: seq<Metric>, p: PeerID, n: string)
    requires GoodMetrics(ms, n)
    ensures |OfPeer(ms, p)| == Count(ms, p, n) == if p in PeersOf(ms) then 1 else 0
  {
    LengthOfPeer(ms, p, n);
    UniqueCounts(ms, n, p);
    CountPositive(ms, p, n);
  }

  ghost predicate GoodSet(ms: MetricsSet, order: seq<string>) {
    forall n :: n in order ==> GoodMetrics(Lookup(ms, n), n)
  }

  /** A peer has as many metrics as there are names exactly when it has one of each. */
  lemma {:induction false} AllOfThem(ms: MetricsSet, order: seq<string>, p: PeerID)
    requires GoodSet(ms, order)
    ensures |OfPeer(Flatten(ms, order), p)| <= |order|
    ensures |OfPeer(Flatten(ms, order), p)| == |order| <==> HasAll(ms, order, p)
  {
    if order != [] {
      var f, l := Front(order), Last(order);
      assert order == f + [l] && l in order && forall n :: n in f ==> n in order;
      AllOfThem(ms, f, p);
      OfPeerConcat(Flatten(ms, f), Lookup(ms, l), p);
      OnePeer(Lookup(ms, l), p, l);
      HasAllSnoc(ms, f, l, p);
    }
  }

  lemma HasAllSnoc(ms: MetricsSet, names: seq<string>, n: string, p: PeerID)
    ensures HasAll(ms, names + [n], p) <==> HasAll(ms, names, p) && p in PeersOf(Lookup(ms, n))
  {
    var all := names + [n];
    if HasAll(ms, all, p) {
      assert forall k :: 0 <= k < |names| ==> names[k] == all[k];
      assert p in PeersOf(Lookup(ms, all[|names|]));
    }
  }

  /** Among the visited metrics, at most one has a given peer and name, and only for visited names. */
  lemma {:induction false} CountFlatten(ms: MetricsSet, order: seq<string>, p: PeerID, n: string)
    requires GoodSet(ms, order) && NoDup(order)
    ensures Count(Flatten(ms, order), p, n) == if n in order && p in PeersOf(Lookup(ms, n)) then 1 else 0
  {
    if order != [] {
      var f, l := Front(order), Last(order);
      assert order == f + [l] && l in order && forall k :: k in f ==> k in order;
      CountFlatten(ms, f, p, n);
      CountConcat(Flatten(ms, f), Lookup(ms, l), p, n);
      OnePeer(Lookup(ms, l), p, l);
      if n != l {
        CountPositive(Lookup(ms, l), p, n);
      }
    }
  }

  lemma {:induction false} FlattenMember(ms: MetricsSet, order: seq<string>, m: Metric)
    ensures m in Flatten(ms, order) <==> exists n :: n in order && m in Lookup(ms, n)
  {
    if order != [] {
      var f, l := Front(order), Last(order);
      assert order == f + [l];
      FlattenMember(ms, f, m);
    }
  }

  /** A peer is healthy if it is not black-listed, passes the trust settings and has exactly one metric of each name. */
  lemma HealthyMeans(env: Env, l: Lists, p: PeerID)
    requires WellFormed(env)
    ensures Healthy(env, l, p) <==>
      && p !in l.blacklist
      && (env.onlyTrusted ==> p in env.trusted)
      && (env.onlyUntrusted ==> p !in env.trusted)
      && forall n :: n in env.names ==> |OfPeer(Lookup(env.latest, n), p)| == 1
  {
    forall n | n in env.names
      ensures |OfPeer(Lookup(env.latest, n), p)| == if p in PeersOf(Lookup(env.latest, n)) then 1 else 0
    {
      OnePeer(Lookup(env.latest, n), p, n);
    }
    HasAllNames(env.latest, env.names, p);
    assert forall n :: n in env.names <==> n in Elements(env.names);
  }

  // ----- filterMetrics -----

  type PeerMetrics = map<PeerID, seq<Metric>>

  /** The metrics of the peers of one kind, by peer. */
  ghost function PeerMap(env: Env, l: Lists, seen: seq<Metric>, k: Kind): PeerMetrics {
    map p | p in PeersOf(seen) && KindOf(env, l, p) == k :: OfPeer(seen, p)
  }

  /** `pm[m.peer] = append(pm[m.peer], m)` */
  function AppendTo(pm: PeerMetrics, m: Metric): PeerMetrics {
    pm[m.peer := (if m.peer in pm then pm[m.peer] else []) + [m]]
  }

  lemma {:induction false} OfPeerNone(ms: seq<Metric>, p: PeerID)
    ensures p !in PeersOf(ms) <==> OfPeer(ms, p) == []
  {
    if ms != [] {
      OfPeerNone(Front(ms), p);
      assert forall m :: m in ms <==> m in Front(ms) || m == Last(ms);
    }
  }

  lemma PeerMapStep(env: Env, l: Lists, seen: seq<Metric>, m: Metric, k: Kind)
    ensures PeerMap(env, l, seen + [m], k) ==
      if KindOf(env, l, m.peer) == k then AppendTo(PeerMap(env, l, seen, k), m) else PeerMap(env, l, seen, k)
  {
    var after := PeerMap(env, l, seen + [m], k);
    var r := if KindOf(env, l, m.peer) == k then AppendTo(PeerMap(env, l, seen, k), m) else PeerMap(env, l, seen, k);
    PeersSnoc(seen, m);
    assert after.Keys == r.Keys;
    forall p | p in after
      ensures after[p] == r[p]
    {
      OfPeerSnoc(seen, m, p);
      OfPeerNone(seen, p);
    }
  }

  lemma PeersSnoc(seen: seq<Metric>, m: Metric)
    ensures PeersOf(seen + [m]) == PeersOf(seen) + {m.peer}
  {
    assert forall x :: x in seen + [m] <==> x in seen || x == m;
  }

  lemma OfPeerSnoc(seen: seq<Metric>, m: Metric, p: PeerID)
    ensures OfPeer(seen + [m], p) == OfPeer(seen, p) + if m.peer == p then [m] else []
  {
    assert Front(seen + [m]) == seen && Last(seen + [m]) == m;
  }

  lemma NamedSnoc(seen: seq<Metric>, m: Metric, n: string)
    ensures Named(seen + [m], n) == if m.name == n then Named(seen, n) + [m] else Named(seen, n)
  {
    assert Front(seen + [m]) == seen && Last(seen + [m]) == m;
  }

  /** Not black-listed, and passing the trust settings. */
  ghost predicate Eligible(env: Env, l: Lists, p: PeerID) {
    && p !in l.blacklist
    && (env.onlyTrusted ==> p in env.trusted)
    && (env.onlyUntrusted ==> p !in env.trusted)
  }

  /** Divides one list of metrics among the three groups. */
  method Visit(
    env: Env, l: Lists, metrics: seq<Metric>, cur0: PeerMetrics, prio0: PeerMetrics, cand0: PeerMetrics,
    ghost seen: seq<Metric>)
    returns (cur: PeerMetrics, prio: PeerMetrics, cand: PeerMetrics)
    requires cur0 == PeerMap(env, l, seen, Current) && prio0 == PeerMap(env, l, seen, Priority)
    requires cand0 == PeerMap(env, l, seen, Candidate)
    ensures cur == PeerMap(env, l, seen + metrics, Current)
    ensures prio == PeerMap(env, l, seen + metrics, Priority)
    ensures cand == PeerMap(env, l, seen + metrics, Candidate)
    ensures forall p :: p in PeersOf(seen + metrics) && Eligible(env, l, p) ==>
      && (p in cur <==> p in l.current)
      && (p in prio <==> p in l.priority && p !in l.current)
      && (p in cand <==> p !in l.current && p !in l.priority)
    ensures forall p :: !Eligible(env, l, p) ==> p !in cur && p !in prio && p !in cand
  {
    cur, prio, cand := cur0, prio0, cand0;
    ghost var s := seen;
    var i := 0;
    assert seen + metrics[..0] == seen;
    while i < |metrics|
      invariant 0 <= i <= |metrics| && s == seen + metrics[..i]
      invariant cur == PeerMap(env, l, s, Current) && prio == PeerMap(env, l, s, Priority)
      invariant cand == PeerMap(env, l, s, Candidate)
    {
      var m := metrics[i];
      PeerMapStep(env, l, s, m, Current);
      PeerMapStep(env, l, s, m, Priority);
      PeerMapStep(env, l, s, m, Candidate);
      match KindOf(env, l, m.peer) {
        case Discarded =>
        case Current => cur := AppendTo(cur, m);
        case Priority => prio := AppendTo(prio, m);
        case Candidate => cand := AppendTo(cand, m);
      }
      s := s + [m];
      i := i + 1;
    }
    assert metrics[..i] == metrics;
  }

  /** Divides all metrics, names in any order. */
  method Divide(
    env: Env, l: Lists, ms: MetricsSet)
    returns (cur: PeerMetrics, prio: PeerMetrics, cand: PeerMetrics, ghost order: seq<string>)
    ensures NoDup(order) && Elements(order) == ms.Keys
    ensures cur == PeerMap(env, l, Flatten(ms, order), Current)
    ensures prio == PeerMap(env, l, Flatten(ms, order), Priority)
    ensures cand == PeerMap(env, l, Flatten(ms, order), Candidate)
  {
    cur, prio, cand := map[], map[], map[];
    var names := AnyOrder(ms.Keys);
    order := names;
    ghost var seen: seq<Metric> := [];
    var i := 0;
    while i < |names|
      invariant 0 <= i <= |names| && seen == Flatten(ms, names[..i])
      invariant cur == PeerMap(env, l, seen, Current) && prio == PeerMap(env, l, seen, Priority)
      invariant cand == PeerMap(env, l, seen, Candidate)
    {
      assert names[i] in Elements(names);
      assert Front(names[..i + 1]) == names[..i] && Last(names[..i + 1]) == names[i];
      cur, prio, cand := Visit(env, l, ms[names[i]], cur, prio, cand, seen);
      seen := seen + ms[names[i]];
      i := i + 1;
    }
    assert names[..i] == names;
  }

  ghost function FlatPeers(pm: PeerMetrics, peers: seq<PeerID>): seq<Metric>
    requires forall p :: p in peers ==> p in pm
  {
    if peers == [] then [] else FlatPeers(pm, Front(peers)) + pm[Last(peers)]
  }

  lemma FlatPeersSnoc(pm: PeerMetrics, peers: seq<PeerID>, p: PeerID)
    requires (forall q :: q in peers ==> q in pm) && p in pm
    ensures FlatPeers(pm, peers + [p]) == FlatPeers(pm, peers) + pm[p]
  {
    SnocParts(peers, p);
  }

  /** Collects the peers with `num` metrics, in any order, and their metrics by name. */
  method FillMetricsSet(pm: PeerMetrics, num: int) returns (ms: MetricsSet, peers: seq<PeerID>)
    ensures NoDup(peers) && forall p :: p in peers <==> p in pm && |pm[p]| == num
    ensures FilledWith(ms, FlatPeers(pm, peers))
  {
    ms, peers := map[], [];
    var order := AnyOrder(pm.Keys);
    var i := 0;
    while i < |order|
      invariant 0 <= i <= |order|
      invariant NoDup(peers) && forall p :: p in peers <==> p in order[..i] && p in pm && |pm[p]| == num
      invariant FilledWith(ms, FlatPeers(pm, peers))
    {
      var p := order[i];
      assert p in Elements(order);
      PrefixSnoc(order, i);
      if |pm[p]| == num {
        ms := AddMetrics(ms, pm[p], FlatPeers(pm, peers));
        FlatPeersSnoc(pm, peers, p);
        peers := peers + [p];
      }
      i := i + 1;
    }
    assert order[..i] == order;
    assert forall p :: p in order <==> p in Elements(order);
  }

  /** `ms` holds the metrics `s` by name. */
  ghost predicate FilledWith(ms: MetricsSet, s: seq<Metric>) {
    forall n :: Lookup(ms, n) == Named(s, n)
  }

  lemma FilledStep(ms: MetricsSet, s: seq<Metric>, m: Metric)
    requires FilledWith(ms, s)
    ensures FilledWith(ms[m.name := Lookup(ms, m.name) + [m]], s + [m])
  {
    var ms' := ms[m.name := Lookup(ms, m.name) + [m]];
    forall n
      ensures Lookup(ms', n) == Named(s + [m], n)
    {
      NamedSnoc(s, m, n);
      assert Lookup(ms, n) == Named(s, n);
    }
  }

  method AddMetrics(ms0: MetricsSet, metrics: seq<Metric>, ghost before: seq<Metric>) returns (ms: MetricsSet)
    requires FilledWith(ms0, before)
    ensures FilledWith(ms, before + metrics)
  {
    ms := ms0;
    ghost var s := before;
    var i := 0;
    assert before + metrics[..0] == before;
    while i < |metrics|
      invariant 0 <= i <= |metrics| && s == before + metrics[..i] && FilledWith(ms, s)
    {
      var m := metrics[i];
      PrefixSnoc(metrics, i);
      FilledStep(ms, s, m);
      ms := ms[m.name := Lookup(ms, m.name) + [m]];
      s := s + [m];
      i := i + 1;
    }
    assert metrics[..i] == metrics;
  }

  /** A group of peers and their metrics by name. */
  datatype Group = Group(metrics: MetricsSet, peers: seq<PeerID>)

  datatype Classified = Classified(current: Group, priority: Group, candidate: Group)

  /** `ms` holds, for every name, exactly the latest metrics of these peers. */
  ghost predicate LatestOf(env: Env, ms: MetricsSet, peers: seq<PeerID>) {
    forall n, m :: n in env.names ==> (m in Lookup(ms, n) <==> m in Lookup(env.latest, n) && m.peer in peers)
  }

  /** `g` lists exactly the healthy peers of kind `k`, and their latest metrics of every name. */
  ghost predicate GroupIs(env: Env, l: Lists, k: Kind, g: Group) {
    && NoDup(g.peers)
    && (forall p :: p in g.peers <==> Healthy(env, l, p) && KindOf(env, l, p) == k)
    && Unique(g.metrics) && NoBlankPeers(g.metrics) && LatestOf(env, g.metrics, g.peers)
    && forall n :: n in env.names ==> PeersOf(Lookup(g.metrics, n)) == Elements(g.peers)
  }

  lemma {:induction false} CountFlatPeers(
    env: Env, l: Lists, k: Kind, seen: seq<Metric>, peers: seq<PeerID>, p: PeerID, n: string)
    requires NoDup(peers) && forall q :: q in peers ==> q in PeerMap(env, l, seen, k)
    ensures Count(FlatPeers(PeerMap(env, l, seen, k), peers), p, n) == if p in peers then Count(seen, p, n) else 0
  {
    if peers != [] {
      var f, q := Front(peers), Last(peers);
      assert peers == f + [q] && q in peers;
      CountFlatPeers(env, l, k, seen, f, p, n);
      CountConcat(FlatPeers(PeerMap(env, l, seen, k), f), OfPeer(seen, q), p, n);
      CountOfPeer(seen, q, p, n);
    }
  }

  lemma CountFilled(ms: MetricsSet, flat: seq<Metric>, p: PeerID, n: string)
    requires FilledWith(ms, flat)
    ensures Count(Lookup(ms, n), p, n) == Count(flat, p, n)
    ensures forall m :: m in Lookup(ms, n) ==> m.name == n
    ensures p in PeersOf(Lookup(ms, n)) <==> Count(flat, p, n) > 0
  {
    assert Lookup(ms, n) == Named(flat, n);
    CountNamed(flat, n, p, n);
    NamedNames(flat, n);
    CountPositive(Lookup(ms, n), p, n);
  }

  lemma FilledUnique(ms: MetricsSet, flat: seq<Metric>)
    requires FilledWith(ms, flat) && forall p, n :: Count(flat, p, n) <= 1
    ensures Unique(ms)
  {
    forall n | n in ms
      ensures UniquePeers(ms[n])
    {
      forall p
        ensures Count(ms[n], p, n) <= 1
      {
        CountFilled(ms, flat, p, n);
      }
      CountFilled(ms, flat, "", n);
      CountsUnique(ms[n], n);
    }
  }

  lemma FilledNoBlanks(ms: MetricsSet, flat: seq<Metric>)
    requires FilledWith(ms, flat) && forall n :: Count(flat, "", n) == 0
    ensures NoBlankPeers(ms)
  {
    forall n, m: Metric | n in ms && m in ms[n]
      ensures m.peer != ""
    {
      CountFilled(ms, flat, m.peer, n);
      assert m.peer in PeersOf(Lookup(ms, n));
    }
  }

  lemma SameNames(ms: MetricsSet, a: seq<string>, b: seq<string>, p: PeerID)
    requires NoDup(a) && NoDup(b) && Elements(a) == Elements(b)
    ensures |a| == |b| && (HasAll(ms, a, p) <==> HasAll(ms, b, p))
  {
    NoDupMultiset(a);
    NoDupMultiset(b);
    HasAllNames(ms, a, p);
    HasAllNames(ms, b, p);
  }

  lemma HasAllNames(ms: MetricsSet, names: seq<string>, p: PeerID)
    ensures HasAll(ms, names, p) <==> forall n :: n in Elements(names) ==> p in PeersOf(Lookup(ms, n))
  {
    assert forall k :: 0 <= k < |names| ==> names[k] in Elements(names);
  }

  /** The counting in `fillMetricsSet` picks out the healthy peers. */
  lemma CompletePeers(env: Env, l: Lists, k: Kind, order: seq<string>, p: PeerID)
    requires WellFormed(env) && NoDup(order) && Elements(order) == Elements(env.names) && k != Discarded
    ensures var pm := PeerMap(env, l, Flatten(env.latest, order), k);
      p in pm && |pm[p]| == |env.names| <==> Healthy(env, l, p) && KindOf(env, l, p) == k
  {
    assert forall n :: n in order ==> n in Elements(env.names);
    var seen := Flatten(env.latest, order);
    AllOfThem(env.latest, order, p);
    SameNames(env.latest, order, env.names, p);
    OfPeerNone(seen, p);
  }

  /** Each healthy peer contributes one metric of each name. */
  lemma OneOfEach(env: Env, l: Lists, k: Kind, order: seq<string>, peers: seq<PeerID>, p: PeerID, n: string)
    requires WellFormed(env) && NoDup(order) && Elements(order) == Elements(env.names) && NoDup(peers)
    requires forall q :: q in peers ==> q in PeerMap(env, l, Flatten(env.latest, order), k)
    requires forall q :: q in peers ==> Healthy(env, l, q)
    ensures Count(FlatPeers(PeerMap(env, l, Flatten(env.latest, order), k), peers), p, n) ==
      if p in peers && n in env.names then 1 else 0
  {
    assert n in order <==> n in Elements(order);
    assert n in env.names <==> n in Elements(env.names);
    assert forall q :: q in order ==> q in Elements(env.names);
    CountFlatPeers(env, l, k, Flatten(env.latest, order), peers, p, n);
    CountFlatten(env.latest, order, p, n);
    HasAllNames(env.latest, env.names, p);
  }

  lemma NoBlankHealthy(env: Env, l: Lists)
    requires WellFormed(env)
    ensures !Healthy(env, l, "")
  {
    assert env.names[0] in env.names;
    assert GoodMetrics(Lookup(env.latest, env.names[0]), env.names[0]);
    assert "" !in PeersOf(Lookup(env.latest, env.names[0]));
  }

  /** What is filled with one metric of each name per peer is a proper group. */
  lemma FilledGroup(names: seq<string>, g: Group, flat: seq<Metric>)
    requires FilledWith(g.metrics, flat) && "" !in g.peers
    requires forall p, n :: Count(flat, p, n) == if p in g.peers && n in names then 1 else 0
    ensures Unique(g.metrics) && NoBlankPeers(g.metrics)
    ensures forall n :: n in names ==> PeersOf(Lookup(g.metrics, n)) == Elements(g.peers)
  {
    FilledUnique(g.metrics, flat);
    FilledNoBlanks(g.metrics, flat);
    forall n | n in names
      ensures PeersOf(Lookup(g.metrics, n)) == Elements(g.peers)
    {
      forall p
        ensures p in PeersOf(Lookup(g.metrics, n)) <==> p in g.peers
      {
        CountFilled(g.metrics, flat, p, n);
      }
    }
  }

  lemma ClassifyGroup(env: Env, l: Lists, k: Kind, order: seq<string>, g: Group)
    requires WellFormed(env) && NoDup(order) && Elements(order) == Elements(env.names) && k != Discarded
    requires var pm := PeerMap(env, l, Flatten(env.latest, order), k);
      && NoDup(g.peers) && (forall p :: p in g.peers <==> p in pm && |pm[p]| == |env.names|)
      && FilledWith(g.metrics, FlatPeers(pm, g.peers))
    ensures GroupIs(env, l, k, g)
  {
    var pm := PeerMap(env, l, Flatten(env.latest, order), k);
    forall p
      ensures p in g.peers <==> Healthy(env, l, p) && KindOf(env, l, p) == k
    {
      CompletePeers(env, l, k, order, p);
    }
    var flat := FlatPeers(pm, g.peers);
    forall p, n
      ensures Count(flat, p, n) == if p in g.peers && n in env.names then 1 else 0
    {
      OneOfEach(env, l, k, order, g.peers, p, n);
    }
    NoBlankHealthy(env, l);
    FilledGroup(env.names, g, flat);
    FilledLatest(env, l, k, order, g);
  }

  lemma {:induction false} NamedMember(ms: seq<Metric>, n: string, m: Metric)
    ensures m in Named(ms, n) <==> m in ms && m.name == n
  {
    if ms != [] {
      NamedMember(Front(ms), n, m);
      FrontLast(ms);
    }
  }

  lemma {:induction false} OfPeerMember(ms: seq<Metric>, p: PeerID, m: Metric)
    ensures m in OfPeer(ms, p) <==> m in ms && m.peer == p
  {
    if ms != [] {
      OfPeerMember(Front(ms), p, m);
      FrontLast(ms);
    }
  }

  /** The metrics of a list of peers are those of the seen metrics that belong to one of them. */
  lemma {:induction false} FlatPeersMember(
    env: Env, l: Lists, k: Kind, seen: seq<Metric>, peers: seq<PeerID>, m: Metric)
    requires forall q :: q in peers ==> q in PeerMap(env, l, seen, k)
    ensures m in FlatPeers(PeerMap(env, l, seen, k), peers) <==> m in seen && m.peer in peers
  {
    if peers != [] {
      FlatPeersMember(env, l, k, seen, Front(peers), m);
      OfPeerMember(seen, Last(peers), m);
      FrontLast(peers);
    }
  }

  lemma FilledLatest(env: Env, l: Lists, k: Kind, order: seq<string>, g: Group)
    requires WellFormed(env) && Elements(order) == Elements(env.names)
    requires var pm := PeerMap(env, l, Flatten(env.latest, order), k);
      (forall p :: p in g.peers ==> p in pm) && FilledWith(g.metrics, FlatPeers(pm, g.peers))
    ensures LatestOf(env, g.metrics, g.peers)
  {
    var seen := Flatten(env.latest, order);
    var flat := FlatPeers(PeerMap(env, l, seen, k), g.peers);
    forall n, m | n in env.names
      ensures m in Lookup(g.metrics, n) <==> m in Lookup(env.latest, n) && m.peer in g.peers
    {
      assert n in Elements(env.names) && n in order;
      NamedMember(flat, n, m);
      FlatPeersMember(env, l, k, seen, g.peers, m);
      SeenLatest(env, order, n, m);
    }
  }

  /** Of the metrics seen, those called `n` are the latest ones of that name. */
  lemma SeenLatest(env: Env, order: seq<string>, n: string, m: Metric)
    requires WellFormed(env) && Elements(order) == Elements(env.names) && n in order && n in env.names
    ensures m in Flatten(env.latest, order) && m.name == n <==> m in Lookup(env.latest, n)
  {
    FlattenMember(env.latest, order, m);
    if m in Flatten(env.latest, order) {
      var k :| k in order && m in Lookup(env.latest, k);
      assert k in Elements(order) && k in env.names;
    }
  }

  lemma SameFlatten(a: MetricsSet, b: MetricsSet, order: seq<string>)
    requires forall n :: n in order ==> Lookup(a, n) == Lookup(b, n)
    ensures Flatten(a, order) == Flatten(b, order)
  {
    if order != [] {
      assert Last(order) in order;
      SameFlatten(a, b, Front(order));
    }
  }

  /** Splits the healthy peers into current, priority and candidate peers. */
  method FilterMetrics(env: Env, ms: MetricsSet, num: int, l: Lists) returns (c: Classified)
    requires WellFormed(env) && num == |env.names|
    requires ms.Keys == Elements(env.names) && forall n :: n in ms ==> ms[n] == Lookup(env.latest, n)
    ensures GroupIs(env, l, Current, c.current)
    ensures GroupIs(env, l, Priority, c.priority)
    ensures GroupIs(env, l, Candidate, c.candidate)
    ensures SplitByLists(env, l, c)
  {
    var cur, prio, cand;
    ghost var order;
    cur, prio, cand, order := Divide(env, l, ms);
    assert forall n :: n in order ==> n in Elements(order);
    SameFlatten(ms, env.latest, order);
    var curSet, curPeers := FillMetricsSet(cur, num);
    var candSet, candPeers := FillMetricsSet(cand, num);
    var prioSet, prioPeers := FillMetricsSet(prio, num);
    c := Classified(Group(curSet, curPeers), Group(prioSet, prioPeers), Group(candSet, candPeers));
    ClassifyGroup(env, l, Current, order, c.current);
    ClassifyGroup(env, l, Priority, order, c.priority);
    ClassifyGroup(env, l, Candidate, order, c.candidate);
    ClassifiedSplits(env, l, c);
  }

  /** The healthy peers by the lists they are in: current ones, others with priority, and the rest. */
  ghost predicate SplitByLists(env: Env, l: Lists, c: Classified) {
    forall p ::
      && (p in c.current.peers <==> Healthy(env, l, p) && p in l.current)
      && (p in c.priority.peers <==> Healthy(env, l, p) && p in l.priority && p !in l.current)
      && (p in c.candidate.peers <==> Healthy(env, l, p) && p !in l.priority && p !in l.current)
  }

  lemma ClassifiedSplits(env: Env, l: Lists, c: Classified)
    requires IsClassified(env, l, c)
    ensures SplitByLists(env, l, c)
  {
  }

  // ----- the decision -----

  ghost function HealthyPeers(env: Env, l: Lists): set<PeerID>
    requires env.names != []
  {
    set p | p in PeersOf(Lookup(env.latest, env.names[0])) && Healthy(env, l, p)
  }

  /** The healthy peers of one kind. */
  ghost function OfKind(env: Env, l: Lists, k: Kind): set<PeerID>
    requires env.names != []
  {
    set p | p in HealthyPeers(env, l) && KindOf(env, l, p) == k
  }

  ghost function Holders(env: Env, l: Lists): set<PeerID>
    requires env.names != []
  {
    OfKind(env, l, Current)
  }

  lemma KindSizes(env: Env, l: Lists)
    requires env.names != []
    ensures HealthyPeers(env, l) == OfKind(env, l, Current) + OfKind(env, l, Priority) + OfKind(env, l, Candidate)
    ensures |HealthyPeers(env, l)| ==
      |OfKind(env, l, Current)| + |OfKind(env, l, Priority)| + |OfKind(env, l, Candidate)|
  {
    var a, b, c := OfKind(env, l, Current), OfKind(env, l, Priority), OfKind(env, l, Candidate);
    assert HealthyPeers(env, l) == (a + b) + c;
    assert |a + b| == |a| + |b|;
  }

  lemma GroupElements(env: Env, l: Lists, k: Kind, g: Group)
    requires env.names != [] && k != Discarded && GroupIs(env, l, k, g)
    ensures Elements(g.peers) == OfKind(env, l, k) && |g.peers| == |OfKind(env, l, k)|
  {
    NoDupMultiset(g.peers);
    forall p
      ensures p in Elements(g.peers) <==> p in OfKind(env, l, k)
    {
      if Healthy(env, l, p) {
        assert p in PeersOf(Lookup(env.latest, env.names[0]));
      }
    }
  }

  /** A balanced order of a group lists exactly the group. */
  lemma GroupOrder(env: Env, l: Lists, k: Kind, g: Group, xs: seq<PeerID>)
    requires WellFormed(env) && k != Discarded && GroupIs(env, l, k, g)
    requires BalancedOrder(g.metrics, env.names, xs)
    ensures NoDup(xs) && Elements(xs) == OfKind(env, l, k) && |xs| == |OfKind(env, l, k)|
  {
    OrderPeers(g.metrics, env.names, xs);
    GroupElements(env, l, k, g);
    NoDupMultiset(xs);
    assert env.names[0] in env.names;
    forall p
      ensures p in xs <==> p in g.peers
    {
      HasAllNames(g.metrics, env.names, p);
      assert forall n :: n in env.names <==> n in Elements(env.names);
      if p in g.peers {
        assert p in Elements(g.peers);
      }
      if HasAll(g.metrics, env.names, p) {
        assert p in PeersOf(Lookup(g.metrics, env.names[0]));
      }
    }
    assert Elements(xs) == Elements(g.peers);
  }

  /** The current peers and then, up to `max` in all, balanced orders of the priority peers and the candidates. */
  ghost predicate ToppedUp(env: Env, c: Classified, max: int, a: seq<PeerID>)
    requires env.names != []
  {
    exists first, last ::
      && BalancedOrder(c.priority.metrics, env.names, first)
      && BalancedOrder(c.candidate.metrics, env.names, last)
      && TakesFrom(c.current.peers, first, last, max, a)
  }

  ghost predicate TakesFrom(current: seq<PeerID>, first: seq<PeerID>, last: seq<PeerID>, max: int, a: seq<PeerID>) {
    var n := Min(max - |current|, |first + last|);
    n >= 0 && a == current + (first + last)[..n]
  }

  ghost predicate IsClassified(env: Env, l: Lists, c: Classified) {
    && GroupIs(env, l, Current, c.current)
    && GroupIs(env, l, Priority, c.priority)
    && GroupIs(env, l, Candidate, c.candidate)
  }

  /** Drops, keeps (`None`) or adds peers. */
  method ObtainAllocations(
    env: Env, ghost l: Lists, min: int, max: int, c: Classified)
    returns (r: Result<Option<seq<PeerID>>>)
    requires WellFormed(env) && IsClassified(env, l, c) && max >= 0
    ensures max < |c.current.peers| ==> r == Ok(Some(c.current.peers[..max]))
    ensures min <= |c.current.peers| <= max ==> r == Ok(None)
    ensures |c.current.peers| < min && |c.current.peers| <= max ==>
      if |HealthyPeers(env, l)| < min then r.Err? else r.Ok? && r.value.Some? && ToppedUp(env, c, max, r.value.value)
  {
    var needed := min - |c.current.peers|;
    var wanted := max - |c.current.peers|;
    if wanted < 0 {
      return Ok(Some(c.current.peers[..|c.current.peers| + wanted]));
    }
    if needed <= 0 {
      return Ok(None);
    }
    CountGroups(env, l, c);
    if |c.candidate.peers| + |c.priority.peers| < needed {
      return Err;
    }
    var first, last := Allocate(c.candidate.metrics, c.priority.metrics, env.names);
    GroupOrder(env, l, Priority, c.priority, first);
    GroupOrder(env, l, Candidate, c.candidate, last);
    var final := first + last;
    if |final| < needed {
      assert false;  // the allocator never returns too few
    }
    var use := Min(wanted, |final|);
    r := Ok(Some(c.current.peers + final[..use]));
    assert TakesFrom(c.current.peers, first, last, max, r.value.value);
  }

  lemma CountGroups(env: Env, l: Lists, c: Classified)
    requires env.names != [] && IsClassified(env, l, c)
    ensures |HealthyPeers(env, l)| == |c.current.peers| + |c.priority.peers| + |c.candidate.peers|
    ensures Elements(c.current.peers) == Holders(env, l) && |c.current.peers| == |Holders(env, l)|
    ensures |c.priority.peers| == |OfKind(env, l, Priority)| && |c.candidate.peers| == |OfKind(env, l, Candidate)|
  {
    KindSizes(env, l);
    GroupElements(env, l, Current, c.current);
    GroupElements(env, l, Priority, c.priority);
    GroupElements(env, l, Candidate, c.candidate);
  }

  // ----- what an allocation is -----

  /** How early a peer comes in an allocation: holders, then priority peers, then candidates. */
  ghost function Rank(env: Env, l: Lists, p: PeerID): int {
    match KindOf(env, l, p)
    case Current => 0
    case Priority => 1
    case Candidate => 2
    case Discarded => 3
  }

  /** All holders and as many more healthy peers as `max` admits, priority peers before candidates. */
  ghost predicate FilledUp(env: Env, l: Lists, max: int, a: seq<PeerID>)
    requires env.names != []
  {
    && NoDup(a)
    && |a| == Min(max, |HealthyPeers(env, l)|)
    && Holders(env, l) <= Elements(a) <= HealthyPeers(env, l)
    && (forall i, j :: 0 <= i < j < |a| ==> Rank(env, l, a[i]) <= Rank(env, l, a[j]))
    && ((exists p :: p in a && KindOf(env, l, p) == Candidate) ==> OfKind(env, l, Priority) <= Elements(a))
  }

  /** The result of an allocation, by how many holders are healthy. */
  ghost predicate Allocated(env: Env, l: Lists, min: int, max: int, r: Result<seq<PeerID>>)
    requires env.names != []
  {
    var held, all := |Holders(env, l)|, |HealthyPeers(env, l)|;
    if min + max == 0 then r.Err?
    else if min < 0 && max < 0 then r == Ok([])
    else if max < held then r.Ok? && NoDup(r.value) && Elements(r.value) <= Holders(env, l) && |r.value| == max
    else if min <= held then r == Ok(l.current)
    else if all < min then r.Err?
    else
      && r.Ok? && FilledUp(env, l, max, r.value)
      && exists c :: IsClassified(env, l, c) && ToppedUp(env, c, max, r.value)
  }

  /** The three groups in a list each. */
  ghost predicate ListsOf(env: Env, l: Lists, cur: seq<PeerID>, first: seq<PeerID>, last: seq<PeerID>)
    requires env.names != []
  {
    && NoDup(cur) && Elements(cur) == OfKind(env, l, Current)
    && NoDup(first) && Elements(first) == OfKind(env, l, Priority)
    && NoDup(last) && Elements(last) == OfKind(env, l, Candidate)
  }

  lemma TakenKinds(
    env: Env, l: Lists, cur: seq<PeerID>, first: seq<PeerID>, last: seq<PeerID>, max: int, a: seq<PeerID>, i: int)
    requires env.names != [] && ListsOf(env, l, cur, first, last) && TakesFrom(cur, first, last, max, a)
    requires 0 <= i < |a|
    ensures a[i] == (cur + (first + last))[i]
    ensures KindOf(env, l, a[i]) == if i < |cur| then Current else if i < |cur| + |first| then Priority else Candidate
    ensures a[i] in HealthyPeers(env, l)
  {
    if i < |cur| {
      assert a[i] in Elements(cur);
    } else if i < |cur| + |first| {
      assert a[i] == first[i - |cur|];
      assert a[i] in Elements(first);
    } else {
      assert a[i] == last[i - |cur| - |first|];
      assert a[i] in Elements(last);
    }
  }

  lemma TakenSet(env: Env, l: Lists, cur: seq<PeerID>, first: seq<PeerID>, last: seq<PeerID>, max: int, a: seq<PeerID>)
    requires env.names != [] && ListsOf(env, l, cur, first, last) && TakesFrom(cur, first, last, max, a) && |cur| <= max
    ensures NoDup(a) && |a| == Min(max, |HealthyPeers(env, l)|)
    ensures Holders(env, l) <= Elements(a) <= HealthyPeers(env, l)
  {
    ListSizes(env, l, cur, first, last);
    var whole := cur + (first + last);
    assert a == whole[..|a|];
    PrefixOf(whole, |a|);
    forall i | 0 <= i < |a|
      ensures a[i] in HealthyPeers(env, l)
    {
      TakenKinds(env, l, cur, first, last, max, a, i);
    }
    assert cur == a[..|cur|];
  }

  lemma ListSizes(env: Env, l: Lists, cur: seq<PeerID>, first: seq<PeerID>, last: seq<PeerID>)
    requires env.names != [] && ListsOf(env, l, cur, first, last)
    ensures |cur| + |first| + |last| == |HealthyPeers(env, l)| && NoDup(cur + (first + last))
  {
    NoDupMultiset(cur);
    NoDupMultiset(first);
    NoDupMultiset(last);
    KindSizes(env, l);
    Disjoint3(cur, first, last);
  }

  lemma TakenOrder(
    env: Env, l: Lists, cur: seq<PeerID>, first: seq<PeerID>, last: seq<PeerID>, max: int, a: seq<PeerID>)
    requires env.names != [] && ListsOf(env, l, cur, first, last) && TakesFrom(cur, first, last, max, a)
    ensures forall i, j :: 0 <= i < j < |a| ==> Rank(env, l, a[i]) <= Rank(env, l, a[j])
    ensures (exists p :: p in a && KindOf(env, l, p) == Candidate) ==> OfKind(env, l, Priority) <= Elements(a)
  {
    forall i, j | 0 <= i < j < |a|
      ensures Rank(env, l, a[i]) <= Rank(env, l, a[j])
    {
      TakenKinds(env, l, cur, first, last, max, a, i);
      TakenKinds(env, l, cur, first, last, max, a, j);
    }
    if p :| p in a && KindOf(env, l, p) == Candidate {
      var i :| 0 <= i < |a| && a[i] == p;
      TakenKinds(env, l, cur, first, last, max, a, i);
      forall q | q in OfKind(env, l, Priority)
        ensures q in Elements(a)
      {
        assert q in Elements(first);
        var j :| 0 <= j < |first| && first[j] == q;
        TakenKinds(env, l, cur, first, last, max, a, |cur| + j);
        assert a[|cur| + j] == q;
      }
    }
  }

  lemma ToppedUpFills(env: Env, l: Lists, c: Classified, max: int, a: seq<PeerID>)
    requires WellFormed(env) && IsClassified(env, l, c) && |c.current.peers| <= max && ToppedUp(env, c, max, a)
    ensures FilledUp(env, l, max, a)
  {
    var first, last :|
      && BalancedOrder(c.priority.metrics, env.names, first)
      && BalancedOrder(c.candidate.metrics, env.names, last)
      && TakesFrom(c.current.peers, first, last, max, a);
    GroupOrder(env, l, Priority, c.priority, first);
    GroupOrder(env, l, Candidate, c.candidate, last);
    GroupElements(env, l, Current, c.current);
    TakenSet(env, l, c.current.peers, first, last, max, a);
    TakenOrder(env, l, c.current.peers, first, last, max, a);
  }

  lemma Disjoint3(a: seq<PeerID>, b: seq<PeerID>, c: seq<PeerID>)
    requires NoDup(a) && NoDup(b) && NoDup(c)
    requires Elements(a) !! Elements(b) && Elements(a) !! Elements(c) && Elements(b) !! Elements(c)
    ensures NoDup(a + (b + c))
  {
    forall x | x in c
      ensures x !in b
    {
      assert x in Elements(c);
    }
    NoDupConcat(b, c);
    forall x | x in b + c
      ensures x !in a
    {
      assert x in Elements(b) || x in Elements(c);
    }
    NoDupConcat(a, b + c);
  }

  /** Finds the peers to allocate a CID to; `l.current` are its current allocations, if it is pinned. */
  method AllocatePeers(env: Env, l: Lists, min: int, max: int) returns (r: Result<seq<PeerID>>)
    requires WellFormed(env)
    requires max < 0 ==> min < 0  // otherwise the slice of current peers panics
    ensures Allocated(env, l, min, max, r)
  {
    if min + max == 0 {
      return Err;
    }
    if min < 0 && max < 0 {
      return Ok([]);
    }
    var ms := Gather(env);
    var c := FilterMetrics(env, ms, |env.names|, l);
    CountGroups(env, l, c);
    var d := ObtainAllocations(env, l, min, max, c);
    if d.Err? {
      return Err;
    }
    match d.value {
      case None => r := Ok(l.current);
      case Some(a) =>
        r := Ok(a);
        if max < |c.current.peers| {
          PrefixOf(c.current.peers, max);
        } else {
          ToppedUpFills(env, l, c, max, a);
        }
    }
  }

  lemma PrefixOf(s: seq<PeerID>, n: int)
    requires NoDup(s) && 0 <= n <= |s|
    ensures NoDup(s[..n]) && Elements(s[..n]) <= Elements(s) && |s[..n]| == n
  {
  }

  /** The latest metrics of every name the allocator is interested in. */
  method Gather(env: Env) returns (ms: MetricsSet)
    ensures ms.Keys == Elements(env.names) && forall n :: n in ms ==> ms[n] == Lookup(env.latest, n)
  {
    ms := map[];
    var i := 0;
    while i < |env.names|
      invariant 0 <= i <= |env.names|
      invariant ms.Keys == Elements(env.names[..i]) && forall n :: n in ms ==> ms[n] == Lookup(env.latest, n)
    {
      ms := ms[env.names[i] := Lookup(env.latest, env.names[i])];
      PrefixSnoc(env.names, i);
      i := i + 1;
    }
    assert env.names[..i] == env.names;
  }
}

/**
 The state of the balanced allocator as a value: a tree with one level per
 metric name, whose leaves hold the peers and whether each was picked.
 `Step` is one successful `chooseNext`; the fairness and coverage of every run
 are proved here, on values.
 */
module PartitionTree {
  import opened Basics

  /** A partition; `members` are the metrics that were grouped into it. */
  datatype Part = Part(
    value: string,
    weight: Int64,
    aggregate: Int64,
    peers: map<PeerID, bool>,
    members: seq<Metric>,
    sub: Option<Tree>)

  /** A partitioned metric. The `noMore` flag is absent: it only caches that nothing is left. */
  datatype Tree = Tree(name: string, cursor: nat, parts: seq<Part>)

  // ----- the peers at the leaves -----

  ghost function Keys(peers: map<PeerID, bool>, unusedOnly: bool): set<PeerID> {
    set x | x in peers && (unusedOnly ==> !peers[x])
  }

  /** The leaf peers below a partition, or only those not picked yet. */
  ghost function PartPeers(p: Part, unusedOnly: bool): multiset<PeerID>
    decreases p
  {
    if p.sub.None? then
      multiset(Keys(p.peers, unusedOnly))
    else
      SeqPeers(p.sub.value.parts, unusedOnly)
  }

  ghost function SeqPeers(ps: seq<Part>, unusedOnly: bool): multiset<PeerID>
    decreases ps
  {
    if ps == [] then multiset{} else PartPeers(ps[0], unusedOnly) + SeqPeers(ps[1..], unusedOnly)
  }

  ghost function Peers(t: Tree, unusedOnly: bool): multiset<PeerID> {
    SeqPeers(t.parts, unusedOnly)
  }

  /** How many peers there are below a partition. */
  ghost function Size(p: Part): nat {
    |PartPeers(p, false)|
  }

  /** How many peers a partition has given so far. */
  ghost function Given(p: Part): int {
    |PartPeers(p, false)| - |PartPeers(p, true)|
  }

  ghost predicate Live(p: Part) {
    PartPeers(p, true) != multiset{}
  }

  // ----- one choice -----

  /** Cyclically from `c` inclusive to `k` exclusive. */
  predicate Between(c: int, k: int, i: int) {
    if c <= k then c <= i < k else c <= i || i < k
  }

  /** `k` is the first partition at or after the cursor, cyclically, that still has a peer. */
  ghost predicate FirstLive(t: Tree, k: int) {
    && 0 <= k < |t.parts|
    && Live(t.parts[k])
    && forall i :: 0 <= i < |t.parts| && Between(t.cursor, k, i) ==> !Live(t.parts[i])
  }

  function Next(k: int, n: int): (r: int)
    requires 0 <= k < n
    ensures r == (k + 1) % n
  {
    if k + 1 < n then k + 1 else 0
  }

  /** Peer `x` is taken from partition `k`, and only that partition and the cursor change. */
  ghost predicate PickedAt(t: Tree, k: int, x: PeerID, t': Tree)
    decreases t, 0
  {
    && FirstLive(t, k)
    && |t'.parts| == |t.parts|
    && t' == t.(cursor := Next(k, |t.parts|), parts := t.parts[k := t'.parts[k]])
    && PartStep(t.parts[k], x, t'.parts[k])
  }

  /** A successful `chooseNext` that returns `x`. */
  ghost predicate Step(t: Tree, x: PeerID, t': Tree)
    decreases t, 1
  {
    exists k :: 0 <= k < |t.parts| && PickedAt(t, k, x, t')
  }

  ghost predicate PartStep(p: Part, x: PeerID, p': Part)
    decreases p
  {
    if p.sub.None? then
      x in p.peers && !p.peers[x] && p' == p.(peers := p.peers[x := true])
    else
      p'.sub.Some? && p' == p.(sub := p'.sub) && Step(p.sub.value, x, p'.sub.value)
  }

  /** Choices `xs`, in order, lead from `t` to `t'`. */
  ghost predicate Run(t: Tree, xs: seq<PeerID>, t': Tree) {
    if xs == [] then t == t'
    else exists m :: Run(t, Front(xs), m) && Step(m, Last(xs), t')
  }

  // ----- fairness -----

  /** Every partition has given `r` peers, one more if the cursor passed it, or all it has. */
  ghost predicate FairRound(t: Tree, r: nat) {
    forall i :: 0 <= i < |t.parts| ==>
      Given(t.parts[i]) == Min(Size(t.parts[i]), r + if i < t.cursor then 1 else 0)
  }

  /** The cursor is in range and the round-robin is exact, at this node and below it. */
  ghost predicate Fair(t: Tree)
    decreases t, 0
  {
    && (t.parts != [] ==> t.cursor < |t.parts|)
    && (exists r: nat :: FairRound(t, r))
    && forall i :: 0 <= i < |t.parts| ==> PartFair(t.parts[i])
  }

  ghost predicate PartFair(p: Part)
    decreases p
  {
    p.sub.Some? ==> Fair(p.sub.value)
  }

  // ----- sums over partitions -----

  lemma {:induction false} PeersUpdate(ps: seq<Part>, k: int, q: Part, b: bool)
    requires 0 <= k < |ps|
    ensures SeqPeers(ps[k := q], b) + PartPeers(ps[k], b) == SeqPeers(ps, b) + PartPeers(q, b)
  {
    if k == 0 {
      assert ps[0 := q][1..] == ps[1..];
    } else {
      PeersUpdate(ps[1..], k - 1, q, b);
      assert ps[k := q][1..] == ps[1..][k - 1 := q];
      var first, rest, rest' := PartPeers(ps[0], b), SeqPeers(ps[1..], b), SeqPeers(ps[1..][k - 1 := q], b);
      Associate(first, rest', PartPeers(ps[k], b));
      Associate(first, rest, PartPeers(q, b));
    }
  }

  lemma Associate<T>(a: multiset<T>, b: multiset<T>, c: multiset<T>)
    ensures a + b + c == a + (b + c)
  {
  }

  lemma {:induction false} PeersMember(ps: seq<Part>, k: int, b: bool)
    requires 0 <= k < |ps|
    ensures PartPeers(ps[k], b) <= SeqPeers(ps, b)
  {
    if k > 0 {
      PeersMember(ps[1..], k - 1, b);
    }
  }

  /** What is below a list of partitions is below one of them. */
  lemma {:induction false} PeersWitness(ps: seq<Part>, x: PeerID, b: bool) returns (k: int)
    requires x in SeqPeers(ps, b)
    ensures 0 <= k < |ps| && x in PartPeers(ps[k], b)
  {
    if x in PartPeers(ps[0], b) {
      k := 0;
    } else {
      k := PeersWitness(ps[1..], x, b);
      k := k + 1;
    }
  }

  /** Nothing is left in the tree exactly when nothing is left in each partition. */
  lemma Exhausted(t: Tree)
    ensures Peers(t, true) == multiset{} <==> forall i :: 0 <= i < |t.parts| ==> !Live(t.parts[i])
  {
    forall i | 0 <= i < |t.parts| && Live(t.parts[i])
      ensures Peers(t, true) != multiset{}
    {
      PeersMember(t.parts, i, true);
    }
    if Peers(t, true) != multiset{} {
      var x :| x in Peers(t, true);
      var k := PeersWitness(t.parts, x, true);
    }
  }

  lemma {:induction false} UnusedAmongAll(p: Part)
    ensures PartPeers(p, true) <= PartPeers(p, false)
    decreases p
  {
    if p.sub.None? {
      assert Keys(p.peers, true) <= Keys(p.peers, false);
    } else {
      SeqUnusedAmongAll(p.sub.value.parts);
    }
  }

  lemma {:induction false} SeqUnusedAmongAll(ps: seq<Part>)
    ensures SeqPeers(ps, true) <= SeqPeers(ps, false)
    decreases ps
  {
    if ps != [] {
      UnusedAmongAll(ps[0]);
      SeqUnusedAmongAll(ps[1..]);
    }
  }

  lemma SumCancelOne<T>(a: multiset<T>, p: multiset<T>, b: multiset<T>, e: T)
    requires a + p == b + (p - multiset{e}) && e in p && p <= b
    ensures e in b && a == b - multiset{e}
  {
    forall x
      ensures a[x] == (b - multiset{e})[x]
    {
      assert (a + p)[x] == (b + (p - multiset{e}))[x];
    }
  }

  // ----- one step -----

  /** A step gives away exactly one unused peer and keeps the set of leaf peers. */
  lemma {:induction false} StepPeers(t: Tree, x: PeerID, t': Tree)
    requires Step(t, x, t')
    ensures Peers(t', false) == Peers(t, false)
    ensures x in Peers(t, true)
    ensures Peers(t', true) == Peers(t, true) - multiset{x}
    decreases t
  {
    var k :| 0 <= k < |t.parts| && PickedAt(t, k, x, t');
    var p, p' := t.parts[k], t'.parts[k];
    PartStepPeers(p, x, p');
    PeersUpdate(t.parts, k, p', false);
    PeersUpdate(t.parts, k, p', true);
    PeersMember(t.parts, k, true);
    SumCancel(Peers(t', false), PartPeers(p, false), Peers(t, false));
    SumCancelOne(Peers(t', true), PartPeers(p, true), Peers(t, true), x);
  }

  lemma {:induction false} PartStepPeers(p: Part, x: PeerID, p': Part)
    requires PartStep(p, x, p')
    ensures PartPeers(p', false) == PartPeers(p, false)
    ensures x in PartPeers(p, true)
    ensures PartPeers(p', true) == PartPeers(p, true) - multiset{x}
    decreases p
  {
    if p.sub.None? {
      assert Keys(p'.peers, false) == Keys(p.peers, false);
      assert Keys(p'.peers, true) == Keys(p.peers, true) - {x};
    } else {
      StepPeers(p.sub.value, x, p'.sub.value);
    }
  }

  lemma StepCounts(p: Part, x: PeerID, p': Part)
    requires PartStep(p, x, p')
    ensures Size(p') == Size(p) && Given(p') == Given(p) + 1 && Given(p') <= Size(p')
  {
    PartStepPeers(p, x, p');
    assert |PartPeers(p', true)| == |PartPeers(p, true)| - 1;
  }

  lemma DeadCounts(p: Part)
    ensures !Live(p) <==> Given(p) == Size(p)
    ensures 0 <= Given(p) <= Size(p)
  {
    UnusedAmongAll(p);
    assert PartPeers(p, false) == PartPeers(p, true) + (PartPeers(p, false) - PartPeers(p, true));
  }

  /** The round-robin stays exact over one choice, wherever the cursor has to wrap. */
  lemma RoundStep(t: Tree, k: int, x: PeerID, t': Tree, r: nat)
    requires FairRound(t, r) && t.cursor < |t.parts|
    requires 0 <= k < |t.parts| && PickedAt(t, k, x, t')
    ensures exists r': nat :: FairRound(t', r')
  {
    var n := |t.parts|;
    StepCounts(t.parts[k], x, t'.parts[k]);
    forall i | 0 <= i < n
      ensures !Live(t.parts[i]) <==> Given(t.parts[i]) == Size(t.parts[i])
      ensures 0 <= Given(t.parts[i]) <= Size(t.parts[i])
    {
      DeadCounts(t.parts[i]);
    }
    var r' := if k < t.cursor || k + 1 == n then r + 1 else r;
    forall i | 0 <= i < n
      ensures Given(t'.parts[i]) == Min(Size(t'.parts[i]), r' + if i < t'.cursor then 1 else 0)
    {
      assert i != k ==> t'.parts[i] == t.parts[i];
    }
    assert FairRound(t', r');
  }

  lemma {:induction false} StepFair(t: Tree, x: PeerID, t': Tree)
    requires Fair(t) && Step(t, x, t')
    ensures Fair(t')
    decreases t
  {
    var k :| 0 <= k < |t.parts| && PickedAt(t, k, x, t');
    var r: nat :| FairRound(t, r);
    RoundStep(t, k, x, t', r);
    forall i | 0 <= i < |t'.parts|
      ensures PartFair(t'.parts[i])
    {
      if i == k {
        PartStepFair(t.parts[k], x, t'.parts[k]);
      } else {
        assert t'.parts[i] == t.parts[i];
      }
    }
  }

  lemma {:induction false} PartStepFair(p: Part, x: PeerID, p': Part)
    requires PartFair(p) && PartStep(p, x, p')
    ensures PartFair(p')
    decreases p
  {
    if p.sub.Some? {
      StepFair(p.sub.value, x, p'.sub.value);
    }
  }

  // ----- whole runs -----

  /** As built: no peer picked and every cursor at its first partition. */
  ghost predicate Fresh(t: Tree)
    decreases t, 0
  {
    t.cursor == 0 && forall i :: 0 <= i < |t.parts| ==> PartFresh(t.parts[i])
  }

  ghost predicate PartFresh(p: Part)
    decreases p
  {
    && (forall x :: x in p.peers ==> !p.peers[x])
    && (p.sub.Some? ==> Fresh(p.sub.value))
  }

  lemma {:induction false} FreshUnused(p: Part)
    requires PartFresh(p)
    ensures PartPeers(p, true) == PartPeers(p, false)
    decreases p
  {
    if p.sub.None? {
      assert Keys(p.peers, true) == Keys(p.peers, false);
    } else {
      SeqFreshUnused(p.sub.value.parts);
    }
  }

  lemma {:induction false} SeqFreshUnused(ps: seq<Part>)
    requires forall i :: 0 <= i < |ps| ==> PartFresh(ps[i])
    ensures SeqPeers(ps, true) == SeqPeers(ps, false)
    decreases ps
  {
    if ps != [] {
      FreshUnused(ps[0]);
      SeqFreshUnused(ps[1..]);
    }
  }

  lemma {:induction false} FreshFair(t: Tree)
    requires Fresh(t)
    ensures Fair(t)
    decreases t
  {
    forall i | 0 <= i < |t.parts|
      ensures PartFair(t.parts[i]) && Given(t.parts[i]) == 0
    {
      FreshUnused(t.parts[i]);
      if t.parts[i].sub.Some? {
        FreshFair(t.parts[i].sub.value);
      }
    }
    assert FairRound(t, 0);
  }

  /** The round-robin is exact at every node after any number of choices. */
  lemma {:induction false} RunFair(t: Tree, xs: seq<PeerID>, t': Tree)
    requires Fresh(t) && Run(t, xs, t')
    ensures Fair(t')
  {
    if xs == [] {
      FreshFair(t);
    } else {
      var m :| Run(t, Front(xs), m) && Step(m, Last(xs), t');
      RunFair(t, Front(xs), m);
      StepFair(m, Last(xs), t');
    }
  }

  /** A run hands out each unused leaf peer at most once, and loses none. */
  lemma {:induction false} RunPeers(t: Tree, xs: seq<PeerID>, t': Tree)
    requires Run(t, xs, t')
    ensures Peers(t', false) == Peers(t, false)
    ensures Peers(t, true) == multiset(xs) + Peers(t', true)
  {
    if xs != [] {
      var m :| Run(t, Front(xs), m) && Step(m, Last(xs), t');
      RunPeers(t, Front(xs), m);
      StepPeers(m, Last(xs), t');
      FrontLast(xs);
      assert Peers(m, true) == multiset{Last(xs)} + Peers(t', true);
      Associate(multiset(Front(xs)), multiset{Last(xs)}, Peers(t', true));
    }
  }

  ghost predicate DisjointParts(t: Tree) {
    forall i, j :: 0 <= i < j < |t.parts| ==> PartPeers(t.parts[i], false) !! PartPeers(t.parts[j], false)
  }

  /** Those of `xs` that lie in `pool`. */
  ghost function From(xs: seq<PeerID>, pool: multiset<PeerID>): multiset<PeerID> {
    if xs == [] then multiset{}
    else From(Front(xs), pool) + Share(Last(xs), pool)
  }

  ghost function Share(x: PeerID, pool: multiset<PeerID>): multiset<PeerID> {
    if x in pool then multiset{x} else multiset{}
  }

  lemma StepParts(t: Tree, x: PeerID, t': Tree) returns (k: int)
    requires Step(t, x, t')
    ensures PickedAt(t, k, x, t') && 0 <= k < |t.parts| == |t'.parts|
    ensures x in PartPeers(t.parts[k], false) && x in PartPeers(t.parts[k], true)
    ensures PartPeers(t'.parts[k], true) == PartPeers(t.parts[k], true) - multiset{x}
    ensures forall i :: 0 <= i < |t.parts| && i != k ==> t'.parts[i] == t.parts[i]
    ensures forall i :: 0 <= i < |t.parts| ==> PartPeers(t'.parts[i], false) == PartPeers(t.parts[i], false)
  {
    k :| 0 <= k < |t.parts| && PickedAt(t, k, x, t');
    PartStepPeers(t.parts[k], x, t'.parts[k]);
    UnusedAmongAll(t.parts[k]);
    assert t'.parts == t.parts[k := t'.parts[k]];
  }

  /** The picks of a run that lie in a partition are exactly what that partition gave. */
  lemma {:induction false} RunParts(t: Tree, xs: seq<PeerID>, t': Tree, i: int)
    requires Run(t, xs, t') && DisjointParts(t) && 0 <= i < |t.parts|
    ensures |t'.parts| == |t.parts| && DisjointParts(t')
    ensures PartPeers(t'.parts[i], false) == PartPeers(t.parts[i], false)
    ensures PartPeers(t.parts[i], true) == From(xs, PartPeers(t.parts[i], false)) + PartPeers(t'.parts[i], true)
  {
    if xs != [] {
      var x := Last(xs);
      var m :| Run(t, Front(xs), m) && Step(m, x, t');
      RunParts(t, Front(xs), m, i);
      StepPart(m, x, t', i);
      var pool := PartPeers(t.parts[i], false);
      Associate(From(Front(xs), pool), Share(x, pool), PartPeers(t'.parts[i], true));
    }
  }

  lemma StepPart(t: Tree, x: PeerID, t': Tree, i: int)
    requires Step(t, x, t') && DisjointParts(t) && 0 <= i < |t.parts|
    ensures |t'.parts| == |t.parts| && DisjointParts(t')
    ensures PartPeers(t'.parts[i], false) == PartPeers(t.parts[i], false)
    ensures PartPeers(t.parts[i], true) == Share(x, PartPeers(t.parts[i], false)) + PartPeers(t'.parts[i], true)
  {
    var k := StepParts(t, x, t');
    if k == i {
      assert PartPeers(t.parts[i], true) == multiset{x} + PartPeers(t'.parts[i], true);
    } else {
      assert x !in PartPeers(t.parts[i], false);
    }
  }

  lemma {:induction false} RunPrefix(t: Tree, xs: seq<PeerID>, t': Tree, n: int) returns (m: Tree)
    requires Run(t, xs, t') && 0 <= n <= |xs|
    ensures Run(t, xs[..n], m)
  {
    if n == |xs| {
      assert xs[..n] == xs;
      m := t';
    } else {
      var l :| Run(t, Front(xs), l) && Step(l, Last(xs), t');
      m := RunPrefix(t, Front(xs), l, n);
      assert Front(xs)[..n] == xs[..n];
    }
  }

  /** The picks `xs` took `r` peers from each partition, `r + 1` before position `c`, or all it has. */
  ghost predicate EvenlySpread(t: Tree, xs: seq<PeerID>, r: nat, c: nat) {
    forall i :: 0 <= i < |t.parts| ==>
      |From(xs, PartPeers(t.parts[i], false))| == Min(Size(t.parts[i]), r + if i < c then 1 else 0)
  }

  // ----- at every node -----

  /** At this node and below it, the picks that lie under the node are spread evenly over its partitions. */
  ghost predicate EvenlyDeep(t: Tree, xs: seq<PeerID>)
    decreases t, 0
  {
    && (exists r: nat, c: nat :: EvenlySpread(t, xs, r, c))
    && forall i :: 0 <= i < |t.parts| ==> PartEvenly(t.parts[i], xs)
  }

  ghost predicate PartEvenly(p: Part, xs: seq<PeerID>)
    decreases p
  {
    p.sub.Some? ==> EvenlyDeep(p.sub.value, xs)
  }

  /** No two partitions of any node share a peer. */
  ghost predicate DeepDisjoint(t: Tree)
    decreases t, 0
  {
    DisjointParts(t) && forall i :: 0 <= i < |t.parts| ==> PartDisjoint(t.parts[i])
  }

  ghost predicate PartDisjoint(p: Part)
    decreases p
  {
    p.sub.Some? ==> DeepDisjoint(p.sub.value)
  }

  /** At this node and below it, each partition has given exactly those of the picks `xs` that lie in it. */
  ghost predicate Gave(t: Tree, xs: seq<PeerID>, t': Tree)
    decreases t, 0
  {
    |t'.parts| == |t.parts| && forall i :: 0 <= i < |t.parts| ==> PartGave(t.parts[i], xs, t'.parts[i])
  }

  ghost predicate PartGave(p: Part, xs: seq<PeerID>, p': Part)
    decreases p
  {
    && PartPeers(p', false) == PartPeers(p, false)
    && PartPeers(p, true) == From(xs, PartPeers(p, false)) + PartPeers(p', true)
    && (p.sub.None? <==> p'.sub.None?)
    && (p.sub.Some? ==> Gave(p.sub.value, xs, p'.sub.value))
  }

  lemma {:induction false} GaveNothing(p: Part)
    ensures PartGave(p, [], p)
    decreases p
  {
    if p.sub.Some? {
      forall i | 0 <= i < |p.sub.value.parts|
        ensures PartGave(p.sub.value.parts[i], [], p.sub.value.parts[i])
      {
        GaveNothing(p.sub.value.parts[i]);
      }
    }
  }

  /** A pick that lies elsewhere changes nothing. */
  lemma {:induction false} GaveNoMore(p: Part, xs: seq<PeerID>, p': Part, x: PeerID)
    requires PartGave(p, xs, p') && x !in PartPeers(p, false)
    ensures PartGave(p, xs + [x], p')
    decreases p
  {
    FromSnoc(xs, x, PartPeers(p, false));
    if p.sub.Some? {
      var t, t' := p.sub.value, p'.sub.value;
      forall i | 0 <= i < |t.parts|
        ensures PartGave(t.parts[i], xs + [x], t'.parts[i])
      {
        PeersMember(t.parts, i, false);
        GaveNoMore(t.parts[i], xs, t'.parts[i], x);
      }
    }
  }

  lemma FromSnoc(xs: seq<PeerID>, x: PeerID, pool: multiset<PeerID>)
    ensures From(xs + [x], pool) == From(xs, pool) + Share(x, pool)
  {
    SnocParts(xs, x);
  }

  lemma {:induction false} GaveOneMore(t: Tree, xs: seq<PeerID>, m: Tree, x: PeerID, t': Tree)
    requires DeepDisjoint(t) && Gave(t, xs, m) && Step(m, x, t')
    ensures Gave(t, xs + [x], t')
    decreases t
  {
    var k := StepParts(m, x, t');
    assert x in PartPeers(t.parts[k], false);
    forall i | 0 <= i < |t.parts|
      ensures PartGave(t.parts[i], xs + [x], t'.parts[i])
    {
      if i == k {
        PartGaveOneMore(t.parts[k], xs, m.parts[k], x, t'.parts[k]);
      } else {
        assert x !in PartPeers(t.parts[i], false);
        GaveNoMore(t.parts[i], xs, m.parts[i], x);
      }
    }
  }

  lemma {:induction false} PartGaveOneMore(p: Part, xs: seq<PeerID>, m: Part, x: PeerID, p': Part)
    requires PartDisjoint(p) && PartGave(p, xs, m) && PartStep(m, x, p')
    ensures PartGave(p, xs + [x], p')
    decreases p
  {
    var pool := PartPeers(p, false);
    PartStepPeers(m, x, p');
    UnusedAmongAll(m);
    FromSnoc(xs, x, pool);
    assert PartPeers(m, true) == Share(x, pool) + PartPeers(p', true);
    Associate(From(xs, pool), Share(x, pool), PartPeers(p', true));
    if p.sub.Some? {
      GaveOneMore(p.sub.value, xs, m.sub.value, x, p'.sub.value);
    }
  }

  lemma {:induction false} RunGave(t: Tree, xs: seq<PeerID>, t': Tree)
    requires DeepDisjoint(t) && Run(t, xs, t')
    ensures Gave(t, xs, t')
  {
    if xs == [] {
      forall i | 0 <= i < |t.parts|
        ensures PartGave(t.parts[i], [], t.parts[i])
      {
        GaveNothing(t.parts[i]);
      }
    } else {
      var m :| Run(t, Front(xs), m) && Step(m, Last(xs), t');
      RunGave(t, Front(xs), m);
      GaveOneMore(t, Front(xs), m, Last(xs), t');
      FrontLast(xs);
    }
  }

  /** What a fair tree has given since it was fresh is spread evenly at every node. */
  lemma {:induction false} FairIsEven(t: Tree, xs: seq<PeerID>, t': Tree)
    requires Fresh(t) && Gave(t, xs, t') && Fair(t')
    ensures EvenlyDeep(t, xs)
    decreases t
  {
    var r: nat :| FairRound(t', r);
    forall i | 0 <= i < |t.parts|
      ensures |From(xs, PartPeers(t.parts[i], false))| == Min(Size(t.parts[i]), r + if i < t'.cursor then 1 else 0)
      ensures PartEvenly(t.parts[i], xs)
    {
      assert PartGave(t.parts[i], xs, t'.parts[i]) && PartFair(t'.parts[i]) && PartFresh(t.parts[i]);
      FreshUnused(t.parts[i]);
      if t.parts[i].sub.Some? {
        FairIsEven(t.parts[i].sub.value, xs, t'.parts[i].sub.value);
      }
    }
    assert EvenlySpread(t, xs, r, t'.cursor);
  }

  /** However many peers are taken from the front of a run, they are spread evenly at every node. */
  lemma PrefixFairDeep(t: Tree, xs: seq<PeerID>, t': Tree, n: int)
    requires Fresh(t) && DeepDisjoint(t) && Run(t, xs, t') && 0 <= n <= |xs|
    ensures EvenlyDeep(t, xs[..n])
  {
    var m := RunPrefix(t, xs, t', n);
    RunFair(t, xs[..n], m);
    RunGave(t, xs[..n], m);
    FairIsEven(t, xs[..n], m);
  }

  /** Of evenly spread picks no partition has two more than another, unless that one has given all. */
  lemma NearlyEqual(t: Tree, xs: seq<PeerID>, i: int, j: int)
    requires (exists r: nat, c: nat :: EvenlySpread(t, xs, r, c)) && 0 <= i < |t.parts| && 0 <= j < |t.parts|
    ensures var a, b := From(xs, PartPeers(t.parts[i], false)), From(xs, PartPeers(t.parts[j], false));
      |a| <= |b| + 1 || |b| == Size(t.parts[j])
  {
  }

  lemma FromAmong(xs: seq<PeerID>, pool: multiset<PeerID>)
    ensures From(xs, pool) <= multiset(xs)
  {
    if xs != [] {
      assert xs == Front(xs) + [Last(xs)];
    }
  }

  lemma PickedFrom(t: Tree, x: PeerID, t': Tree, i: int)
    requires DisjointParts(t) && Step(t, x, t') && 0 <= i < |t.parts| && x in PartPeers(t.parts[i], false)
    ensures PickedAt(t, i, x, t') && |t'.parts| == |t.parts| && DisjointParts(t')
    ensures forall j :: 0 <= j < |t.parts| && j != i ==> t'.parts[j] == t.parts[j]
    ensures forall j :: 0 <= j < |t.parts| ==> PartPeers(t'.parts[j], false) == PartPeers(t.parts[j], false)
  {
    var k := StepParts(t, x, t');
    assert k == i;
  }

  lemma TwiceFrom(a: Tree, x: PeerID, b: Tree, y: PeerID, c: Tree, i: int, j: int)
    requires DisjointParts(a) && Step(a, x, b) && Step(b, y, c)
    requires 0 <= i < |a.parts| && 0 <= j < |a.parts| && i != j
    requires x in PartPeers(a.parts[i], false) && y in PartPeers(a.parts[i], false)
    ensures !Live(a.parts[j])
  {
    PickedFrom(a, x, b, i);
    PickedFrom(b, y, c, i);
    assert Between(b.cursor, i, j);
  }

  /** Two picks in a row come from one partition only when every other one has nothing left. */
  lemma {:induction false} NeverTwiceInARow(t: Tree, xs: seq<PeerID>, x: PeerID, y: PeerID, t': Tree, i: int, j: int)
    requires DisjointParts(t) && Run(t, xs + [x, y], t')
    requires 0 <= i < |t.parts| && 0 <= j < |t.parts| && i != j
    requires x in PartPeers(t.parts[i], false) && y in PartPeers(t.parts[i], false)
    ensures PartPeers(t.parts[j], true) <= multiset(xs)
  {
    var b: Tree, a: Tree;
    assert Front(xs + [x, y]) == xs + [x];
    b :| Run(t, xs + [x], b) && Step(b, y, t');
    assert Front(xs + [x]) == xs;
    a :| Run(t, xs, a) && Step(a, x, b);
    RunParts(t, xs, a, i);
    RunParts(t, xs, a, j);
    TwiceFrom(a, x, b, y, t', i, j);
    FromAmong(xs, PartPeers(t.parts[j], false));
  }
}

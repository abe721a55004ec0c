/** How a stream of blocks is cut into shards: the reference for the sharding adder. */
module Packing {
  import opened Basics
  import opened Pins

  datatype Block = Block(cid: Cid, size: nat)

  function Cids(bs: seq<Block>): (r: seq<Cid>)
    ensures |r| == |bs| && forall i :: 0 <= i < |bs| ==> r[i] == bs[i].cid
  {
    seq(|bs|, i requires 0 <= i < |bs| => bs[i].cid)
  }

  function Weight(bs: seq<Block>): nat {
    if bs == [] then 0 else Weight(Front(bs)) + Last(bs).size
  }

  ghost function TotalWeight(shards: seq<seq<Block>>): nat {
    if shards == [] then 0 else TotalWeight(Front(shards)) + Weight(Last(shards))
  }

  /** The blocks whose CID did not occur before. */
  ghost function Dedup(bs: seq<Block>): seq<Block> {
    if bs == [] then []
    else
      var d := Dedup(Front(bs));
      if Last(bs).cid in Cids(d) then d else d + [Last(bs)]
  }

  /** A block goes to the last shard if the size stays below the limit, and otherwise starts a shard. */
  ghost function PackOne(shards: seq<seq<Block>>, b: Block, limit: nat): seq<seq<Block>> {
    if shards != [] && Weight(Last(shards)) + b.size < limit then Front(shards) + [Last(shards) + [b]]
    else shards + [[b]]
  }

  /** The shards of a list of distinct blocks. */
  ghost function Pack(bs: seq<Block>, limit: nat): seq<seq<Block>> {
    if bs == [] then [] else PackOne(Pack(Front(bs), limit), Last(bs), limit)
  }

  // ----- nothing is lost -----

  lemma FlatSnoc(shards: seq<seq<Block>>, s: seq<Block>)
    ensures Concat(shards + [s]) == Concat(shards) + s
    ensures TotalWeight(shards + [s]) == TotalWeight(shards) + Weight(s)
  {
    assert Front(shards + [s]) == shards;
  }

  lemma WeightSnoc(bs: seq<Block>, b: Block)
    ensures Weight(bs + [b]) == Weight(bs) + b.size
  {
    assert Front(bs + [b]) == bs;
  }

  lemma PackOneFlat(shards: seq<seq<Block>>, b: Block, limit: nat)
    ensures Concat(PackOne(shards, b, limit)) == Concat(shards) + [b]
    ensures TotalWeight(PackOne(shards, b, limit)) == TotalWeight(shards) + b.size
  {
    if shards != [] && Weight(Last(shards)) + b.size < limit {
      FlatSnoc(Front(shards), Last(shards) + [b]);
      WeightSnoc(Last(shards), b);
    } else {
      FlatSnoc(shards, [b]);
      WeightSnoc([], b);
      assert [] + [b] == [b];
    }
  }

  /** The shards in order hold exactly the blocks, in their order, and weigh as much. */
  lemma {:induction false} PackKeepsAll(bs: seq<Block>, limit: nat)
    ensures Concat(Pack(bs, limit)) == bs
    ensures TotalWeight(Pack(bs, limit)) == Weight(bs)
  {
    if bs != [] {
      PackKeepsAll(Front(bs), limit);
      PackOneFlat(Pack(Front(bs), limit), Last(bs), limit);
      FrontLast(bs);
    }
  }

  /** The distinct blocks are those of the input, each CID once. */
  lemma {:induction false} DedupIs(bs: seq<Block>)
    ensures NoDup(Cids(Dedup(bs)))
    ensures forall c :: c in Cids(Dedup(bs)) <==> c in Cids(bs)
  {
    if bs != [] {
      var f, l := Front(bs), Last(bs);
      DedupIs(f);
      assert Cids(bs) == Cids(f) + [l.cid];
      if l.cid !in Cids(Dedup(f)) {
        assert Cids(Dedup(bs)) == Cids(Dedup(f)) + [l.cid];
      }
    }
  }

  /** A block with a new CID comes after exactly the distinct blocks before it. */
  lemma {:induction false} FirstOccurrence(bs: seq<Block>, i: int)
    requires 0 <= i < |bs| && bs[i].cid !in Cids(bs[..i])
    ensures Dedup(bs[..i]) + [bs[i]] <= Dedup(bs)
  {
    var f := Front(bs);
    if i == |bs| - 1 {
      DedupIs(f);
    } else {
      assert f[..i] == bs[..i];
      FirstOccurrence(f, i);
    }
  }

  lemma {:induction false} FlatMember(shards: seq<seq<Block>>, k: int, c: Cid) returns (i: int)
    requires 0 <= k < |shards| && c in Cids(shards[k])
    ensures 0 <= i < |Concat(shards)| && Concat(shards)[i].cid == c
    ensures k < |shards| - 1 ==> i < |Concat(Front(shards))|
    ensures k == |shards| - 1 ==> i >= |Concat(Front(shards))|
  {
    if k == |shards| - 1 {
      var j :| 0 <= j < |shards[k]| && shards[k][j].cid == c;
      i := |Concat(Front(shards))| + j;
    } else {
      i := FlatMember(Front(shards), k, c);
    }
  }

  /** When no CID repeats, each is in one shard only. */
  lemma {:induction false} OneShard(shards: seq<seq<Block>>, k: int, l: int, c: Cid)
    requires NoDup(Cids(Concat(shards))) && 0 <= k < l < |shards|
    ensures !(c in Cids(shards[k]) && c in Cids(shards[l]))
    decreases shards
  {
    var f := Front(shards);
    if c in Cids(shards[k]) && c in Cids(shards[l]) {
      if l == |shards| - 1 {
        var i := FlatMember(shards, k, c);
        var j := FlatMember(shards, l, c);
      } else {
        assert Cids(Concat(f)) == Cids(Concat(shards))[..|Concat(f)|];
        OneShard(f, k, l, c);
      }
    }
  }

  // ----- shard sizes -----

  /** No shard is empty or reaches the limit, and each was closed only because the next block did not fit. */
  ghost predicate NextFit(shards: seq<seq<Block>>, limit: nat) {
    && (forall k :: 0 <= k < |shards| ==> shards[k] != [] && Weight(shards[k]) < limit)
    && (forall k :: 0 <= k < |shards| - 1 ==> Weight(shards[k]) + shards[k + 1][0].size >= limit)
  }

  lemma PackOneFits(shards: seq<seq<Block>>, b: Block, limit: nat)
    requires NextFit(shards, limit) && b.size < limit
    ensures NextFit(PackOne(shards, b, limit), limit)
  {
    var r := PackOne(shards, b, limit);
    if shards != [] && Weight(Last(shards)) + b.size < limit {
      WeightSnoc(Last(shards), b);
      assert forall k :: 0 <= k < |r| - 1 ==> r[k] == shards[k];
      assert Last(r)[0] == Last(shards)[0];
    } else {
      WeightSnoc([], b);
      assert [] + [b] == [b];
      assert forall k :: 0 <= k < |r| - 1 ==> r[k] == shards[k];
    }
  }

  lemma {:induction false} PackFits(bs: seq<Block>, limit: nat)
    requires forall i :: 0 <= i < |bs| ==> bs[i].size < limit
    ensures NextFit(Pack(bs, limit), limit)
  {
    if bs != [] {
      PackFits(Front(bs), limit);
      PackOneFits(Pack(Front(bs), limit), Last(bs), limit);
    }
  }

  lemma FirstWeighs(s: seq<Block>)
    requires s != []
    ensures s[0].size <= Weight(s)
    decreases s
  {
    if |s| > 1 {
      FirstWeighs(Front(s));
    }
  }

  /** Two neighbouring shards together reach the limit, so few shards are used for a given total. */
  lemma {:induction false} NextFitBound(shards: seq<seq<Block>>, limit: nat)
    requires NextFit(shards, limit)
    ensures |shards| / 2 * limit <= TotalWeight(shards)
    decreases shards
  {
    if |shards| >= 2 {
      var f := Front(shards);
      var g := Front(f);
      assert NextFit(g, limit) by {
        assert forall k :: 0 <= k < |g| ==> g[k] == shards[k];
      }
      NextFitBound(g, limit);
      FirstWeighs(Last(shards));
      assert Last(f) == shards[|shards| - 2] && Last(shards) == shards[|shards| - 2 + 1];
      assert Weight(Last(f)) + Weight(Last(shards)) >= limit;
      assert |shards| / 2 == |g| / 2 + 1;
      assert (|g| / 2 + 1) * limit == |g| / 2 * limit + limit;
    }
  }

  /** The shards of an upload whose blocks all fit: every distinct block in one shard, in order, and few shards. */
  lemma UploadShards(nodes: seq<Block>, limit: nat)
    requires forall b :: b in Dedup(nodes) ==> b.size < limit
    ensures var shards := Pack(Dedup(nodes), limit);
      && Concat(shards) == Dedup(nodes)
      && NoDup(Cids(Concat(shards)))
      && (forall c :: c in Cids(Concat(shards)) <==> c in Cids(nodes))
      && NextFit(shards, limit)
      && TotalWeight(shards) == Weight(Dedup(nodes))
      && |shards| / 2 * limit <= Weight(Dedup(nodes))
  {
    var bs := Dedup(nodes);
    DedupIs(nodes);
    PackKeepsAll(bs, limit);
    PackFits(bs, limit);
    NextFitBound(Pack(bs, limit), limit);
  }

  /** A shard that is closed stays as it is when more blocks are packed. */
  lemma {:induction false} ClosedStays(bs: seq<Block>, n: int, limit: nat)
    requires 0 < n <= |bs|
    ensures Pack(bs[..n], limit) != [] && Pack(bs, limit) != []
    ensures Front(Pack(bs[..n], limit)) <= Front(Pack(bs, limit))
    decreases bs
  {
    if n == |bs| {
      assert bs[..n] == bs;
    } else {
      ClosedStays(Front(bs), n, limit);
      assert Front(bs)[..n] == bs[..n];
      KeepsClosed(Pack(Front(bs), limit), Last(bs), limit);
    }
  }

  lemma KeepsClosed(shards: seq<seq<Block>>, b: Block, limit: nat)
    requires shards != []
    ensures PackOne(shards, b, limit) != [] && Front(shards) <= Front(PackOne(shards, b, limit))
  {
    var r := PackOne(shards, b, limit);
    assert Front(r) == Front(shards) || Front(r) == shards;
    FrontLast(shards);
  }

  /** A shard that is closed while the first blocks of an upload are added is one of its shards, and not the last. */
  lemma ClosedShard(nodes: seq<Block>, i: int, limit: nat)
    requires 0 <= i < |nodes| && nodes[i].cid !in Cids(nodes[..i]) && Pack(Dedup(nodes[..i]), limit) != []
    requires PackOne(Pack(Dedup(nodes[..i]), limit), nodes[i], limit) == Pack(Dedup(nodes[..i]), limit) + [[nodes[i]]]
    ensures var before, all := Pack(Dedup(nodes[..i]), limit), Pack(Dedup(nodes), limit);
      |before| < |all| && Last(before) == all[|before| - 1]
  {
    var bs, d := Dedup(nodes), Dedup(nodes[..i]);
    var before := Pack(d, limit);
    FirstOccurrence(nodes, i);
    var n := |d| + 1;
    assert bs[..n] == d + [nodes[i]];
    SnocParts(d, nodes[i]);
    assert Pack(bs[..n], limit) == before + [[nodes[i]]];
    ClosedStays(bs, n, limit);
    assert Front(before + [[nodes[i]]]) == before;
  }

  lemma DedupStep(nodes: seq<Block>, i: int, limit: nat)
    requires 0 <= i < |nodes|
    ensures Elements(Cids(nodes[..i + 1])) == Elements(Cids(nodes[..i])) + {nodes[i].cid}
    ensures nodes[i].cid in Elements(Cids(nodes[..i])) ==> Dedup(nodes[..i + 1]) == Dedup(nodes[..i])
    ensures nodes[i].cid !in Elements(Cids(nodes[..i])) ==>
      && Dedup(nodes[..i + 1]) == Dedup(nodes[..i]) + [nodes[i]]
      && Pack(Dedup(nodes[..i + 1]), limit) == PackOne(Pack(Dedup(nodes[..i]), limit), nodes[i], limit)
  {
    var d := Dedup(nodes[..i]);
    assert Front(nodes[..i + 1]) == nodes[..i];
    assert Cids(nodes[..i + 1]) == Cids(nodes[..i]) + [nodes[i].cid];
    DedupIs(nodes[..i]);
    assert Front(d + [nodes[i]]) == d;
  }
}

/** The CIDs of link DAGs: when they differ, what is stored under them and how it is read back. */
module ShardRoots {
  import opened Basics
  import opened Pins
  import opened Pinset
  import opened ShardDag
  import opened Packing

  ghost function RootCid(hash: Links -> Cid, links: seq<Cid>): Cid {
    hash(DagNodes(hash, links)[0])
  }

  ghost function Roots(hash: Links -> Cid, shards: seq<seq<Block>>): (r: seq<Cid>)
    ensures |r| == |shards| && forall k :: 0 <= k < |shards| ==> r[k] == RootCid(hash, Cids(shards[k]))
  {
    seq(|shards|, k requires 0 <= k < |shards| => RootCid(hash, Cids(shards[k])))
  }

  lemma RootsSnoc(hash: Links -> Cid, closed: seq<seq<Block>>, bs: seq<Block>)
    ensures Roots(hash, closed + [bs]) == Roots(hash, closed) + [RootCid(hash, Cids(bs))]
  {
  }

  /** The shards of an upload. */
  ghost function UploadRoots(hash: Links -> Cid, nodes: seq<Block>, limit: nat): seq<Cid> {
    Roots(hash, Pack(Dedup(nodes), limit))
  }

  ghost predicate AllFit(nodes: seq<Block>, limit: nat) {
    forall b :: b in Dedup(nodes) ==> b.size < limit
  }

  // ----- distinct roots -----

  ghost predicate Injective(hash: Links -> Cid) {
    forall a, b :: hash(a) == hash(b) ==> a == b
  }

  /** No two nodes have the same CID, and no node has the CID of a block that is added. */
  ghost predicate GoodHash(hash: Links -> Cid, bs: seq<Block>) {
    && Injective(hash)
    && (forall a, i :: 0 <= i < |bs| ==> hash(a) != bs[i].cid)
  }

  lemma LinkMapInjective(a: seq<Cid>, b: seq<Cid>)
    requires LinkMap(a) == LinkMap(b)
    ensures a == b
  {
    EntriesOfLinkMap(a);
    EntriesOfLinkMap(b);
  }

  lemma SameLeaves(hash: Links -> Cid, a: seq<Links>, b: seq<Links>)
    requires Injective(hash) && LinkMap(Hashes(hash, a)) == LinkMap(Hashes(hash, b))
    ensures a == b
  {
    LinkMapInjective(Hashes(hash, a), Hashes(hash, b));
    assert |a| == |Hashes(hash, a)| == |b|;
    forall i | 0 <= i < |a|
      ensures a[i] == b[i]
    {
      assert hash(a[i]) == Hashes(hash, a)[i] == hash(b[i]);
    }
  }

  /** Different link lists of blocks have different roots, whether or not they need leaves. */
  lemma RootInjective(hash: Links -> Cid, bs: seq<Block>, cs: seq<Block>)
    requires GoodHash(hash, bs) && GoodHash(hash, cs) && RootCid(hash, Cids(bs)) == RootCid(hash, Cids(cs))
    ensures Cids(bs) == Cids(cs)
  {
    var a, b := Cids(bs), Cids(cs);
    assert DagNodes(hash, a)[0] == DagNodes(hash, b)[0];
    if |a| <= MAX_LINKS && |b| <= MAX_LINKS {
      LinkMapInjective(a, b);
    } else if |a| > MAX_LINKS && |b| > MAX_LINKS {
      SameDags(hash, a, b);
    } else if |a| <= MAX_LINKS {
      NotAllLeaves(hash, bs, b);
    } else {
      NotAllLeaves(hash, cs, a);
    }
  }

  lemma SameDags(hash: Links -> Cid, a: seq<Cid>, b: seq<Cid>)
    requires Injective(hash) && |a| > MAX_LINKS && |b| > MAX_LINKS && DagNodes(hash, a)[0] == DagNodes(hash, b)[0]
    ensures a == b
  {
    RootNode(hash, a);
    RootNode(hash, b);
    SameLeaves(hash, Leaves(a, |a| / MAX_LINKS + 1), Leaves(b, |b| / MAX_LINKS + 1));
    WholeLeaves(a);
    WholeLeaves(b);
  }

  lemma WholeLeaves(links: seq<Cid>)
    ensures Concat(AllEntries(Leaves(links, |links| / MAX_LINKS + 1))) == links
  {
    ConcatLeaves(links, |links| / MAX_LINKS + 1);
    assert links[..|links|] == links;
  }

  lemma NotAllLeaves(hash: Links -> Cid, bs: seq<Block>, links: seq<Cid>)
    requires GoodHash(hash, bs) && |links| > MAX_LINKS
    ensures LinkMap(Cids(bs)) != DagNodes(hash, links)[0]
  {
    var hashes := Hashes(hash, Leaves(links, |links| / MAX_LINKS + 1));
    RootNode(hash, links);
    assert hashes[0] == hash(Leaves(links, |links| / MAX_LINKS + 1)[0]);
    assert bs != [] ==> Cids(bs)[0] == bs[0].cid != hashes[0];
    if LinkMap(Cids(bs)) == LinkMap(hashes) {
      LinkMapInjective(Cids(bs), hashes);
    }
  }

  lemma ShardHash(hash: Links -> Cid, nodes: seq<Block>, shards: seq<seq<Block>>, k: int)
    requires GoodHash(hash, nodes) && 0 <= k < |shards| && forall c :: c in Cids(Concat(shards)) <==> c in Cids(nodes)
    ensures GoodHash(hash, shards[k])
  {
    forall a, i | 0 <= i < |shards[k]|
      ensures hash(a) != shards[k][i].cid
    {
      var n := WhereAdded(nodes, shards, k, i);
      assert hash(a) != nodes[n].cid;
    }
  }

  lemma WhereAdded(nodes: seq<Block>, shards: seq<seq<Block>>, k: int, i: int) returns (n: int)
    requires 0 <= k < |shards| && 0 <= i < |shards[k]| && forall c :: c in Cids(Concat(shards)) <==> c in Cids(nodes)
    ensures 0 <= n < |nodes| && nodes[n].cid == shards[k][i].cid
  {
    var c := shards[k][i].cid;
    assert Cids(shards[k])[i] == c;
    var j := FlatMember(shards, k, c);
    var all := Cids(Concat(shards));
    assert all[j] == c;
    assert c in all;
    var cids := Cids(nodes);
    n :| 0 <= n < |cids| && cids[n] == c;
  }

  /** All shards of an upload have different CIDs, so each refers to the one before it. */
  lemma DistinctRoots(hash: Links -> Cid, nodes: seq<Block>, limit: nat, k: int, l: int)
    requires GoodHash(hash, nodes) && AllFit(nodes, limit)
    requires 0 <= k < l < |Pack(Dedup(nodes), limit)|
    ensures UploadRoots(hash, nodes, limit)[k] != UploadRoots(hash, nodes, limit)[l]
  {
    var shards := Pack(Dedup(nodes), limit);
    UploadShards(nodes, limit);
    ShardHash(hash, nodes, shards, k);
    ShardHash(hash, nodes, shards, l);
    OneShard(shards, k, l, shards[k][0].cid);
    assert Cids(shards[k])[0] == shards[k][0].cid;
    if RootCid(hash, Cids(shards[k])) == RootCid(hash, Cids(shards[l])) {
      RootInjective(hash, shards[k], shards[l]);
    }
  }

  /** No leaf of the cluster DAG is the root of a shard. */
  lemma LeafIsNoRoot(hash: Links -> Cid, nodes: seq<Block>, limit: nat, i: nat, k: int)
    requires GoodHash(hash, nodes) && AllFit(nodes, limit)
    requires var roots := UploadRoots(hash, nodes, limit);
      |roots| > MAX_LINKS && i <= |roots| / MAX_LINKS && 0 <= k < |roots|
    ensures var roots := UploadRoots(hash, nodes, limit);
      hash(LinkMap(LeafLinks(roots, i))) != roots[k]
  {
    var roots := UploadRoots(hash, nodes, limit);
    UploadShards(nodes, limit);
    if LeafLinks(roots, i) != [] {
      LeafStart(roots, i);
    }
    RootsAreNoShard(hash, nodes, Pack(Dedup(nodes), limit), i * MAX_LINKS, k, LeafLinks(roots, i));
  }

  /** Above `MAX_LINKS` shards, the root of the cluster DAG links to none of them. */
  lemma ShardsNotLinked(hash: Links -> Cid, nodes: seq<Block>, limit: nat, k: int)
    requires GoodHash(hash, nodes) && AllFit(nodes, limit)
    requires var roots := UploadRoots(hash, nodes, limit);
      |roots| > MAX_LINKS && 0 <= k < |roots|
    ensures var roots := UploadRoots(hash, nodes, limit);
      roots[k] !in DagNodes(hash, roots)[0].Values
  {
    var roots := UploadRoots(hash, nodes, limit);
    if roots[k] in DagNodes(hash, roots)[0].Values {
      var i := RootLinks(hash, roots, roots[k]);
      LeafIsNoRoot(hash, nodes, limit, i, k);
    }
  }

  /** A node that links to shards, from number `m` on, is not the root of a shard. */
  lemma RootsAreNoShard(hash: Links -> Cid, nodes: seq<Block>, shards: seq<seq<Block>>, m: nat, k: int, links: seq<Cid>)
    requires GoodHash(hash, nodes) && (forall c :: c in Cids(Concat(shards)) <==> c in Cids(nodes))
    requires NoDup(Cids(Concat(shards))) && 0 <= k < |shards| && shards[k] != []
    requires links != [] ==> m < |shards| && links[0] == RootCid(hash, Cids(shards[m]))
    ensures hash(LinkMap(links)) != RootCid(hash, Cids(shards[k]))
  {
    var cids := Cids(shards[k]);
    ShardHash(hash, nodes, shards, k);
    assert cids[0] == shards[k][0].cid && (links != [] ==> links[0] != cids[0]);
    if LinkMap(links) == DagNodes(hash, cids)[0] {
      if |cids| <= MAX_LINKS {
        LinkMapInjective(links, cids);
      } else {
        var hashes := Hashes(hash, Leaves(cids, |cids| / MAX_LINKS + 1));
        RootNode(hash, cids);
        LinkMapInjective(links, hashes);
        RootIsNoLeaf(hash, nodes, shards, m, k);
      }
    }
  }

  /** No root of a shard is the first leaf of a shard. */
  lemma RootIsNoLeaf(hash: Links -> Cid, nodes: seq<Block>, shards: seq<seq<Block>>, m: int, k: int)
    requires GoodHash(hash, nodes) && (forall c :: c in Cids(Concat(shards)) <==> c in Cids(nodes))
    requires NoDup(Cids(Concat(shards))) && 0 <= m < |shards| && 0 <= k < |shards| && |shards[k]| > MAX_LINKS
    ensures RootCid(hash, Cids(shards[m])) != hash(LinkMap(LeafLinks(Cids(shards[k]), 0)))
  {
    var front := shards[k][..MAX_LINKS];
    assert LeafLinks(Cids(shards[k]), 0) == Cids(front);
    ShardHash(hash, nodes, shards, k);
    if |shards[m]| > MAX_LINKS {
      NotAllLeaves(hash, front, Cids(shards[m]));
    } else if LinkMap(Cids(shards[m])) == LinkMap(Cids(front)) {
      LinkMapInjective(Cids(shards[m]), Cids(front));
      var c := shards[k][0].cid;
      assert Cids(shards[k])[0] == c && Cids(front)[0] == c && Cids(shards[m])[0] == c;
      if m < k {
        OneShard(shards, m, k, c);
      } else if k < m {
        OneShard(shards, k, m, c);
      }
    }
  }

  /** Pinned to depth 1, a shard keeps the blocks it links to exactly when it has no more links than a node holds. */
  lemma DepthCoversIff(hash: Links -> Cid, bs: seq<Block>)
    requires GoodHash(hash, bs)
    ensures Elements(Cids(bs)) <= DagNodes(hash, Cids(bs))[0].Values <==> |bs| <= MAX_LINKS
  {
    var links := Cids(bs);
    if |links| <= MAX_LINKS {
      LinkMapValues(links);
    } else {
      var leaves := Leaves(links, |links| / MAX_LINKS + 1);
      LinkMapValues(Hashes(hash, leaves));
      RootNode(hash, links);
      assert forall j :: 0 <= j < |leaves| ==> hash(leaves[j]) != bs[0].cid;
      assert links[0] == bs[0].cid && links[0] in Elements(links);
    }
  }

  // ----- storing and reading back -----

  /** The root of the link DAG is stored: always if it is a single node, and in any case if the hash is injective. */
  ghost predicate HoldsDag(hash: Links -> Cid, links: seq<Cid>, blocks: Blocks) {
    var root := RootCid(hash, links);
    && root in blocks
    && (|links| <= MAX_LINKS || Injective(hash) ==> blocks[root] == DagNodes(hash, links)[0])
  }

  ghost predicate StoredDag(hash: Links -> Cid, links: seq<Cid>, blocks: Blocks) {
    forall i :: 0 <= i < |DagNodes(hash, links)| ==> hash(DagNodes(hash, links)[i]) in blocks
  }

  /** The DAGs of all these shards are stored. */
  ghost predicate AllStored(hash: Links -> Cid, shards: seq<seq<Block>>, blocks: Blocks) {
    forall k :: 0 <= k < |shards| ==> StoredDag(hash, Cids(shards[k]), blocks)
  }

  lemma StoredNext(hash: Links -> Cid, shards: seq<seq<Block>>, b: Blocks, bs: seq<Block>, b': Blocks)
    requires AllStored(hash, shards, b) && BlocksGrow(hash, b, b') && StoredDag(hash, Cids(bs), b')
    ensures AllStored(hash, shards + [bs], b')
  {
    AllStoredLater(hash, shards, b, b');
  }

  lemma StoredLater(hash: Links -> Cid, links: seq<Cid>, b: Blocks, b': Blocks)
    requires StoredDag(hash, links, b) && BlocksGrow(hash, b, b')
    ensures StoredDag(hash, links, b')
  {
  }

  lemma AllStoredLater(hash: Links -> Cid, shards: seq<seq<Block>>, b: Blocks, b': Blocks)
    requires AllStored(hash, shards, b) && BlocksGrow(hash, b, b')
    ensures AllStored(hash, shards, b')
  {
    forall k | 0 <= k < |shards|
      ensures StoredDag(hash, Cids(shards[k]), b')
    {
      StoredLater(hash, Cids(shards[k]), b, b');
    }
  }

  /** Every node is stored under its own CID. */
  ghost predicate ContentAddressed(hash: Links -> Cid, blocks: Blocks) {
    Injective(hash) && forall c :: c in blocks ==> hash(blocks[c]) == c
  }

  /** Storing more nodes keeps all nodes under their own CIDs. */
  lemma StaysContentAddressed(hash: Links -> Cid, b: Blocks, b': Blocks)
    requires ContentAddressed(hash, b) && BlocksGrow(hash, b, b')
    ensures ContentAddressed(hash, b') && forall c :: c in b ==> b'[c] == b[c]
  {
  }

  /** The entries of the stored nodes `cids`. */
  ghost function ReadAll(blocks: Blocks, cids: seq<Cid>): seq<seq<Cid>> {
    seq(|cids|, i requires 0 <= i < |cids| => if cids[i] in blocks then Entries(blocks[cids[i]]) else [])
  }

  /** Reads the links of a shard: those of its root or, if that links to stored nodes, those of its leaves. */
  ghost function ReadLinks(blocks: Blocks, root: Cid): seq<Cid>
    requires root in blocks
  {
    var top := Entries(blocks[root]);
    if top != [] && top[0] in blocks then Concat(ReadAll(blocks, top)) else top
  }

  /** Reading the stored DAG of a shard gives back its blocks, in order. */
  lemma ReadBack(hash: Links -> Cid, bs: seq<Block>, blocks: Blocks)
    requires GoodHash(hash, bs) && ContentAddressed(hash, blocks) && StoredDag(hash, Cids(bs), blocks)
    ensures RootCid(hash, Cids(bs)) in blocks && ReadLinks(blocks, RootCid(hash, Cids(bs))) == Cids(bs)
  {
    var links := Cids(bs);
    var nodes := DagNodes(hash, links);
    assert hash(nodes[0]) in blocks;
    assert blocks[hash(nodes[0])] == nodes[0];
    if |links| <= MAX_LINKS {
      EntriesOfLinkMap(links);
      assert links != [] ==> links[0] == bs[0].cid && links[0] !in blocks;
    } else {
      var n := |links| / MAX_LINKS + 1;
      var leaves := Leaves(links, n);
      RootNode(hash, links);
      EntriesOfLinkMap(Hashes(hash, leaves));
      ReadLeaves(hash, links, blocks);
      WholeLeaves(links);
    }
  }

  lemma ReadLeaves(hash: Links -> Cid, links: seq<Cid>, blocks: Blocks)
    requires |links| > MAX_LINKS && ContentAddressed(hash, blocks) && StoredDag(hash, links, blocks)
    ensures var leaves := Leaves(links, |links| / MAX_LINKS + 1);
      ReadAll(blocks, Hashes(hash, leaves)) == AllEntries(leaves) && Hashes(hash, leaves)[0] in blocks
  {
    var leaves := Leaves(links, |links| / MAX_LINKS + 1);
    forall i | 0 <= i < |leaves|
      ensures hash(leaves[i]) in blocks && blocks[hash(leaves[i])] == leaves[i]
    {
      LeafNode(hash, links, i);
      assert hash(DagNodes(hash, links)[i + 1]) in blocks;
    }
  }

  /** After an upload into nodes that were stored under their own CIDs, every shard can be read back. */
  lemma UploadReadable(hash: Links -> Cid, nodes: seq<Block>, limit: nat, before: Blocks, blocks: Blocks, k: int)
    requires GoodHash(hash, nodes) && AllFit(nodes, limit)
    requires ContentAddressed(hash, before) && BlocksGrow(hash, before, blocks)
    requires AllStored(hash, Pack(Dedup(nodes), limit), blocks) && 0 <= k < |Pack(Dedup(nodes), limit)|
    ensures var root := UploadRoots(hash, nodes, limit)[k];
      root in blocks && ReadLinks(blocks, root) == Cids(Pack(Dedup(nodes), limit)[k])
  {
    StaysContentAddressed(hash, before, blocks);
    UploadShards(nodes, limit);
    ShardHash(hash, nodes, Pack(Dedup(nodes), limit), k);
    ReadBack(hash, Pack(Dedup(nodes), limit)[k], blocks);
  }
}

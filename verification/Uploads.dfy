/** Whole sharded uploads, and what unpinning them leaves of the pinset. */
module Uploads {
  import opened Basics
  import opened Pins
  import opened Allocation
  import opened Pinset
  import opened ClusterOps
  import opened ShardDag
  import opened Packing
  import opened ShardRoots
  import opened Sessions
  import opened Adder

  /** The options of an upload, which is always recursive. */
  ghost function Recursive(opts: PinOptions): PinOptions {
    opts.(mode := RECURSIVE)
  }

  /** Where an upload ends. */
  ghost function UploadProgress(
    hash: Links -> Cid, opts: PinOptions, nodes: seq<Block>, pinset: State, blocks: Blocks,
    sent: seq<seq<PeerID>>): Progress
  {
    Progress(
      pinset, blocks, Pack(Dedup(nodes), opts.shardSize), UploadRoots(hash, nodes, opts.shardSize), sent)
  }

  /** An upload that goes everywhere, whose CIDs are distinct and none of them pinned with another type. */
  ghost predicate CanUpload(cfg: Config, hash: Links -> Cid, opts: PinOptions, s: State, nodes: seq<Block>, root: Cid) {
    && !cfg.followerMode && PlainOptions(Recursive(opts)) && Undef !in s
    && nodes != [] && AllFit(nodes, opts.shardSize)
    && var roots := UploadRoots(hash, nodes, opts.shardSize);
    && (forall k :: 0 <= k < |roots| ==> FreeFor(s, roots[k], SHARD_TYPE))
    && CanFinish(s, roots, RootCid(hash, roots), root)
  }

  lemma ShardsFree(cfg: Config, hash: Links -> Cid, opts: PinOptions, s: State, nodes: seq<Block>, root: Cid)
    requires CanUpload(cfg, hash, opts, s, nodes, root)
    ensures CanAdd(hash, s, nodes, opts.shardSize) && Pack(Dedup(nodes), opts.shardSize) != []
    ensures FreeFor(s, RootCid(hash, Cids(Last(Pack(Dedup(nodes), opts.shardSize)))), SHARD_TYPE)
  {
    var shards := Pack(Dedup(nodes), opts.shardSize);
    var roots := UploadRoots(hash, nodes, opts.shardSize);
    DedupIs(nodes);
    assert nodes[0].cid == Cids(nodes)[0];
    assert forall k :: 0 <= k < |shards| ==> roots[k] == RootCid(hash, Cids(shards[k]));
  }

  /** A whole sharded upload. */
  method Upload(
    hash: Links -> Cid, opts: PinOptions, cluster: Cluster, ctxs: seq<Ctx>, nodes: seq<Block>, ctx: Ctx, dataRoot: Cid)
    returns (ok: bool, ghost sent: seq<seq<PeerID>>)
    requires |ctxs| == |nodes| && (forall i :: 0 <= i < |ctxs| ==> WellFormed(ctxs[i].env)) && WellFormed(ctx.env)
    modifies cluster
    ensures ok ==> AllFit(nodes, opts.shardSize)
    ensures var roots := UploadRoots(hash, nodes, opts.shardSize);
      ok ==> roots != [] && HoldsDag(hash, roots, cluster.blocks)
    ensures var x := UploadProgress(hash, opts, nodes, cluster.pinset, cluster.blocks, sent);
      var dag := RootCid(hash, x.roots);
      ok ==> OutcomeOf(cluster.cfg, Recursive(opts), ctx.now, old(cluster.pinset), x, dag, dataRoot) == Sound
    ensures ok ==> AllStored(hash, Pack(Dedup(nodes), opts.shardSize), cluster.blocks)
    ensures ok ==> BlocksGrow(hash, old(cluster.blocks), cluster.blocks)
    ensures AllIn(sent, SentIn(cluster.cfg, old(cluster.pinset), Recursive(opts), ctxs))
    ensures CanUpload(cluster.cfg, hash, opts, old(cluster.pinset), nodes, dataRoot) ==> ok
  {
    sent := [];
    if CanUpload(cluster.cfg, hash, opts, cluster.pinset, nodes, dataRoot) {
      ShardsFree(cluster.cfg, hash, opts, cluster.pinset, nodes, dataRoot);
    }
    var service := new DAGService(hash, opts, cluster);
    ok := service.AddMany(ctxs, nodes);
    if !ok {
      return;
    }
    var done := service.Finalize(ctx, dataRoot);
    ok, sent := done.Ok?, service.sent;
  }

  /** With positive factors, every shard is pinned on peers that were allocated when a block was added. */
  lemma ShardsHeld(
    cfg: Config, opts: PinOptions, now: Time, start: State, x: Progress, dag: Cid, root: Cid, ctxs: seq<Ctx>, k: int)
    returns (i: int)
    requires opts.pinUpdate == Undef && Undef !in start && MinFactor(cfg, opts) > 0
    requires OutcomeOf(cfg, opts, now, start, x, dag, root) == Sound
    requires AllIn(x.sent, SentIn(cfg, start, opts, ctxs))
    requires 0 <= k < |x.roots| && x.roots[k] !in x.roots[k + 1..]
    ensures 0 <= i < |ctxs| && ctxs[i].env.names != [] && x.roots[k] in x.pinset
    ensures var held := x.pinset[x.roots[k]].allocations;
      Allocated(
        ctxs[i].env, Lists([], opts.userAllocations, []), MinFactor(cfg, opts), MaxFactor(cfg, opts), Ok(held))
  {
    var a := x.sent[k];
    i :| 0 <= i < |ctxs| && ctxs[i].env.names != [] && a in SentBy(cfg, start, opts, ctxs[i]);
    SentByMeans(cfg, start, opts, ctxs[i], a);
  }

  /**
   A sharded upload and then the unpinning of its root. If every step succeeds and none of its
   CIDs was pinned before, the pinset is as it was exactly if the shards fit in one node and the
   upload has no pin-update option.
   */
  method UploadThenUnpin(
    hash: Links -> Cid, opts: PinOptions, cluster: Cluster, ctxs: seq<Ctx>, nodes: seq<Block>, ctx: Ctx, dataRoot: Cid)
    returns (uploaded: bool, unpinned: bool)
    requires |ctxs| == |nodes| && (forall i :: 0 <= i < |ctxs| ==> WellFormed(ctxs[i].env)) && WellFormed(ctx.env)
    modifies cluster
    ensures var roots := UploadRoots(hash, nodes, opts.shardSize);
      uploaded && NoneIn(old(cluster.pinset), roots, RootCid(hash, roots), dataRoot) ==>
        && (opts.pinUpdate == Undef && |roots| <= MAX_LINKS ==> unpinned && cluster.pinset == old(cluster.pinset))
        && (GoodHash(hash, nodes) && dataRoot !in roots ==>
              (cluster.pinset == old(cluster.pinset) <==> opts.pinUpdate == Undef && |roots| <= MAX_LINKS))
  {
    unpinned := false;
    ghost var sent;
    uploaded, sent := Upload(hash, opts, cluster, ctxs, nodes, ctx, dataRoot);
    if !uploaded {
      return;
    }
    ghost var s, blocks := cluster.pinset, cluster.blocks;
    unpinned := cluster.Unpin(dataRoot);
    ghost var roots := UploadRoots(hash, nodes, opts.shardSize);
    if NoneIn(old(cluster.pinset), roots, RootCid(hash, roots), dataRoot) {
      AfterUnpin(
        cluster.cfg, hash, nodes, opts.shardSize, old(cluster.pinset), s, blocks, dataRoot, opts.pinUpdate,
        cluster.pinset, unpinned);
    }
  }

  // ----- shared shards -----

  /** The pins of an upload. */
  ghost function UploadCids(hash: Links -> Cid, nodes: seq<Block>, limit: nat, root: Cid): set<Cid> {
    var roots := UploadRoots(hash, nodes, limit);
    Elements(roots) + {RootCid(hash, roots), root}
  }

  /** Of two uploads, unpinning the first leaves of the second exactly what the first does not have. */
  method UploadTwiceThenUnpin(
    hash: Links -> Cid, cluster: Cluster,
    opts: PinOptions, ctxs: seq<Ctx>, nodes: seq<Block>, ctx: Ctx, root: Cid,
    opts2: PinOptions, ctxs2: seq<Ctx>, nodes2: seq<Block>, ctx2: Ctx, root2: Cid)
    returns (uploaded: bool, unpinned: bool)
    requires |ctxs| == |nodes| && (forall i :: 0 <= i < |ctxs| ==> WellFormed(ctxs[i].env)) && WellFormed(ctx.env)
    requires |ctxs2| == |nodes2| && (forall i :: 0 <= i < |ctxs2| ==> WellFormed(ctxs2[i].env)) && WellFormed(ctx2.env)
    modifies cluster
    ensures
      && uploaded && opts.pinUpdate == opts2.pinUpdate == Undef && Injective(hash) && root != root2
      && |UploadRoots(hash, nodes, opts.shardSize)| <= MAX_LINKS ==>
      unpinned && forall c :: c in UploadCids(hash, nodes2, opts2.shardSize, root2) ==>
        (c in cluster.pinset <==> c !in UploadCids(hash, nodes, opts.shardSize, root))
  {
    unpinned := false;
    ghost var sent;
    uploaded, sent := Upload(hash, opts, cluster, ctxs, nodes, ctx, root);
    if !uploaded {
      return;
    }
    ghost var x := UploadProgress(hash, opts, nodes, cluster.pinset, cluster.blocks, sent);
    uploaded, sent := Upload(hash, opts2, cluster, ctxs2, nodes2, ctx2, root2);
    if !uploaded {
      return;
    }
    ghost var x2 := UploadProgress(hash, opts2, nodes2, cluster.pinset, cluster.blocks, sent);
    unpinned := cluster.Unpin(root);
    if opts.pinUpdate == opts2.pinUpdate == Undef && Injective(hash) && root != root2 && |x.roots| <= MAX_LINKS {
      UnpinFirstOfTwo(
        cluster.cfg, hash, Recursive(opts), ctx.now, old(cluster.pinset), x, root, Recursive(opts2), ctx2.now, x2,
        root2, cluster.pinset, unpinned);
    }
  }

  /** After two uploads, the first of few shards, unpinning the first takes exactly its own pins. */
  lemma UnpinFirstOfTwo(
    cfg: Config, hash: Links -> Cid, opts: PinOptions, now: Time, start: State, x: Progress, root: Cid,
    opts2: PinOptions, now2: Time, x2: Progress, root2: Cid, s3: State, ok: bool)
    requires opts.pinUpdate == opts2.pinUpdate == Undef && Injective(hash) && root != root2 && |x.roots| <= MAX_LINKS
    requires OutcomeOf(cfg, opts, now, start, x, RootCid(hash, x.roots), root) == Sound
    requires OutcomeOf(cfg, opts2, now2, x.pinset, x2, RootCid(hash, x2.roots), root2) == Sound
    requires var dag := RootCid(hash, x.roots); dag in x2.blocks && hash(x2.blocks[dag]) == dag
    requires Unpinned(cfg, x2.pinset, x2.blocks, root, s3, ok)
    ensures ok && s3.Keys == x2.pinset.Keys - (Elements(x.roots) + {RootCid(hash, x.roots), root})
    ensures Elements(x2.roots) + {RootCid(hash, x2.roots), root2} <= x2.pinset.Keys
  {
    OutcomeIsSession(cfg, opts, now, start, x, RootCid(hash, x.roots), root);
    OutcomeIsSession(cfg, opts2, now2, x.pinset, x2, RootCid(hash, x2.roots), root2);
    FirstUploadStays(
      start, x.pinset, x.roots, RootCid(hash, x.roots), root, x2.pinset, x2.roots, RootCid(hash, x2.roots), root2);
    UnpinFirst(cfg, hash, x2.pinset, x2.blocks, x.roots, root, s3, ok);
  }

  const BLOCK_A := Block(Cid("a"), 6)
  const BLOCK_B := Block(Cid("b"), 6)
  const BLOCK_C := Block(Cid("c"), 6)

  lemma TwoShards(a: Block, b: Block)
    requires a.size == b.size == 6 && a.cid != b.cid
    ensures Pack(Dedup([a, b]), 10) == [[a], [b]] && AllFit([a, b], 10)
  {
    assert Front([a, b]) == [a] && Front([a]) == [];
    assert Dedup([a]) == [a];
    assert Cids([a]) == [a.cid];
    assert Dedup([a, b]) == [a, b];
    assert Pack([a], 10) == [[a]];
    assert Weight([a]) == 6;
  }

  /** The root of a shard with one block. */
  ghost function One(hash: Links -> Cid, b: Block): Cid {
    hash(LinkMap([b.cid]))
  }

  /** The root of a cluster DAG with two shards of one block each. */
  ghost function Two(hash: Links -> Cid, a: Block, b: Block): Cid {
    hash(LinkMap([One(hash, a), One(hash, b)]))
  }

  /** Two blocks of which only one fits in a shard make two shards. */
  lemma SmallRoots(hash: Links -> Cid, a: Block, b: Block)
    requires a.size == b.size == 6 && a.cid != b.cid
    ensures UploadRoots(hash, [a, b], 10) == [One(hash, a), One(hash, b)]
    ensures RootCid(hash, UploadRoots(hash, [a, b], 10)) == Two(hash, a, b)
  {
    TwoShards(a, b);
    OneRoot(hash, a);
    OneRoot(hash, b);
    assert UploadRoots(hash, [a, b], 10) == [One(hash, a), One(hash, b)];
  }

  lemma OneRoot(hash: Links -> Cid, b: Block)
    ensures RootCid(hash, Cids([b])) == One(hash, b)
  {
    assert Cids([b]) == [b.cid];
  }

  lemma DifferentRoots(hash: Links -> Cid, a: Block, b: Block, c: Block, d: Block)
    requires Injective(hash)
    ensures One(hash, a) == One(hash, b) ==> a.cid == b.cid
    ensures One(hash, a) != Two(hash, b, c)
    ensures Two(hash, a, b) == Two(hash, c, d) ==> One(hash, b) == One(hash, d)
  {
    LinkMapSize([a.cid]);
    LinkMapSize([One(hash, b), One(hash, c)]);
    if One(hash, a) == One(hash, b) {
      LinkMapInjective([a.cid], [b.cid]);
      assert [a.cid][0] == [b.cid][0];
    }
    var x, y := [One(hash, a), One(hash, b)], [One(hash, c), One(hash, d)];
    if Two(hash, a, b) == Two(hash, c, d) {
      LinkMapInjective(x, y);
      assert x[1] == y[1];
    }
  }

  /** An upload of two blocks, the second of which is the data root, can be made if none of its CIDs clashes. */
  lemma SmallUpload(cfg: Config, hash: Links -> Cid, opts: PinOptions, s: State, a: Block, b: Block)
    requires !cfg.followerMode && PlainOptions(opts) && opts.shardSize == 10 && Undef !in s
    requires a.size == b.size == 6 && a.cid != b.cid && GoodHash(hash, [a, b])
    requires FreeFor(s, One(hash, a), SHARD_TYPE) && FreeFor(s, One(hash, b), SHARD_TYPE)
    requires FreeFor(s, Two(hash, a, b), DAG_TYPE) && FreeFor(s, b.cid, META_TYPE)
    ensures CanUpload(cfg, hash, opts, s, [a, b], b.cid)
  {
    TwoShards(a, b);
    SmallRoots(hash, a, b);
    DifferentRoots(hash, a, a, b, b);
    DifferentRoots(hash, b, a, b, b);
    assert [a, b][1] == b;
    TwoFree(s, One(hash, a), One(hash, b), Two(hash, a, b), b.cid);
  }

  lemma TwoFree(s: State, x: Cid, y: Cid, dag: Cid, root: Cid)
    requires FreeFor(s, x, SHARD_TYPE) && FreeFor(s, y, SHARD_TYPE) && FreeFor(s, dag, DAG_TYPE)
    requires FreeFor(s, root, META_TYPE) && dag != x && dag != y && root !in {x, y, dag}
    ensures (forall k :: 0 <= k < |[x, y]| ==> FreeFor(s, [x, y][k], SHARD_TYPE)) && CanFinish(s, [x, y], dag, root)
  {
  }

  /** The CIDs of an upload of A and B and of one of A and C are distinct, but for the shard they share. */
  lemma DistinctCids(hash: Links -> Cid)
    requires GoodHash(hash, [BLOCK_A, BLOCK_B, BLOCK_C])
    ensures GoodHash(hash, [BLOCK_A, BLOCK_B]) && GoodHash(hash, [BLOCK_A, BLOCK_C])
    ensures One(hash, BLOCK_A) != One(hash, BLOCK_B) && One(hash, BLOCK_B) != One(hash, BLOCK_C)
    ensures One(hash, BLOCK_C) != One(hash, BLOCK_A)
    ensures Two(hash, BLOCK_A, BLOCK_B) != Two(hash, BLOCK_A, BLOCK_C)
    ensures Two(hash, BLOCK_A, BLOCK_C) !in [One(hash, BLOCK_A), One(hash, BLOCK_B)]
    ensures Two(hash, BLOCK_A, BLOCK_B) !in [One(hash, BLOCK_A), One(hash, BLOCK_C)]
    ensures forall n :: hash(n) != BLOCK_B.cid && hash(n) != BLOCK_C.cid
  {
    GoodPart(hash, [BLOCK_A, BLOCK_B, BLOCK_C], [BLOCK_A, BLOCK_B]);
    GoodPart(hash, [BLOCK_A, BLOCK_B, BLOCK_C], [BLOCK_A, BLOCK_C]);
    assert [BLOCK_A, BLOCK_B][1] == BLOCK_B && [BLOCK_A, BLOCK_C][1] == BLOCK_C;
    DifferentRoots(hash, BLOCK_A, BLOCK_B, BLOCK_C, BLOCK_C);
    DifferentRoots(hash, BLOCK_B, BLOCK_C, BLOCK_A, BLOCK_A);
    DifferentRoots(hash, BLOCK_C, BLOCK_A, BLOCK_B, BLOCK_B);
    DifferentRoots(hash, BLOCK_A, BLOCK_A, BLOCK_C, BLOCK_C);
    DifferentRoots(hash, BLOCK_B, BLOCK_A, BLOCK_C, BLOCK_C);
    DifferentRoots(hash, BLOCK_A, BLOCK_A, BLOCK_B, BLOCK_B);
    DifferentRoots(hash, BLOCK_A, BLOCK_B, BLOCK_A, BLOCK_C);
  }

  lemma GoodPart(hash: Links -> Cid, bs: seq<Block>, cs: seq<Block>)
    requires GoodHash(hash, bs) && forall c :: c in cs ==> c in bs
    ensures GoodHash(hash, cs)
  {
    forall a, i | 0 <= i < |cs|
      ensures hash(a) != cs[i].cid
    {
      assert cs[i] in bs;
    }
  }

  predicate AllNew(x: Cid, y: Cid, dag: Cid, root: Cid, z: Cid, dag2: Cid, root2: Cid) {
    && Undef !in {x, y, dag, root, z, dag2, root2}
    && z !in {x, y, dag, root} && dag2 !in {x, y, dag, root} && root2 !in {x, y, dag, root}
  }

  lemma NewCids(hash: Links -> Cid)
    requires GoodHash(hash, [BLOCK_A, BLOCK_B, BLOCK_C]) && forall n :: hash(n) != Undef
    ensures AllNew(
      One(hash, BLOCK_A), One(hash, BLOCK_B), Two(hash, BLOCK_A, BLOCK_B), BLOCK_B.cid,
      One(hash, BLOCK_C), Two(hash, BLOCK_A, BLOCK_C), BLOCK_C.cid)
  {
    DistinctCids(hash);
    DifferentRoots(hash, BLOCK_C, BLOCK_A, BLOCK_B, BLOCK_B);
    var x, y, z := One(hash, BLOCK_A), One(hash, BLOCK_B), One(hash, BLOCK_C);
    assert x == hash(LinkMap([BLOCK_A.cid])) && y == hash(LinkMap([BLOCK_B.cid])) && z == hash(LinkMap([BLOCK_C.cid]));
  }

  /** After the first upload into an empty pinset, the CIDs of the second are still free. */
  lemma SecondFree(s: State, x: Cid, y: Cid, dag: Cid, root: Cid, z: Cid, dag2: Cid, root2: Cid)
    requires SessionOf(map[], s, [x, y], dag, root) == Sound && AllNew(x, y, dag, root, z, dag2, root2)
    ensures FreeFor(s, x, SHARD_TYPE) && FreeFor(s, z, SHARD_TYPE) && Undef !in s
    ensures FreeFor(s, dag2, DAG_TYPE) && FreeFor(s, root2, META_TYPE)
  {
    assert x == [x, y][0];
    assert Elements([x, y]) + {dag, root} == {x, y, dag, root};
    assert forall c :: c in s ==> c in {x, y, dag, root};
  }

  /** The setting of the example: a shard holds one block, and no two CIDs coincide. */
  ghost predicate Example(hash: Links -> Cid, opts: PinOptions) {
    opts.pinUpdate == Undef && opts.shardSize == 10 && GoodHash(hash, [BLOCK_A, BLOCK_B, BLOCK_C])
  }

  /** And pinning goes everywhere, in an empty cluster. */
  ghost predicate PlainExample(cfg: Config, hash: Links -> Cid, opts: PinOptions, s: State) {
    s == map[] && !cfg.followerMode && PlainOptions(opts) && Example(hash, opts) && forall n :: hash(n) != Undef
  }

  /** One upload of A and B and one of A and C. */
  method UploadBoth(hash: Links -> Cid, cluster: Cluster, opts: PinOptions, ctx: Ctx)
    returns (ok: bool, ghost s1: State)
    requires WellFormed(ctx.env)
    modifies cluster
    ensures PlainExample(cluster.cfg, hash, opts, old(cluster.pinset)) ==> ok
    ensures ok && Example(hash, opts) ==>
      TwoUploads(cluster.cfg, hash, old(cluster.pinset), s1, cluster.pinset, cluster.blocks)
  {
    if PlainExample(cluster.cfg, hash, opts, cluster.pinset) {
      FirstCan(cluster.cfg, hash, opts);
    }
    ghost var sent;
    ok, sent := Upload(hash, opts, cluster, [ctx, ctx], [BLOCK_A, BLOCK_B], ctx, BLOCK_B.cid);
    s1 := cluster.pinset;
    if !ok {
      return;
    }
    ghost var x := UploadProgress(hash, opts, [BLOCK_A, BLOCK_B], cluster.pinset, cluster.blocks, sent);
    if opts.pinUpdate == Undef {
      OutcomeIsSession(
        cluster.cfg, Recursive(opts), ctx.now, old(cluster.pinset), x, RootCid(hash, x.roots), BLOCK_B.cid);
    }
    if PlainExample(cluster.cfg, hash, opts, old(cluster.pinset)) {
      SecondCan(cluster.cfg, hash, opts, s1);
    }
    ok, sent := Upload(hash, opts, cluster, [ctx, ctx], [BLOCK_A, BLOCK_C], ctx, BLOCK_C.cid);
    x := UploadProgress(hash, opts, [BLOCK_A, BLOCK_C], cluster.pinset, cluster.blocks, sent);
    if ok && opts.pinUpdate == Undef {
      OutcomeIsSession(cluster.cfg, Recursive(opts), ctx.now, s1, x, RootCid(hash, x.roots), BLOCK_C.cid);
    }
  }

  /** The pinset went from `s` over `s1` to `s2` by these uploads, and the cluster DAG of the first is stored. */
  ghost predicate TwoUploads(cfg: Config, hash: Links -> Cid, s: State, s1: State, s2: State, blocks: Blocks) {
    var roots, roots2 := UploadRoots(hash, [BLOCK_A, BLOCK_B], 10), UploadRoots(hash, [BLOCK_A, BLOCK_C], 10);
    && !cfg.followerMode
    && SessionOf(s, s1, roots, RootCid(hash, roots), BLOCK_B.cid) == Sound
    && SessionOf(s1, s2, roots2, RootCid(hash, roots2), BLOCK_C.cid) == Sound
    && RootCid(hash, roots) in blocks && hash(blocks[RootCid(hash, roots)]) == RootCid(hash, roots)
  }

  /**
   Two uploads that share their first shard. From the empty pinset both succeed, and unpinning the
   first takes that shard while the cluster DAG and the root of the second are still pinned.
   */
  method SharedShardLost(hash: Links -> Cid, cluster: Cluster, opts: PinOptions, ctx: Ctx)
    returns (uploaded: bool, unpinned: bool)
    requires WellFormed(ctx.env)
    modifies cluster
    ensures PlainExample(cluster.cfg, hash, opts, old(cluster.pinset)) ==> uploaded
    ensures uploaded && Example(hash, opts) ==>
      && unpinned
      && One(hash, BLOCK_A) in UploadRoots(hash, [BLOCK_A, BLOCK_C], 10) && One(hash, BLOCK_A) !in cluster.pinset
      && Two(hash, BLOCK_A, BLOCK_C) in cluster.pinset && BLOCK_C.cid in cluster.pinset
  {
    unpinned := false;
    ghost var s1;
    uploaded, s1 := UploadBoth(hash, cluster, opts, ctx);
    if !uploaded {
      return;
    }
    ghost var s2 := cluster.pinset;
    unpinned := cluster.Unpin(BLOCK_B.cid);
    if Example(hash, opts) {
      SharedTaken(cluster.cfg, hash, old(cluster.pinset), s1, s2, cluster.blocks, cluster.pinset, unpinned);
    }
  }

  lemma FirstCan(cfg: Config, hash: Links -> Cid, opts: PinOptions)
    requires !cfg.followerMode && PlainOptions(opts) && opts.shardSize == 10
    requires GoodHash(hash, [BLOCK_A, BLOCK_B, BLOCK_C]) && forall n :: hash(n) != Undef
    ensures CanUpload(cfg, hash, opts, map[], [BLOCK_A, BLOCK_B], BLOCK_B.cid)
  {
    DistinctCids(hash);
    SmallUpload(cfg, hash, opts, map[], BLOCK_A, BLOCK_B);
  }

  lemma SecondCan(cfg: Config, hash: Links -> Cid, opts: PinOptions, s: State)
    requires !cfg.followerMode && PlainOptions(opts) && opts.shardSize == 10
    requires GoodHash(hash, [BLOCK_A, BLOCK_B, BLOCK_C]) && forall n :: hash(n) != Undef
    requires var roots := UploadRoots(hash, [BLOCK_A, BLOCK_B], 10);
      SessionOf(map[], s, roots, RootCid(hash, roots), BLOCK_B.cid) == Sound
    ensures CanUpload(cfg, hash, opts, s, [BLOCK_A, BLOCK_C], BLOCK_C.cid)
  {
    DistinctCids(hash);
    NewCids(hash);
    SmallRoots(hash, BLOCK_A, BLOCK_B);
    SecondFree(
      s, One(hash, BLOCK_A), One(hash, BLOCK_B), Two(hash, BLOCK_A, BLOCK_B), BLOCK_B.cid,
      One(hash, BLOCK_C), Two(hash, BLOCK_A, BLOCK_C), BLOCK_C.cid);
    SmallUpload(cfg, hash, opts, s, BLOCK_A, BLOCK_C);
  }

  lemma SharedTaken(
    cfg: Config, hash: Links -> Cid, s: State, s1: State, s2: State, blocks: Blocks, s3: State, ok: bool)
    requires GoodHash(hash, [BLOCK_A, BLOCK_B, BLOCK_C]) && TwoUploads(cfg, hash, s, s1, s2, blocks)
    requires Unpinned(cfg, s2, blocks, BLOCK_B.cid, s3, ok)
    ensures ok && One(hash, BLOCK_A) in UploadRoots(hash, [BLOCK_A, BLOCK_C], 10)
    ensures One(hash, BLOCK_A) !in s3 && Two(hash, BLOCK_A, BLOCK_C) in s3 && BLOCK_C.cid in s3
  {
    DistinctCids(hash);
    SmallRoots(hash, BLOCK_A, BLOCK_B);
    SmallRoots(hash, BLOCK_A, BLOCK_C);
    assert UploadRoots(hash, [BLOCK_A, BLOCK_C], 10)[0] == One(hash, BLOCK_A);
    SharedGone(
      cfg, s, s1, s2, blocks, One(hash, BLOCK_A), One(hash, BLOCK_B), Two(hash, BLOCK_A, BLOCK_B), BLOCK_B.cid,
      One(hash, BLOCK_C), Two(hash, BLOCK_A, BLOCK_C), BLOCK_C.cid, s3, ok);
  }

  /** Of two uploads that share the shard `x`, unpinning the first takes it and leaves the root of the second. */
  lemma SharedGone(
    cfg: Config, s: State, s1: State, s2: State, blocks: Blocks, x: Cid, y: Cid, dag: Cid, root: Cid, z: Cid, dag2: Cid,
    root2: Cid, s3: State, ok: bool)
    requires !cfg.followerMode
    requires SessionOf(s, s1, [x, y], dag, root) == SessionOf(s1, s2, [x, z], dag2, root2) == Sound
    requires dag in blocks && blocks[dag] == LinkMap([x, y]) && Unpinned(cfg, s2, blocks, root, s3, ok)
    requires root != root2 && dag != dag2 && dag2 !in [x, y] && root2 !in [x, y] && dag2 != root && root2 != dag
    ensures ok && x !in s3 && root2 in s3 && dag2 in s3
  {
    FirstUploadStays(s, s1, [x, y], dag, root, s2, [x, z], dag2, root2);
    LinkMapValues([x, y]);
    assert x == [x, y][0];
  }
}

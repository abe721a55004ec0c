/** The sharding adder: it packs blocks into shards, pins each shard and ties them together. */
module Adder {
  import opened Basics
  import opened Pins
  import opened Allocation
  import opened Pinset
  import opened ClusterOps
  import opened ShardDag
  import opened Packing
  import opened ShardRoots
  import opened Sessions

  /** The surroundings of one call: metrics and trust, the time, and the peers that ping. */
  datatype Ctx = Ctx(env: Env, now: Time, pinging: seq<PeerID>)

  function LastCid(blocks: seq<Block>): Cid {
    if blocks == [] then Undef else Last(blocks).cid
  }

  class Shard {
    const allocations: seq<PeerID>
    const sizeLimit: nat
    var dagNode: Links
    var currentSize: nat
    ghost var blocks: seq<Block>

    ghost predicate Valid()
      reads this
    {
      dagNode == LinkMap(Cids(blocks)) && currentSize == Weight(blocks)
    }

    constructor (allocations: seq<PeerID>, sizeLimit: nat)
      ensures Valid() && blocks == [] && this.allocations == allocations && this.sizeLimit == sizeLimit
    {
      this.allocations, this.sizeLimit := allocations, sizeLimit;
      dagNode, currentSize, blocks := map[], 0, [];
    }

    method AddLink(b: Block)
      requires Valid()
      modifies this
      ensures Valid() && blocks == old(blocks) + [b]
    {
      LinkMapSize(Cids(blocks));
      LinkMapSnoc(Cids(blocks), b.cid);
      WeightSnoc(blocks, b);
      dagNode := dagNode[Decimal(|dagNode|) := b.cid];
      currentSize := currentSize + b.size;
      blocks := blocks + [b];
      assert Cids(blocks) == Cids(old(blocks)) + [b.cid];
    }

    /** The CID added last, undefined in an empty shard. */
    method LastLink() returns (c: Cid)
      requires Valid()
      ensures c == LastCid(blocks)
    {
      LinkMapSize(Cids(blocks));
      if |dagNode| == 0 {
        return Undef;
      }
      LinkMapAt(Cids(blocks), |blocks| - 1);
      c := dagNode[Decimal(|dagNode| - 1)];
    }
  }

  /** The records of the adder agree with the roots of the shards flushed so far. */
  ghost predicate Books(roots: seq<Cid>, shards: Links, previousShard: Cid) {
    shards == LinkMap(roots) && previousShard == PreviousRoot(roots, |roots|)
  }

  lemma RecordShard(roots: seq<Cid>, shards: Links, previousShard: Cid, root: Cid)
    requires Books(roots, shards, previousShard)
    ensures |shards| == |roots|
    ensures Books(roots + [root], shards[Decimal(|shards|) := root], root)
  {
    LinkMapSize(roots);
    LinkMapSnoc(roots, root);
  }

  /** The shards, the one being built last. */
  ghost function LayoutOf(closed: seq<seq<Block>>, current: Option<seq<Block>>): seq<seq<Block>> {
    closed + if current.None? then [] else [current.value]
  }

  /** Adding to the shard being built, or to a new one, is packing next-fit. */
  lemma PackedNext(
    closed: seq<seq<Block>>, current: Option<seq<Block>>, b: Block, limit: nat, closed': seq<seq<Block>>,
    current': seq<Block>)
    requires closed != [] ==> current.Some?
    requires if current.Some? && Weight(current.value) + b.size < limit
      then closed' == closed && current' == current.value + [b]
      else closed' == LayoutOf(closed, current) && current' == [b]
    ensures LayoutOf(closed', Some(current')) == PackOne(LayoutOf(closed, current), b, limit)
  {
    if current.Some? {
      SnocParts(closed, current.value);
    }
  }

  /** All blocks fit, and all shards but the last can be pinned. */
  ghost predicate CanAdd(hash: Links -> Cid, s: State, nodes: seq<Block>, limit: nat) {
    && AllFit(nodes, limit)
    && var shards := Pack(Dedup(nodes), limit);
    forall k :: 0 <= k < |shards| - 1 ==> FreeFor(s, RootCid(hash, Cids(shards[k])), SHARD_TYPE)
  }

  /** Then the next block fits in a shard, and if it does not fit in the shard being built that can be pinned. */
  lemma CanAddNext(
    hash: Links -> Cid, s: State, nodes: seq<Block>, i: int, limit: nat, closed: seq<seq<Block>>, current: seq<Block>)
    requires 0 <= i < |nodes| && CanAdd(hash, s, nodes, limit) && nodes[i].cid !in Elements(Cids(nodes[..i]))
    ensures nodes[i].size < limit
    ensures closed + [current] == Pack(Dedup(nodes[..i]), limit) && Weight(current) + nodes[i].size >= limit ==>
      FreeFor(s, RootCid(hash, Cids(current)), SHARD_TYPE)
  {
    FirstOccurrence(nodes, i);
    assert (Dedup(nodes[..i]) + [nodes[i]])[|Dedup(nodes[..i])|] in Dedup(nodes);
    if closed + [current] == Pack(Dedup(nodes[..i]), limit) && Weight(current) + nodes[i].size >= limit {
      SnocParts(closed, current);
      ClosedShard(nodes, i, limit);
    }
  }

  /** The peers that the blocks of a shard may be sent to if it is started in this context. */
  ghost function SentBy(cfg: Config, s: State, opts: PinOptions, ctx: Ctx): iset<seq<PeerID>>
    requires ctx.env.names != []
  {
    iset a | BlockAllocated(cfg, ctx.env, ctx.now, s, PinWithOpts(Undef, opts, ctx.now), ctx.pinging, Ok(a))
  }

  /** Or in one of these. */
  ghost function SentIn(cfg: Config, s: State, opts: PinOptions, ctxs: seq<Ctx>): iset<seq<PeerID>> {
    iset i, a | 0 <= i < |ctxs| && ctxs[i].env.names != [] && a in SentBy(cfg, s, opts, ctxs[i]) :: a
  }

  lemma SentInIncludes(cfg: Config, s: State, opts: PinOptions, ctxs: seq<Ctx>, i: int)
    requires 0 <= i < |ctxs| && ctxs[i].env.names != []
    ensures SentBy(cfg, s, opts, ctxs[i]) <= SentIn(cfg, s, opts, ctxs)
  {
  }

  ghost predicate AllIn(sent: seq<seq<PeerID>>, homes: iset<seq<PeerID>>) {
    forall k :: 0 <= k < |sent| ==> sent[k] in homes
  }

  /** They are an allocation with nothing to keep or avoid, or everyone that pings. */
  lemma SentByMeans(cfg: Config, s: State, opts: PinOptions, ctx: Ctx, a: seq<PeerID>)
    requires ctx.env.names != [] && Undef !in s && a in SentBy(cfg, s, opts, ctx)
    ensures var min, max := MinFactor(cfg, opts), MaxFactor(cfg, opts);
      if min == -1 then a == ctx.pinging
      else 0 < min <= max && Allocated(ctx.env, Lists([], opts.userAllocations, []), min, max, Ok(a)) && a != []
  {
    var pin := PinWithOpts(Undef, opts, ctx.now);
    var min, max := MinFactor(cfg, opts), MaxFactor(cfg, opts);
    SetsUpIff(cfg, pin, None, ctx.now);
    if min > 0 {
      AllocatedNonEmpty(ctx.env, Lists([], opts.userAllocations, []), min, max, a);
    }
  }

  /** With positive factors they are some. */
  lemma SentToSome(cfg: Config, s: State, opts: PinOptions, ctx: Ctx, a: seq<PeerID>)
    requires ctx.env.names != [] && MinFactor(cfg, opts) > 0 && a in SentBy(cfg, s, opts, ctx)
    ensures a != []
  {
    var pin := PinWithOpts(Undef, opts, ctx.now);
    var min, max := MinFactor(cfg, opts), MaxFactor(cfg, opts);
    SetsUpIff(cfg, pin, Get(s, Undef), ctx.now);
    AllocatedNonEmpty(ctx.env, ListsFor(s, pin, []), min, max, a);
  }

  lemma SentBySame(cfg: Config, s: State, s': State, opts: PinOptions, ctx: Ctx)
    requires ctx.env.names != [] && Get(s, Undef) == Get(s', Undef)
    ensures SentBy(cfg, s, opts, ctx) == SentBy(cfg, s', opts, ctx)
  {
    var setup := SetupPin(cfg, PinWithOpts(Undef, opts, ctx.now), Get(s, Undef), ctx.now);
    if setup.Ok? {
      assert ListsFor(s, setup.value, []) == ListsFor(s', setup.value, []);
    }
  }

  class DAGService {
    const hash: Links -> Cid
    const opts: PinOptions
    const cluster: Cluster
    ghost const pinset: State  // the pinset and the stored nodes at the start
    ghost const blocks: Blocks
    var addedSet: set<Cid>
    var currentShard: Shard?
    var previousShard: Cid
    var shards: Links
    var totalSize: nat
    ghost var closed: seq<seq<Block>>  // the blocks of the flushed shards
    ghost var roots: seq<Cid>  // their CIDs
    ghost var sent: seq<seq<PeerID>>  // and the peers that their blocks were sent to
    ghost var homes: iset<seq<PeerID>>  // the allocations of all shards

    ghost predicate Valid()
      reads this, currentShard
    {
      && totalSize == TotalWeight(closed) && Books(roots, shards, previousShard)
      && AllIn(sent, homes)
      && (currentShard != null ==>
            currentShard.Valid() && currentShard.sizeLimit == opts.shardSize && Homed(currentShard))
    }

    /** Its allocations are on record and, with positive factors, not empty. */
    ghost predicate Homed(sh: Shard)
      reads this
    {
      sh.allocations in homes && (MinFactor(cluster.cfg, opts) > 0 ==> sh.allocations != [])
    }

    /** The shards with their blocks, the one being built last. */
    ghost function Layout(): seq<seq<Block>>
      reads this, currentShard
    {
      LayoutOf(closed, if currentShard == null then None else Some(currentShard.blocks))
    }

    /** An upload for which pinning goes everywhere. */
    ghost predicate Able() {
      !cluster.cfg.followerMode && PlainOptions(opts) && Undef !in pinset
    }

    /** The shard with these blocks could be pinned at the start. */
    ghost predicate FreeShard(bs: seq<Block>) {
      FreeFor(pinset, RootCid(hash, Cids(bs)), SHARD_TYPE)
    }

    ghost function Health(): Integrity
      reads this, cluster
    {
      HealthAfter(closed, roots, sent)
    }

    /** The same with other records. */
    ghost function HealthAfter(closed: seq<seq<Block>>, roots: seq<Cid>, sent: seq<seq<PeerID>>): Integrity
      reads cluster
    {
      var x := Progress(cluster.pinset, cluster.blocks, closed, roots, sent);
      IntegrityOf(cluster.cfg, hash, opts, pinset, blocks, x)
    }

    constructor (hash: Links -> Cid, opts: PinOptions, cluster: Cluster)
      ensures Valid() && this.hash == hash && this.opts == opts.(mode := RECURSIVE) && this.cluster == cluster
      ensures addedSet == {} && Layout() == [] && currentShard == null && homes == iset{}
      ensures pinset == cluster.pinset && blocks == cluster.blocks && Health() == Sound
    {
      this.hash, this.opts, this.cluster := hash, opts.(mode := RECURSIVE), cluster;
      pinset, blocks := cluster.pinset, cluster.blocks;
      addedSet, currentShard, previousShard, shards, totalSize, closed, roots := {}, null, Undef, map[], 0, [], [];
      sent, homes := [], iset{};
    }

    method NewShard(ctx: Ctx) returns (r: Result<Shard>)
      requires WellFormed(ctx.env)
      ensures r.Ok? ==> fresh(r.value) && r.value.Valid() && r.value.blocks == [] && r.value.sizeLimit == opts.shardSize
      ensures var pin := PinWithOpts(Undef, opts, ctx.now);
        var allocs := if r.Ok? then Ok(r.value.allocations) else Err;
        BlockAllocated(cluster.cfg, ctx.env, ctx.now, cluster.pinset, pin, ctx.pinging, allocs)
      ensures r.Ok? && Health() == Sound ==> r.value.allocations in SentBy(cluster.cfg, pinset, opts, ctx)
      ensures r.Ok? && MinFactor(cluster.cfg, opts) > 0 ==> r.value.allocations != []
      ensures Able() && Health() == Sound ==> r.Ok?
    {
      var allocs := cluster.BlockAllocate(ctx.env, ctx.now, PinWithOpts(Undef, opts, ctx.now), ctx.pinging);
      if allocs.Err? {
        return Err;
      }
      if opts.rplMin > 0 && allocs.value == [] {
        assert false;  // "allocations for new shard cannot be empty without error"
      }
      if MinFactor(cluster.cfg, opts) > 0 {
        SentToSome(cluster.cfg, cluster.pinset, opts, ctx, allocs.value);
      }
      if Health() == Sound {
        UndefUntouched(
          cluster.cfg, hash, opts, pinset, blocks, Progress(cluster.pinset, cluster.blocks, closed, roots, sent));
        SentBySame(cluster.cfg, cluster.pinset, pinset, opts, ctx);
      }
      var sh := new Shard(allocs.value, opts.shardSize);
      return Ok(sh);
    }

    /** Starts a shard. */
    method OpenShard(ctx: Ctx) returns (ok: bool)
      requires Valid() && WellFormed(ctx.env) && currentShard == null
      modifies this`currentShard, this`homes
      ensures Valid()
      ensures ok ==> currentShard != null && fresh(currentShard) && currentShard.blocks == []
      ensures !ok ==> currentShard == null
      ensures homes == if ok then old(homes) + iset{currentShard.allocations} else old(homes)
      ensures ok && old(Health()) == Sound ==> currentShard.allocations in SentBy(cluster.cfg, pinset, opts, ctx)
      ensures Able() && old(Health()) == Sound ==> ok
    {
      var sh := NewShard(ctx);
      if sh.Err? {
        return false;
      }
      currentShard := sh.value;
      homes := homes + iset{currentShard.allocations};
      return true;
    }

    /** Stores a link DAG; returns its CID and the number of its nodes. */
    method PutDag(dagObj: Links, ghost links: seq<Cid>) returns (root: Cid, n: nat)
      requires dagObj == LinkMap(links)
      modifies cluster`blocks
      ensures root == RootCid(hash, links) && n == |DagNodes(hash, links)|
      ensures BlocksGrow(hash, old(cluster.blocks), cluster.blocks)
      ensures HoldsDag(hash, links, cluster.blocks) && StoredDag(hash, links, cluster.blocks)
    {
      var nodes := MakeDAG(hash, dagObj, links);
      cluster.PutBlocks(hash, nodes);
      return hash(nodes[0]), |nodes|;
    }

    /** Pins the root of a shard. */
    method PinShard(ctx: Ctx, sh: Shard, n: nat, prev: Cid, root: Cid, nodes: nat) returns (ok: bool)
      requires WellFormed(ctx.env) && sh.Valid() && n == |roots| && prev == PreviousRoot(roots, |roots|)
      requires root == RootCid(hash, Cids(sh.blocks)) && nodes == |DagNodes(hash, Cids(sh.blocks))|
      modifies cluster`pinset
      ensures var pin := FlushedPin(hash, opts, roots, sh.blocks, sh.allocations, ctx.now);
        ok ==> cluster.pinset in AfterPin(cluster.cfg, ctx.env, ctx.now, old(cluster.pinset), pin)
      ensures ok && opts.pinUpdate == Undef ==>
        cluster.pinset in AfterFlush(
          cluster.cfg, opts, old(cluster.pinset), root, n, prev, sh.allocations, sh.currentSize, ctx.now)
      ensures !cluster.cfg.followerMode && PlainOptions(opts) && FreeFor(old(cluster.pinset), root, SHARD_TYPE) ==> ok
    {
      LinkMapSize(Cids(sh.blocks));
      var pin := ShardPin(opts, root, n, prev, sh.allocations, sh.currentSize, nodes, |sh.dagNode|, ctx.now);
      if PlainOptions(opts) {
        FlushIsPlain(hash, opts, roots, sh.blocks, sh.allocations, ctx.now);
      }
      var pinned := cluster.SubmitPin(ctx.env, ctx.now, AdderPin(pin), []);
      if pinned.Ok? && opts.pinUpdate == Undef {
        FlushStores(
          cluster.cfg, hash, ctx.env, ctx.now, opts, old(cluster.pinset), roots, sh.blocks, sh.allocations,
          cluster.pinset);
      }
      return pinned.Ok?;
    }

    /** Stores the DAG of a shard and pins its root. */
    method Flush(ctx: Ctx, sh: Shard, n: nat, prev: Cid) returns (r: Result<Cid>)
      requires WellFormed(ctx.env) && sh.Valid() && n == |roots| && prev == PreviousRoot(roots, |roots|)
      modifies cluster
      ensures r.Ok? ==> r.value == RootCid(hash, Cids(sh.blocks))
      ensures var pin := FlushedPin(hash, opts, roots, sh.blocks, sh.allocations, ctx.now);
        r.Ok? ==> cluster.pinset in AfterPin(cluster.cfg, ctx.env, ctx.now, old(cluster.pinset), pin)
      ensures BlocksGrow(hash, old(cluster.blocks), cluster.blocks) && StoredDag(hash, Cids(sh.blocks), cluster.blocks)
      ensures r.Ok? && opts.pinUpdate == Undef ==>
        cluster.pinset in AfterFlush(
          cluster.cfg, opts, old(cluster.pinset), r.value, n, prev, sh.allocations, sh.currentSize, ctx.now)
      ensures r.Ok? && old(Health()) == Sound && Homed(sh) ==>
        HealthAfter(closed + [sh.blocks], roots + [r.value], sent + [sh.allocations]) == Sound
      ensures Able() && old(Health()) == Sound && FreeShard(sh.blocks) ==> r.Ok?
    {
      ghost var x := Progress(cluster.pinset, cluster.blocks, closed, roots, sent);
      var root, nodes := PutDag(sh.dagNode, Cids(sh.blocks));
      if old(Health()) == Sound && FreeShard(sh.blocks) && opts.pinUpdate == Undef {
        StillFree(cluster.cfg, hash, opts, pinset, blocks, x, root);
      }
      var pinned := PinShard(ctx, sh, n, prev, root, nodes);
      if !pinned {
        return Err;
      }
      if old(Health()) == Sound && Homed(sh) {
        FlushedIntegrity(
          cluster.cfg, hash, ctx.env, ctx.now, opts, pinset, blocks, x, sh.blocks, sh.allocations, cluster.pinset,
          cluster.blocks);
      }
      return Ok(root);
    }

    /** Records the flushed shard. */
    method Close(root: Cid)
      requires Valid() && currentShard != null
      modifies this
      ensures Valid() && addedSet == old(addedSet) && currentShard == null
      ensures closed == old(closed) + [old(currentShard.blocks)] && roots == old(roots) + [root]
      ensures sent == old(sent) + [old(currentShard.allocations)] && homes == old(homes)
    {
      ghost var bs := currentShard.blocks;
      RecordShard(roots, shards, previousShard, root);
      FlatSnoc(closed, bs);
      assert AllIn(sent + [currentShard.allocations], homes);
      totalSize := totalSize + currentShard.currentSize;
      shards := shards[Decimal(|shards|) := root];
      previousShard := root;
      closed, roots, sent := closed + [bs], roots + [root], sent + [currentShard.allocations];
      currentShard := null;
    }

    /** Flushes the shard being built; returns the CID added last. */
    method FlushCurrentShard(ctx: Ctx) returns (r: Result<Cid>)
      requires Valid() && WellFormed(ctx.env)
      modifies this, cluster
      ensures Valid() && addedSet == old(addedSet) && homes == old(homes)
      ensures r.Err? ==> unchanged(this)
      ensures r.Ok? ==>
        && old(currentShard) != null && currentShard == null && closed == old(closed) + [old(currentShard.blocks)]
        && r.value == LastCid(old(currentShard.blocks))
      ensures r.Ok? && old(Health()) == Sound ==> Health() == Sound
      ensures Able() && old(Health()) == Sound && old(currentShard) != null && FreeShard(old(currentShard.blocks)) ==>
        r.Ok?
    {
      if currentShard == null {
        return Err;
      }
      var shard := currentShard;
      LinkMapSize(roots);
      var flushed := Flush(ctx, shard, |shards|, previousShard);
      if flushed.Err? {
        return Err;
      }
      Close(flushed.value);
      var last := shard.LastLink();
      return Ok(last);
    }

    /** Puts a block in the shard being built, or flushes that shard and tries once more with a new one. */
    method IngestBlock(ctx: Ctx, b: Block) returns (ok: bool)
      requires Valid() && WellFormed(ctx.env)
      modifies this, currentShard, cluster
      ensures Valid() && addedSet == old(addedSet)
      ensures ok ==> b.size < opts.shardSize && currentShard != null
      ensures ok ==>
        if old(currentShard) != null && Weight(old(currentShard.blocks)) + b.size < opts.shardSize then
          closed == old(closed) && currentShard.blocks == old(currentShard.blocks) + [b]
        else
          closed == old(Layout()) && currentShard.blocks == [b]
      ensures currentShard == null || currentShard == old(currentShard) || fresh(currentShard)
      ensures ok && old(Health()) == Sound ==> Health() == Sound
      ensures ok && old(Health()) == Sound ==> homes <= old(homes) + SentBy(cluster.cfg, pinset, opts, ctx)
      ensures Able() && old(Health()) == Sound && b.size < opts.shardSize && !ok ==>
        && old(currentShard) != null && Weight(old(currentShard.blocks)) + b.size >= opts.shardSize
        && !FreeShard(old(currentShard.blocks))
      decreases if currentShard == null || currentShard.currentSize == 0 then 0 else 1
    {
      if currentShard == null {
        var ready := OpenShard(ctx);
        if !ready {
          return false;
        }
      }
      var shard := currentShard;
      if shard.currentSize + b.size < shard.sizeLimit {
        shard.AddLink(b);
        return true;
      }
      if shard.currentSize == 0 {
        return false;  // "block doesn't fit in empty shard"
      }
      var flushed := FlushCurrentShard(ctx);
      if flushed.Err? {
        return false;
      }
      ok := IngestBlock(ctx, b);
    }

    /** There is a shard being built once there are shards; false only after an error or at the end. */
    ghost predicate Open()
      reads this
    {
      closed != [] ==> currentShard != null
    }

    /** Adds a block unless its CID was added before. */
    method Add(ctx: Ctx, b: Block) returns (ok: bool)
      requires Valid() && WellFormed(ctx.env)
      modifies this, currentShard, cluster
      ensures Valid() && addedSet == old(addedSet) + {b.cid}
      ensures currentShard == null || currentShard == old(currentShard) || fresh(currentShard)
      ensures ok && b.cid !in old(addedSet) ==> b.size < opts.shardSize
      ensures ok && old(Open()) ==>
        && Open()
        && Layout() ==
             if b.cid in old(addedSet) then old(Layout()) else PackOne(old(Layout()), b, opts.shardSize)
      ensures ok && old(Health()) == Sound ==> Health() == Sound
      ensures ok && old(Health()) == Sound ==> homes <= old(homes) + SentBy(cluster.cfg, pinset, opts, ctx)
      ensures b.cid in old(addedSet) ==> ok
      ensures Able() && old(Health()) == Sound && b.size < opts.shardSize && !ok ==>
        && old(currentShard) != null && Weight(old(currentShard.blocks)) + b.size >= opts.shardSize
        && !FreeShard(old(currentShard.blocks))
    {
      if b.cid in addedSet {
        return true;
      }
      addedSet := addedSet + {b.cid};
      ok := IngestNew(ctx, b);
    }

    /** Ingests a block whose CID was not added before. */
    method IngestNew(ctx: Ctx, b: Block) returns (ok: bool)
      requires Valid() && WellFormed(ctx.env)
      modifies this, currentShard, cluster
      ensures Valid() && addedSet == old(addedSet)
      ensures currentShard == null || currentShard == old(currentShard) || fresh(currentShard)
      ensures ok ==> b.size < opts.shardSize
      ensures ok && old(Open()) ==> Open() && Layout() == PackOne(old(Layout()), b, opts.shardSize)
      ensures ok && old(Health()) == Sound ==> Health() == Sound
      ensures ok && old(Health()) == Sound ==> homes <= old(homes) + SentBy(cluster.cfg, pinset, opts, ctx)
      ensures Able() && old(Health()) == Sound && b.size < opts.shardSize && !ok ==>
        && old(currentShard) != null && Weight(old(currentShard.blocks)) + b.size >= opts.shardSize
        && !FreeShard(old(currentShard.blocks))
    {
      ghost var current := if currentShard == null then None else Some(currentShard.blocks);
      ok := IngestBlock(ctx, b);
      if ok && old(Open()) {
        PackedNext(old(closed), current, b, opts.shardSize, closed, currentShard.blocks);
      }
    }

    /** A whole upload: each block is added, in order, with the metrics of its time. */
    method AddMany(ctxs: seq<Ctx>, nodes: seq<Block>) returns (ok: bool)
      requires Valid() && |ctxs| == |nodes| && forall i :: 0 <= i < |ctxs| ==> WellFormed(ctxs[i].env)
      requires addedSet == {} && Layout() == [] && homes == iset{}
      modifies this, currentShard, cluster
      ensures Valid()
      ensures ok ==> Added(nodes)
      ensures ok && old(Health()) == Sound ==> Health() == Sound
      ensures ok && old(Health()) == Sound ==> homes <= SentIn(cluster.cfg, pinset, opts, ctxs)
      ensures Able() && old(Health()) == Sound && CanAdd(hash, pinset, nodes, opts.shardSize) ==> ok
    {
      var i := 0;
      while i < |nodes|
        invariant 0 <= i <= |nodes| && Valid() && Added(nodes[..i])
        invariant currentShard == null || currentShard == old(currentShard) || fresh(currentShard)
        invariant old(Health()) == Sound ==> Health() == Sound
        invariant old(Health()) == Sound ==> homes <= SentIn(cluster.cfg, pinset, opts, ctxs)
      {
        ok := AddNext(ctxs[i], nodes, i);
        if !ok {
          return;
        }
        SentInIncludes(cluster.cfg, pinset, opts, ctxs, i);
        i := i + 1;
      }
      assert nodes[..i] == nodes;
      ok := true;
    }

    /** Exactly these blocks have been added. */
    ghost predicate Added(nodes: seq<Block>)
      reads this, currentShard
    {
      && Open() && Layout() == Pack(Dedup(nodes), opts.shardSize) && addedSet == Elements(Cids(nodes))
      && AllFit(nodes, opts.shardSize)
    }

    /** Adds one more block of an upload. */
    method AddNext(ctx: Ctx, nodes: seq<Block>, i: nat) returns (ok: bool)
      requires Valid() && WellFormed(ctx.env) && i < |nodes| && Added(nodes[..i])
      modifies this, currentShard, cluster
      ensures Valid() && (ok ==> Added(nodes[..i + 1]))
      ensures currentShard == null || currentShard == old(currentShard) || fresh(currentShard)
      ensures ok && old(Health()) == Sound ==> Health() == Sound
      ensures ok && old(Health()) == Sound ==> homes <= old(homes) + SentBy(cluster.cfg, pinset, opts, ctx)
      ensures Able() && old(Health()) == Sound && CanAdd(hash, pinset, nodes, opts.shardSize) ==> ok
    {
      ghost var full, current := closed, if currentShard == null then [] else currentShard.blocks;
      ok := Add(ctx, nodes[i]);
      if ok {
        DedupStep(nodes, i, opts.shardSize);
      } else if CanAdd(hash, pinset, nodes, opts.shardSize) {
        CanAddNext(hash, pinset, nodes, i, opts.shardSize, full, current);
      }
    }

    /** Flushes the last shard, stores and pins the cluster DAG and pins the data root as a meta pin. */
    method Finalize(ctx: Ctx, dataRoot: Cid) returns (r: Result<Cid>)
      requires Valid() && WellFormed(ctx.env)
      modifies this, cluster
      ensures Valid() && homes == old(homes)
      ensures r.Ok? ==> r.value == dataRoot && old(currentShard) != null && closed == old(Layout())
      ensures r.Ok? && old(Health()) == Sound ==>
        && roots == Roots(hash, closed) && Outcome(ctx.now, RootCid(hash, roots), dataRoot) == Sound
        && AllStored(hash, closed, cluster.blocks) && BlocksGrow(hash, blocks, cluster.blocks)
      ensures r.Ok? ==> HoldsDag(hash, roots, cluster.blocks)
      ensures Able() && old(Health()) == Sound && old(currentShard) != null && FreeShard(old(currentShard.blocks)) ==>
        var all := Roots(hash, old(Layout()));
        CanFinish(pinset, all, RootCid(hash, all), dataRoot) ==> r.Ok?
    {
      var lastCid := FlushCurrentShard(ctx);
      if lastCid.Err? {
        return Err;
      }
      ghost var x := Progress(cluster.pinset, cluster.blocks, closed, roots, sent);
      var pinned := PinDag(ctx, dataRoot);
      if !pinned {
        return Err;
      }
      if old(Health()) == Sound {
        SoundThenStored(cluster.cfg, hash, opts, pinset, blocks, x, cluster.blocks);
      }
      return Ok(dataRoot);
    }

    /** Stores and pins the cluster DAG and pins the data root. */
    method PinDag(ctx: Ctx, dataRoot: Cid) returns (ok: bool)
      requires Valid() && WellFormed(ctx.env)
      modifies cluster
      ensures ok && old(Health()) == Sound ==> Outcome(ctx.now, RootCid(hash, roots), dataRoot) == Sound
      ensures ok ==> HoldsDag(hash, roots, cluster.blocks) && BlocksGrow(hash, old(cluster.blocks), cluster.blocks)
      ensures Able() && old(Health()) == Sound && CanFinish(pinset, roots, RootCid(hash, roots), dataRoot) ==> ok
    {
      ghost var x := Progress(cluster.pinset, cluster.blocks, closed, roots, sent);
      var dag, _ := PutDag(shards, roots);
      ok := PinBoth(ctx, dag, dataRoot, x);
    }

    /** Sound if the upload, finished at that time, is completed and has all its entries. */
    ghost function Outcome(now: Time, dag: Cid, dataRoot: Cid): Integrity
      reads this, cluster
    {
      var x := Progress(cluster.pinset, cluster.blocks, closed, roots, sent);
      OutcomeOf(cluster.cfg, opts, now, pinset, x, dag, dataRoot)
    }

    /** Pins the cluster DAG and the data root, after the shards in `x`. */
    method PinBoth(ctx: Ctx, dag: Cid, dataRoot: Cid, ghost x: Progress) returns (ok: bool)
      requires WellFormed(ctx.env) && x.pinset == cluster.pinset
      modifies cluster`pinset
      ensures ok && IntegrityOf(cluster.cfg, hash, opts, pinset, blocks, x) == Sound ==>
        OutcomeOf(cluster.cfg, opts, ctx.now, pinset, x.(pinset := cluster.pinset), dag, dataRoot) == Sound
      ensures Able() && IntegrityOf(cluster.cfg, hash, opts, pinset, blocks, x) == Sound ==>
        CanFinish(pinset, x.roots, dag, dataRoot) ==> ok
    {
      var dagPin := AdderPin(DagPin(opts, dag, dataRoot, ctx.now));
      ghost var sound := IntegrityOf(cluster.cfg, hash, opts, pinset, blocks, x) == Sound;
      ghost var can := Able() && CanFinish(pinset, x.roots, dag, dataRoot);
      if sound && can {
        DagIsPlain(cluster.cfg, hash, opts, pinset, blocks, x, dag, dataRoot, ctx.now);
      }
      var pinned := cluster.SubmitPin(ctx.env, ctx.now, dagPin, []);
      if pinned.Err? {
        return false;
      }
      ghost var s1 := cluster.pinset;
      if sound && can {
        MetaIsPlain(cluster.cfg, hash, ctx.env, opts, pinset, blocks, x, dag, dataRoot, ctx.now, s1);
      }
      var metaPin := AdderPin(MetaPin(opts, dataRoot, dag, ctx.now));
      pinned := cluster.SubmitPin(ctx.env, ctx.now, metaPin, []);
      if pinned.Err? {
        return false;
      }
      if sound {
        FinishedSoundly(
          cluster.cfg, hash, ctx.env, ctx.now, opts, pinset, blocks, x, dag, dataRoot, s1, cluster.pinset);
      }
      return true;
    }
  }
}

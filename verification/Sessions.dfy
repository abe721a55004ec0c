/** The pins of a sharded upload: what they add to the pinset and what unpinning takes away. */
module Sessions {
  import opened Basics
  import opened Pins
  import opened Allocation
  import opened Pinset
  import opened ShardDag
  import opened Packing
  import opened ShardRoots

  // ----- the pins of the adder -----

  /** The pin for a shard whose DAG has `nodes` nodes and `links` links. */
  function ShardPin(
    opts: PinOptions, root: Cid, n: nat, prev: Cid, allocs: seq<PeerID>, size: nat, nodes: nat, links: nat,
    now: Time): Pin
  {
    var p := PinWithOpts(root, opts.(name := opts.name + "-shard-" + Decimal(n), shardSize := size), now);
    p.(allocations := allocs,
       ptype := SHARD_TYPE,
       reference := Some(prev),
       maxDepth := if nodes > links + 1 then 2 else 1)
  }

  /** `adder.Pin`: pins that go everywhere carry no allocations. */
  function AdderPin(pin: Pin): Pin {
    if pin.opts.rplMin < 0 then pin.(allocations := []) else pin
  }

  function DagPin(opts: PinOptions, dag: Cid, root: Cid, now: Time): Pin {
    var p := PinWithOpts(dag, opts.(rplMin := -1, rplMax := -1, name := opts.name + "-clusterDAG"), now);
    p.(maxDepth := 0, ptype := DAG_TYPE, reference := Some(root))
  }

  function MetaPin(opts: PinOptions, root: Cid, dag: Cid, now: Time): Pin {
    PinWithOpts(root, opts, now).(ptype := META_TYPE, reference := Some(dag), maxDepth := 0)
  }

  /** A shard is always pinned to depth 1, however many links it has. */
  lemma ShardDepth(
    hash: Links -> Cid, links: seq<Cid>, opts: PinOptions, root: Cid, n: nat, prev: Cid, allocs: seq<PeerID>,
    size: nat, now: Time)
    ensures ShardPin(opts, root, n, prev, allocs, size, |DagNodes(hash, links)|, |links|, now).maxDepth == 1
  {
    NodeCount(hash, links);
  }

  /** After a successful pin of one of the four types, only its entry changed and it carries what was asked. */
  lemma PinLeaves(cfg: Config, env: Env, now: Time, s: State, pin: Pin, s': State)
    requires env.names != [] && Pinned(cfg, env, now, s, pin, [], s', true) && !IsUpdate(pin)
    requires pin.ptype in {DATA_TYPE, META_TYPE, DAG_TYPE, SHARD_TYPE}
    ensures !cfg.followerMode && pin.cid != Undef && OnlyAt(s, pin.cid, s') && pin.cid in s' && Extends(s, s')
    ensures var q := s'[pin.cid];
      && q.cid == pin.cid && q.ptype == pin.ptype
      && q.reference == SavedReference(pin.reference) && q.maxDepth == Int32(pin.maxDepth)
    ensures pin.cid in s ==> s[pin.cid].ptype == pin.ptype
  {
    PinTypes();
    var q := PinnedPin(cfg, env, now, s, pin, [], s');
  }

  // ----- what they leave in the pinset -----

  /** The entry of a shard that is held by `held`. */
  ghost function ShardRecord(
    cfg: Config, opts: PinOptions, root: Cid, n: nat, previous: Option<Cid>, held: seq<PeerID>, size: nat,
    now: Time): Pin
  {
    Pin(
      PinOptions(
        Int32(MinFactor(cfg, opts)), Int32(MaxFactor(cfg, opts)), opts.name + "-shard-" + Decimal(n), RECURSIVE, size,
        [], StoredTime(opts.expireAt), opts.metadata, Undef, opts.origins),
      root, SHARD_TYPE, held, 1, previous, StoredTime(now))
  }

  /** The peers a shard is pinned on: those that its blocks were sent to, unless it goes everywhere. */
  ghost function PinnedOn(cfg: Config, opts: PinOptions, sentTo: seq<PeerID>): seq<PeerID> {
    if MinFactor(cfg, opts) > 0 then sentTo else []
  }

  /** The entries of the cluster DAG, which goes everywhere, and of the data root. */
  ghost predicate TopRecords(cfg: Config, opts: PinOptions, now: Time, s: State, dag: Cid, root: Cid) {
    && dag in s && s[dag] ==
         Pin(
           PinOptions(
             -1, -1, opts.name + "-clusterDAG", DIRECT, opts.shardSize, [], StoredTime(opts.expireAt), opts.metadata,
             Undef, opts.origins),
           dag, DAG_TYPE, [], 0, Some(root), StoredTime(now))
    && root in s && s[root] ==
         Pin(
           PinOptions(
             Int32(MinFactor(cfg, opts)), Int32(MaxFactor(cfg, opts)), opts.name, DIRECT, opts.shardSize, [],
             StoredTime(opts.expireAt), opts.metadata, Undef, opts.origins),
           root, META_TYPE, [], 0, Some(dag), StoredTime(now))
  }

  // ----- during an upload -----

  /** The root before position `k`. */
  ghost function PreviousRoot(roots: seq<Cid>, k: nat): Cid
    requires k <= |roots|
  {
    if k == 0 then Undef else roots[k - 1]
  }

  /** The reference of shard `k` as it is stored: none for the first, else the root before it. */
  ghost function PreviousReference(roots: seq<Cid>, k: nat): Option<Cid>
    requires k <= |roots|
  {
    if k == 0 then None else Some(roots[k - 1])
  }

  /** Nothing was unpinned and no pin changed its type. */
  ghost predicate Extends(s: State, s': State) {
    s.Keys <= s'.Keys && KeepsTypes(s, s')
  }

  /** Outside `ours`, the pinset is what it was. */
  ghost predicate SameOutside(start: State, s: State, ours: set<Cid>) {
    forall c :: c !in ours ==> (c in s <==> c in start) && (c in start ==> s[c] == start[c])
  }

  /** Every root is pinned as a shard, to depth 1. */
  ghost predicate PinnedAsShards(s: State, roots: seq<Cid>) {
    forall k :: 0 <= k < |roots| ==>
      roots[k] != Undef && roots[k] in s && s[roots[k]].ptype == SHARD_TYPE && s[roots[k]].maxDepth == 1
  }

  /** Every root but the first refers to the one before it (where a root repeats, its last occurrence counts). */
  ghost predicate Chained(s: State, roots: seq<Cid>) {
    forall k :: 0 <= k < |roots| && roots[k] in s && roots[k] !in roots[k + 1..] ==>
      s[roots[k]].reference == PreviousReference(roots, k)
  }

  /** The pinset is `start` with the shards pinned, each referring to the one before it. */
  ghost predicate ShardsPinned(start: State, s: State, roots: seq<Cid>) {
    SameOutside(start, s, Elements(roots)) && PinnedAsShards(s, roots) && Chained(s, roots) && Extends(start, s)
  }

  /**
   The same for an upload with the pin-update option, of which only this much is kept track:
   every root is pinned, and the updated pin was pinned before unless it is the first root.
   */
  ghost predicate UpdatesPinned(start: State, s: State, roots: seq<Cid>, update: Cid) {
    && SameOutside(start, s, Elements(roots))
    && (forall k :: 0 <= k < |roots| ==> roots[k] != Undef && roots[k] in s)
    && (roots != [] ==> roots[0] == update || update in start)
  }

  /** The entry of shard `k`, with blocks `bs` that were sent to the peers in `sentTo`; any time will do. */
  ghost predicate RecordedShard(
    cfg: Config, opts: PinOptions, q: Pin, roots: seq<Cid>, k: nat, bs: seq<Block>, sentTo: seq<PeerID>)
    requires k < |roots|
  {
    var r := ShardRecord(
      cfg, opts, roots[k], k, PreviousReference(roots, k), PinnedOn(cfg, opts, sentTo), Weight(bs), Never);
    q == r.(timestamp := q.timestamp)
  }

  /** Every root has its entry (where a root repeats, that of its last occurrence). */
  ghost predicate Recorded(
    cfg: Config, opts: PinOptions, s: State, closed: seq<seq<Block>>, roots: seq<Cid>, sent: seq<seq<PeerID>>)
  {
    && |closed| == |roots| == |sent|
    && forall k :: 0 <= k < |roots| && roots[k] !in roots[k + 1..] ==>
      roots[k] in s && RecordedShard(cfg, opts, s[roots[k]], roots, k, closed[k], sent[k])
  }

  lemma RecordNext(
    cfg: Config, opts: PinOptions, s: State, closed: seq<seq<Block>>, roots: seq<Cid>, sent: seq<seq<PeerID>>,
    bs: seq<Block>, root: Cid, sentTo: seq<PeerID>, s': State)
    requires Recorded(cfg, opts, s, closed, roots, sent) && OnlyAt(s, root, s') && root in s'
    requires RecordedShard(cfg, opts, s'[root], roots + [root], |roots|, bs, sentTo)
    ensures Recorded(cfg, opts, s', closed + [bs], roots + [root], sent + [sentTo])
  {
    var all := roots + [root];
    forall k | 0 <= k < |all| && all[k] !in all[k + 1..]
      ensures all[k] in s' && RecordedShard(cfg, opts, s'[all[k]], all, k, (closed + [bs])[k], (sent + [sentTo])[k])
    {
      if k < |roots| {
        assert all[k + 1..] == roots[k + 1..] + [root];
        assert root in all[k + 1..];
        assert all[k] != root && all[k] == roots[k];
        assert PreviousReference(all, k) == PreviousReference(roots, k);
      }
    }
  }

  ghost predicate InSession(start: State, s: State, roots: seq<Cid>, update: Cid) {
    if update == Undef then ShardsPinned(start, s, roots) else UpdatesPinned(start, s, roots, update)
  }

  lemma ChainNext(s: State, roots: seq<Cid>, root: Cid, s': State)
    requires Chained(s, roots) && OnlyAt(s, root, s') && root in s'
    requires s'[root].reference == PreviousReference(roots, |roots|)
    ensures Chained(s', roots + [root])
  {
    var all := roots + [root];
    forall k | 0 <= k < |all| && all[k] in s' && all[k] !in all[k + 1..]
      ensures s'[all[k]].reference == PreviousReference(all, k)
    {
      if k < |roots| {
        assert all[k + 1..] == roots[k + 1..] + [root];
        assert root in all[k + 1..];
        assert all[k] != root && all[k] == roots[k];
      }
    }
  }

  lemma PinNextShard(start: State, s: State, roots: seq<Cid>, root: Cid, s': State)
    requires ShardsPinned(start, s, roots) && OnlyAt(s, root, s') && root in s' && Extends(s, s') && root != Undef
    requires s'[root].ptype == SHARD_TYPE && s'[root].maxDepth == 1
    requires s'[root].reference == PreviousReference(roots, |roots|)
    ensures ShardsPinned(start, s', roots + [root])
  {
    ChainNext(s, roots, root, s');
    OutsideNext(start, s, Elements(roots), root, s');
    assert Elements(roots + [root]) == Elements(roots) + {root};
    PinnedNext(s, roots, root, s');
  }

  lemma OutsideNext(start: State, s: State, ours: set<Cid>, c: Cid, s': State)
    requires SameOutside(start, s, ours) && OnlyAt(s, c, s')
    ensures SameOutside(start, s', ours + {c})
  {
  }

  lemma PinnedNext(s: State, roots: seq<Cid>, root: Cid, s': State)
    requires PinnedAsShards(s, roots) && OnlyAt(s, root, s') && root != Undef
    requires root in s' && s'[root].ptype == SHARD_TYPE && s'[root].maxDepth == 1
    ensures PinnedAsShards(s', roots + [root])
  {
    var all := roots + [root];
    forall k | 0 <= k < |all|
      ensures all[k] != Undef && all[k] in s' && s'[all[k]].ptype == SHARD_TYPE && s'[all[k]].maxDepth == 1
    {
      if k < |roots| {
        assert all[k] == roots[k];
      }
    }
  }

  /** The pin that flushing a shard after those of `roots` submits. */
  ghost function FlushedPin(
    hash: Links -> Cid, opts: PinOptions, roots: seq<Cid>, blocks: seq<Block>, allocs: seq<PeerID>, now: Time): Pin
  {
    var links := Cids(blocks);
    var prev := PreviousRoot(roots, |roots|);
    AdderPin(
      ShardPin(
        opts, RootCid(hash, links), |roots|, prev, allocs, Weight(blocks), |DagNodes(hash, links)|, |links|, now))
  }

  /** What a successful flush has stored, if it is not an update. */
  ghost predicate ShardStored(
    cfg: Config, opts: PinOptions, s: State, s': State, root: Cid, n: nat, prev: Cid, sentTo: seq<PeerID>, size: nat,
    now: Time)
  {
    && root in s'
    && var held := s'[root].allocations;
    && s' == s[root := ShardRecord(cfg, opts, root, n, if prev == Undef then None else Some(prev), held, size, now)]
    && (MinFactor(cfg, opts) > 0 && sentTo != [] ==> held == sentTo)
    && (MinFactor(cfg, opts) <= 0 ==> held == [])
  }

  /** The pinsets that a successful flush may lead to. */
  ghost function AfterFlush(
    cfg: Config, opts: PinOptions, s: State, root: Cid, n: nat, prev: Cid, sentTo: seq<PeerID>, size: nat,
    now: Time): iset<State>
  {
    iset s' | ShardStored(cfg, opts, s, s', root, n, prev, sentTo, size, now)
  }

  lemma FlushStores(
    cfg: Config, hash: Links -> Cid, env: Env, now: Time, opts: PinOptions, s: State, roots: seq<Cid>,
    blocks: seq<Block>, allocs: seq<PeerID>, s': State)
    requires env.names != [] && opts.pinUpdate == Undef
    requires Pinned(cfg, env, now, s, FlushedPin(hash, opts, roots, blocks, allocs, now), [], s', true)
    ensures var root, prev := RootCid(hash, Cids(blocks)), PreviousRoot(roots, |roots|);
      ShardStored(cfg, opts, s, s', root, |roots|, prev, allocs, Weight(blocks), now)
  {
    var pin := FlushedPin(hash, opts, roots, blocks, allocs, now);
    AcceptedFactors(cfg, env, now, s, pin, [], s');
    var held := AcceptedPin(cfg, env, now, s, pin, [], s');
    FlushedRecord(cfg, hash, opts, roots, blocks, allocs, held, now);
  }

  lemma FlushedRecord(
    cfg: Config, hash: Links -> Cid, opts: PinOptions, roots: seq<Cid>, blocks: seq<Block>, allocs: seq<PeerID>,
    held: seq<PeerID>, now: Time)
    requires opts.pinUpdate == Undef
    ensures var root, prev := RootCid(hash, Cids(blocks)), PreviousRoot(roots, |roots|);
      AcceptedRecord(cfg, FlushedPin(hash, opts, roots, blocks, allocs, now), held, now) ==
      ShardRecord(
        cfg, opts, root, |roots|, if prev == Undef then None else Some(prev), held, Weight(blocks), now)
  {
    var links := Cids(blocks);
    ShardDepth(
      hash, links, opts, RootCid(hash, links), |roots|, PreviousRoot(roots, |roots|), allocs, Weight(blocks), now);
    PinTypes();
  }

  lemma FlushedSession(
    cfg: Config, hash: Links -> Cid, env: Env, now: Time, opts: PinOptions, start: State, s: State, roots: seq<Cid>,
    blocks: seq<Block>, allocs: seq<PeerID>, s': State)
    requires env.names != [] && InSession(start, s, roots, opts.pinUpdate)
    requires Pinned(cfg, env, now, s, FlushedPin(hash, opts, roots, blocks, allocs, now), [], s', true)
    ensures InSession(start, s', roots + [RootCid(hash, Cids(blocks))], opts.pinUpdate)
  {
    var links := Cids(blocks);
    var root := RootCid(hash, links);
    var pin := FlushedPin(hash, opts, roots, blocks, allocs, now);
    if opts.pinUpdate != Undef {
      UpdateNext(cfg, env, now, start, s, roots, pin, s');
    } else {
      ShardDepth(hash, links, opts, root, |roots|, PreviousRoot(roots, |roots|), allocs, Weight(blocks), now);
      PinLeaves(cfg, env, now, s, pin, s');
      PinNextShard(start, s, roots, root, s');
    }
  }

  lemma UpdateNext(cfg: Config, env: Env, now: Time, start: State, s: State, roots: seq<Cid>, pin: Pin, s': State)
    requires env.names != [] && pin.opts.pinUpdate != Undef && UpdatesPinned(start, s, roots, pin.opts.pinUpdate)
    requires Pinned(cfg, env, now, s, pin, [], s', true)
    ensures UpdatesPinned(start, s', roots + [pin.cid], pin.opts.pinUpdate)
  {
    if !IsUpdate(pin) {
      var q := PinnedPin(cfg, env, now, s, pin, [], s');
    }
    OutsideNext(start, s, Elements(roots), pin.cid, s');
    assert Elements(roots + [pin.cid]) == Elements(roots) + {pin.cid};
  }

  /** What an upload changes, and its own records: the flushed shards, their roots and where their blocks went. */
  datatype Progress = Progress(
    pinset: State, blocks: Blocks, closed: seq<seq<Block>>, roots: seq<Cid>, sent: seq<seq<PeerID>>)

  datatype Integrity = Sound | Broken

  /** Sound if, since `pinset` and `blocks`, the recorded shards have been stored and pinned and nothing else. */
  ghost function IntegrityOf(
    cfg: Config, hash: Links -> Cid, opts: PinOptions, pinset: State, blocks: Blocks, x: Progress): Integrity
  {
    if && x.roots == Roots(hash, x.closed) && InSession(pinset, x.pinset, x.roots, opts.pinUpdate)
       && AllStored(hash, x.closed, x.blocks) && BlocksGrow(hash, blocks, x.blocks)
       && (opts.pinUpdate == Undef ==> Recorded(cfg, opts, x.pinset, x.closed, x.roots, x.sent))
    then Sound else Broken
  }

  lemma FlushedIntegrity(
    cfg: Config, hash: Links -> Cid, env: Env, now: Time, opts: PinOptions, pinset: State, blocks: Blocks, x: Progress,
    bs: seq<Block>, allocs: seq<PeerID>, s: State, b: Blocks)
    requires env.names != [] && IntegrityOf(cfg, hash, opts, pinset, blocks, x) == Sound
    requires s in AfterPin(cfg, env, now, x.pinset, FlushedPin(hash, opts, x.roots, bs, allocs, now))
    requires BlocksGrow(hash, x.blocks, b) && StoredDag(hash, Cids(bs), b)
    requires MinFactor(cfg, opts) > 0 ==> allocs != []
    ensures var y := Progress(s, b, x.closed + [bs], x.roots + [RootCid(hash, Cids(bs))], x.sent + [allocs]);
      IntegrityOf(cfg, hash, opts, pinset, blocks, y) == Sound
  {
    FlushedSession(cfg, hash, env, now, opts, pinset, x.pinset, x.roots, bs, allocs, s);
    FlushedBlocks(cfg, hash, opts, pinset, blocks, x, bs, b);
    if opts.pinUpdate == Undef {
      FlushRecords(cfg, hash, env, now, opts, pinset, blocks, x, bs, allocs, s);
    }
  }

  lemma FlushedBlocks(
    cfg: Config, hash: Links -> Cid, opts: PinOptions, pinset: State, blocks: Blocks, x: Progress, bs: seq<Block>,
    b: Blocks)
    requires IntegrityOf(cfg, hash, opts, pinset, blocks, x) == Sound
    requires BlocksGrow(hash, x.blocks, b) && StoredDag(hash, Cids(bs), b)
    ensures x.roots + [RootCid(hash, Cids(bs))] == Roots(hash, x.closed + [bs])
    ensures AllStored(hash, x.closed + [bs], b) && BlocksGrow(hash, blocks, b)
  {
    RootsSnoc(hash, x.closed, bs);
    StoredNext(hash, x.closed, x.blocks, bs, b);
  }

  lemma FlushRecords(
    cfg: Config, hash: Links -> Cid, env: Env, now: Time, opts: PinOptions, pinset: State, blocks: Blocks, x: Progress,
    bs: seq<Block>, allocs: seq<PeerID>, s: State)
    requires env.names != [] && opts.pinUpdate == Undef && IntegrityOf(cfg, hash, opts, pinset, blocks, x) == Sound
    requires s in AfterPin(cfg, env, now, x.pinset, FlushedPin(hash, opts, x.roots, bs, allocs, now))
    requires MinFactor(cfg, opts) > 0 ==> allocs != []
    ensures Recorded(cfg, opts, s, x.closed + [bs], x.roots + [RootCid(hash, Cids(bs))], x.sent + [allocs])
  {
    var root := RootCid(hash, Cids(bs));
    FlushStores(cfg, hash, env, now, opts, x.pinset, x.roots, bs, allocs, s);
    StoredIsRecorded(cfg, opts, x.pinset, s, root, x.roots, bs, allocs, now);
    RecordNext(cfg, opts, x.pinset, x.closed, x.roots, x.sent, bs, root, allocs, s);
  }

  lemma StoredIsRecorded(
    cfg: Config, opts: PinOptions, s: State, s': State, root: Cid, roots: seq<Cid>, bs: seq<Block>,
    allocs: seq<PeerID>, now: Time)
    requires ShardStored(cfg, opts, s, s', root, |roots|, PreviousRoot(roots, |roots|), allocs, Weight(bs), now)
    requires (MinFactor(cfg, opts) > 0 ==> allocs != []) && forall k :: 0 <= k < |roots| ==> roots[k] != Undef
    ensures OnlyAt(s, root, s') && RecordedShard(cfg, opts, s'[root], roots + [root], |roots|, bs, allocs)
  {
  }

  /** Nothing is ever pinned under the undefined CID. */
  lemma UndefUntouched(
    cfg: Config, hash: Links -> Cid, opts: PinOptions, pinset: State, blocks: Blocks, x: Progress)
    requires IntegrityOf(cfg, hash, opts, pinset, blocks, x) == Sound
    ensures Get(x.pinset, Undef) == Get(pinset, Undef)
  {
  }

  lemma SoundThenStored(
    cfg: Config, hash: Links -> Cid, opts: PinOptions, pinset: State, blocks: Blocks, x: Progress, b: Blocks)
    requires IntegrityOf(cfg, hash, opts, pinset, blocks, x) == Sound && BlocksGrow(hash, x.blocks, b)
    ensures x.roots == Roots(hash, x.closed) && AllStored(hash, x.closed, b) && BlocksGrow(hash, blocks, b)
  {
    AllStoredLater(hash, x.closed, x.blocks, b);
  }

  predicate PlainOptions(opts: PinOptions) {
    && opts.rplMin == opts.rplMax == -1 && opts.expireAt == Never && opts.mode == RECURSIVE && opts.pinUpdate == Undef
  }

  /** The cluster DAG and the data root can be pinned after these shards. */
  predicate CanFinish(s: State, roots: seq<Cid>, dag: Cid, root: Cid) {
    && FreeFor(s, dag, DAG_TYPE) && FreeFor(s, root, META_TYPE) && dag !in roots && root !in roots && root != dag
  }

  /** What was free for a shard before the upload still is. */
  lemma StillFree(
    cfg: Config, hash: Links -> Cid, opts: PinOptions, pinset: State, blocks: Blocks, x: Progress, c: Cid)
    requires IntegrityOf(cfg, hash, opts, pinset, blocks, x) == Sound && opts.pinUpdate == Undef
    requires FreeFor(pinset, c, SHARD_TYPE)
    ensures FreeFor(x.pinset, c, SHARD_TYPE)
  {
  }

  lemma DagIsPlain(
    cfg: Config, hash: Links -> Cid, opts: PinOptions, start: State, blocks: Blocks, x: Progress, dag: Cid, root: Cid,
    now: Time)
    requires IntegrityOf(cfg, hash, opts, start, blocks, x) == Sound && PlainOptions(opts)
    requires CanFinish(start, x.roots, dag, root)
    ensures Plain(AdderPin(DagPin(opts, dag, root, now))) && FreeFor(x.pinset, dag, DAG_TYPE)
  {
  }

  lemma MetaIsPlain(
    cfg: Config, hash: Links -> Cid, env: Env, opts: PinOptions, start: State, blocks: Blocks, x: Progress, dag: Cid,
    root: Cid, now: Time, s: State)
    requires env.names != [] && IntegrityOf(cfg, hash, opts, start, blocks, x) == Sound && PlainOptions(opts)
    requires CanFinish(start, x.roots, dag, root)
    requires Pinned(cfg, env, now, x.pinset, AdderPin(DagPin(opts, dag, root, now)), [], s, true)
    ensures Plain(AdderPin(MetaPin(opts, root, dag, now))) && FreeFor(s, root, META_TYPE)
  {
    PinLeaves(cfg, env, now, x.pinset, AdderPin(DagPin(opts, dag, root, now)), s);
  }

  lemma FlushIsPlain(
    hash: Links -> Cid, opts: PinOptions, roots: seq<Cid>, blocks: seq<Block>, allocs: seq<PeerID>, now: Time)
    requires PlainOptions(opts)
    ensures Plain(FlushedPin(hash, opts, roots, blocks, allocs, now))
  {
    ShardDepth(
      hash, Cids(blocks), opts, RootCid(hash, Cids(blocks)), |roots|, PreviousRoot(roots, |roots|), allocs,
      Weight(blocks), now);
  }

  // ----- after an upload -----

  /** The pinset is `start` with the shards, the cluster DAG and the data root of one upload pinned. */
  ghost predicate SessionPinned(start: State, s: State, roots: seq<Cid>, dag: Cid, root: Cid) {
    && dag !in roots && root !in roots && root != dag && Extends(start, s)
    && SameOutside(start, s, Elements(roots) + {dag, root}) && PinnedAsShards(s, roots) && Chained(s, roots)
    && dag in s && s[dag].cid == dag && s[dag].ptype == DAG_TYPE
    && s[dag].reference == Some(root) && s[dag].maxDepth == 0
    && root in s && s[root].ptype == META_TYPE && s[root].reference == Some(dag)
  }

  /** What a finished upload leaves: with the pin-update option, the data root as a data pin. */
  ghost predicate Completed(cfg: Config, start: State, s: State, roots: seq<Cid>, dag: Cid, root: Cid, update: Cid) {
    && !cfg.followerMode
    && if update == Undef then SessionPinned(start, s, roots, dag, root)
       else
         && (forall k :: 0 <= k < |roots| ==> roots[k] in s) && root in s
         && (roots != [] ==> roots[0] == update || update in start)
         && (update != root ==> s[root].ptype == DATA_TYPE)
  }

  lemma TieTogether(
    cfg: Config, env: Env, now: Time, opts: PinOptions, start: State, s0: State, roots: seq<Cid>, dag: Cid, root: Cid,
    s1: State, s2: State)
    requires env.names != [] && InSession(start, s0, roots, opts.pinUpdate)
    requires Pinned(cfg, env, now, s0, AdderPin(DagPin(opts, dag, root, now)), [], s1, true)
    requires Pinned(cfg, env, now, s1, AdderPin(MetaPin(opts, root, dag, now)), [], s2, true)
    ensures Completed(cfg, start, s2, roots, dag, root, opts.pinUpdate)
  {
    var dagPin, metaPin := AdderPin(DagPin(opts, dag, root, now)), AdderPin(MetaPin(opts, root, dag, now));
    if opts.pinUpdate == Undef {
      PinLeaves(cfg, env, now, s0, dagPin, s1);
      PinLeaves(cfg, env, now, s1, metaPin, s2);
      CompletedByPins(start, s0, roots, dag, root, s1, s2);
    } else {
      UpdateNext(cfg, env, now, start, s0, roots, dagPin, s1);
      UpdateNext(cfg, env, now, start, s1, roots + [dag], metaPin, s2);
      CompletedByUpdates(start, roots, dag, root, opts.pinUpdate, s2);
      if opts.pinUpdate != root {
        UpdateIsData(cfg, env, now, s1, metaPin, s2);
      }
    }
  }

  /** All entries of a finished upload, but for the times of the shards. */
  ghost predicate AllRecorded(
    cfg: Config, opts: PinOptions, now: Time, s: State, closed: seq<seq<Block>>, roots: seq<Cid>,
    sent: seq<seq<PeerID>>, dag: Cid, root: Cid)
  {
    opts.pinUpdate == Undef ==> Recorded(cfg, opts, s, closed, roots, sent) && TopRecords(cfg, opts, now, s, dag, root)
  }

  lemma TopStored(
    cfg: Config, env: Env, now: Time, opts: PinOptions, s0: State, dag: Cid, root: Cid, s1: State, s2: State)
    requires env.names != [] && opts.pinUpdate == Undef
    requires Pinned(cfg, env, now, s0, AdderPin(DagPin(opts, dag, root, now)), [], s1, true)
    requires Pinned(cfg, env, now, s1, AdderPin(MetaPin(opts, root, dag, now)), [], s2, true)
    ensures TopRecords(cfg, opts, now, s2, dag, root) && SameOutside(s0, s2, {dag, root})
  {
    var dagPin, metaPin := AdderPin(DagPin(opts, dag, root, now)), AdderPin(MetaPin(opts, root, dag, now));
    PinTypes();
    AcceptedIff(cfg, env, now, s0, dagPin, [], s1, true);
    AcceptedIff(cfg, env, now, s1, metaPin, [], s2, true);
    var a := AcceptedPin(cfg, env, now, s0, dagPin, [], s1);
    var b := AcceptedPin(cfg, env, now, s1, metaPin, [], s2);
  }

  lemma StillRecorded(
    cfg: Config, opts: PinOptions, s: State, closed: seq<seq<Block>>, roots: seq<Cid>, sent: seq<seq<PeerID>>,
    s': State, ours: set<Cid>)
    requires Recorded(cfg, opts, s, closed, roots, sent) && SameOutside(s, s', ours)
    requires forall k :: 0 <= k < |roots| ==> roots[k] !in ours
    ensures Recorded(cfg, opts, s', closed, roots, sent)
  {
  }

  ghost function OutcomeOf(
    cfg: Config, opts: PinOptions, now: Time, start: State, x: Progress, dag: Cid, root: Cid): Integrity
  {
    if && Completed(cfg, start, x.pinset, x.roots, dag, root, opts.pinUpdate)
       && AllRecorded(cfg, opts, now, x.pinset, x.closed, x.roots, x.sent, dag, root)
    then Sound else Broken
  }

  ghost function SessionOf(start: State, s: State, roots: seq<Cid>, dag: Cid, root: Cid): Integrity {
    if SessionPinned(start, s, roots, dag, root) then Sound else Broken
  }

  lemma OutcomeIsSession(
    cfg: Config, opts: PinOptions, now: Time, start: State, x: Progress, dag: Cid, root: Cid)
    requires opts.pinUpdate == Undef && OutcomeOf(cfg, opts, now, start, x, dag, root) == Sound
    ensures !cfg.followerMode && SessionOf(start, x.pinset, x.roots, dag, root) == Sound
  {
  }

  lemma FinishedSoundly(
    cfg: Config, hash: Links -> Cid, env: Env, now: Time, opts: PinOptions, start: State, blocks: Blocks, x: Progress,
    dag: Cid, root: Cid, s1: State, s2: State)
    requires env.names != [] && IntegrityOf(cfg, hash, opts, start, blocks, x) == Sound
    requires Pinned(cfg, env, now, x.pinset, AdderPin(DagPin(opts, dag, root, now)), [], s1, true)
    requires Pinned(cfg, env, now, s1, AdderPin(MetaPin(opts, root, dag, now)), [], s2, true)
    ensures OutcomeOf(cfg, opts, now, start, x.(pinset := s2), dag, root) == Sound
  {
    TieTogether(cfg, env, now, opts, start, x.pinset, x.roots, dag, root, s1, s2);
    if opts.pinUpdate == Undef {
      TopStored(cfg, env, now, opts, x.pinset, dag, root, s1, s2);
      StillRecorded(cfg, opts, x.pinset, x.closed, x.roots, x.sent, s2, {dag, root});
    }
  }

  lemma UpdateIsData(cfg: Config, env: Env, now: Time, s: State, pin: Pin, s': State)
    requires env.names != [] && IsUpdate(pin) && Pinned(cfg, env, now, s, pin, [], s', true)
    ensures pin.cid in s' && s'[pin.cid].ptype == DATA_TYPE
  {
    PinTypes();
  }

  lemma CompletedByUpdates(start: State, roots: seq<Cid>, dag: Cid, root: Cid, update: Cid, s: State)
    requires UpdatesPinned(start, s, roots + [dag] + [root], update)
    ensures (forall k :: 0 <= k < |roots| ==> roots[k] in s) && root in s
    ensures roots != [] ==> roots[0] == update || update in start
  {
    var all := roots + [dag] + [root];
    assert forall k :: 0 <= k < |roots| ==> roots[k] == all[k];
    assert root == all[|roots| + 1];
  }

  lemma CompletedByPins(start: State, s0: State, roots: seq<Cid>, dag: Cid, root: Cid, s1: State, s2: State)
    requires ShardsPinned(start, s0, roots)
    requires OnlyAt(s0, dag, s1) && Extends(s0, s1) && dag in s1
    requires var q := s1[dag]; q.cid == dag && q.ptype == DAG_TYPE && q.reference == Some(root) && q.maxDepth == 0
    requires OnlyAt(s1, root, s2) && Extends(s1, s2) && root in s2
    requires s2[root].ptype == META_TYPE && s2[root].reference == Some(dag)
    ensures SessionPinned(start, s2, roots, dag, root)
  {
    assert dag !in roots;
    assert root != dag && root !in roots;
    OutsideNext(start, s0, Elements(roots), dag, s1);
    OutsideNext(start, s1, Elements(roots) + {dag}, root, s2);
    assert Elements(roots) + {dag} + {root} == Elements(roots) + {dag, root};
    SameShards(s0, roots, s2, {dag, root});
  }

  lemma SameShards(s: State, roots: seq<Cid>, s': State, changed: set<Cid>)
    requires PinnedAsShards(s, roots) && Chained(s, roots)
    requires forall k :: 0 <= k < |roots| ==> roots[k] !in changed
    requires forall c :: c !in changed && c in s ==> c in s' && s'[c] == s[c]
    ensures PinnedAsShards(s', roots) && Chained(s', roots)
  {
  }

  /** None of the CIDs of an upload was pinned before. */
  ghost predicate NoneIn(start: State, roots: seq<Cid>, dag: Cid, root: Cid) {
    dag !in start && root !in start && forall k :: 0 <= k < |roots| ==> roots[k] !in start
  }

  /** Unpinning the data root of an upload removes exactly what the upload pinned. */
  lemma UnpinRestores(
    cfg: Config, start: State, s: State, blocks: Blocks, roots: seq<Cid>, dag: Cid, root: Cid, s': State, ok: bool)
    requires !cfg.followerMode && SessionPinned(start, s, roots, dag, root) && NoneIn(start, roots, dag, root)
    requires dag in blocks && blocks[dag] == LinkMap(roots)
    requires Unpinned(cfg, s, blocks, root, s', ok)
    ensures ok && s' == start
  {
    LinkMapValues(roots);
    assert s' == s - (Elements(roots) + {dag, root});
    assert s'.Keys == start.Keys;
  }

  /** With more shards than links in a node, unpinning leaves every shard of an upload pinned. */
  lemma UnpinLeavesShards(
    cfg: Config, hash: Links -> Cid, nodes: seq<Block>, limit: nat, start: State, s: State, blocks: Blocks, root: Cid,
    s': State, ok: bool)
    requires !cfg.followerMode && GoodHash(hash, nodes) && AllFit(nodes, limit)
    requires |UploadRoots(hash, nodes, limit)| > MAX_LINKS
    requires var roots := UploadRoots(hash, nodes, limit);
      SessionPinned(start, s, roots, RootCid(hash, roots), root) && HoldsDag(hash, roots, blocks)
    requires Unpinned(cfg, s, blocks, root, s', ok)
    ensures var roots := UploadRoots(hash, nodes, limit);
      ok && forall k :: 0 <= k < |roots| ==> roots[k] in s' && s'[roots[k]] == s[roots[k]]
  {
    var roots := UploadRoots(hash, nodes, limit);
    forall k | 0 <= k < |roots|
      ensures roots[k] !in DagNodes(hash, roots)[0].Values
    {
      ShardsNotLinked(hash, nodes, limit, k);
    }
    ShardsStay(cfg, start, s, blocks, roots, RootCid(hash, roots), root, s', ok);
  }

  lemma ShardsStay(
    cfg: Config, start: State, s: State, blocks: Blocks, roots: seq<Cid>, dag: Cid, root: Cid, s': State, ok: bool)
    requires !cfg.followerMode && SessionPinned(start, s, roots, dag, root) && dag in blocks
    requires forall k :: 0 <= k < |roots| ==> roots[k] !in blocks[dag].Values
    requires Unpinned(cfg, s, blocks, root, s', ok)
    ensures ok && forall k :: 0 <= k < |roots| ==> roots[k] in s' && s'[roots[k]] == s[roots[k]]
  {
  }

  /** With the pin-update option, unpinning the data root leaves every shard pinned. */
  lemma UnpinLeavesUpdates(
    cfg: Config, start: State, s: State, blocks: Blocks, roots: seq<Cid>, dag: Cid, root: Cid, update: Cid,
    s': State, ok: bool)
    requires update != Undef && roots != [] && Completed(cfg, start, s, roots, dag, root, update)
    requires NoneIn(start, roots, dag, root) && root !in roots
    requires Unpinned(cfg, s, blocks, root, s', ok)
    ensures ok && forall k :: 0 <= k < |roots| ==> roots[k] in s'
  {
    assert update != root;
  }

  lemma AfterUnpin(
    cfg: Config, hash: Links -> Cid, nodes: seq<Block>, limit: nat, start: State, s: State, blocks: Blocks, root: Cid,
    update: Cid, s': State, ok: bool)
    requires AllFit(nodes, limit) && Unpinned(cfg, s, blocks, root, s', ok)
    requires var roots := UploadRoots(hash, nodes, limit);
      && roots != [] && Completed(cfg, start, s, roots, RootCid(hash, roots), root, update)
      && HoldsDag(hash, roots, blocks) && NoneIn(start, roots, RootCid(hash, roots), root)
    ensures var roots := UploadRoots(hash, nodes, limit);
      && (update == Undef && |roots| <= MAX_LINKS ==> ok && s' == start)
      && (GoodHash(hash, nodes) && root !in roots ==> (s' == start <==> update == Undef && |roots| <= MAX_LINKS))
  {
    var roots := UploadRoots(hash, nodes, limit);
    var dag := RootCid(hash, roots);
    if update == Undef && |roots| <= MAX_LINKS {
      UnpinRestores(cfg, start, s, blocks, roots, dag, root, s', ok);
    } else if GoodHash(hash, nodes) && root !in roots {
      if update == Undef {
        UnpinLeavesShards(cfg, hash, nodes, limit, start, s, blocks, root, s', ok);
      } else {
        UnpinLeavesUpdates(cfg, start, s, blocks, roots, dag, root, update, s', ok);
      }
      assert roots[0] in s' && roots[0] !in start;
    }
  }

  /**
   Unpinning an upload keeps some pinned CIDs exactly if none of them is its root, its cluster DAG or
   linked from that; with a single node, the linked ones are the shards.
   */
  lemma UnpinKeepsIff(
    cfg: Config, start: State, s: State, blocks: Blocks, roots: seq<Cid>, dag: Cid, root: Cid, s': State, ok: bool,
    others: set<Cid>)
    requires !cfg.followerMode && SessionPinned(start, s, roots, dag, root)
    requires dag in blocks && Unpinned(cfg, s, blocks, root, s', ok) && others <= s.Keys
    ensures ok && (others <= s'.Keys <==> others !! blocks[dag].Values + {dag, root})
    ensures blocks[dag] == LinkMap(roots) ==> blocks[dag].Values == Elements(roots)
  {
    LinkMapValues(roots);
    assert s'.Keys == s.Keys - (blocks[dag].Values + {dag, root});
  }

  /** A second upload leaves the meta pin and the cluster DAG of the first in place. */
  lemma FirstUploadStays(
    start: State, s: State, roots: seq<Cid>, dag: Cid, root: Cid, s2: State, roots2: seq<Cid>, dag2: Cid, root2: Cid)
    requires SessionOf(start, s, roots, dag, root) == SessionOf(s, s2, roots2, dag2, root2) == Sound && root != root2
    ensures root in s2 && s2[root].ptype == META_TYPE && s2[root].reference == Some(dag)
    ensures dag in s2 && s2[dag].cid == dag
  {
    assert s2[root].ptype == s[root].ptype && s2[dag].ptype == s[dag].ptype;
    assert root !in roots2 && root != dag2;
    assert dag !in roots2 && dag != root2;
  }

  lemma UnpinFirst(
    cfg: Config, hash: Links -> Cid, s: State, blocks: Blocks, roots: seq<Cid>, root: Cid, s': State, ok: bool)
    requires !cfg.followerMode && Injective(hash) && |roots| <= MAX_LINKS
    requires var dag := RootCid(hash, roots);
      && root in s && s[root].ptype == META_TYPE && s[root].reference == Some(dag) && dag in s && s[dag].cid == dag
      && dag in blocks && hash(blocks[dag]) == dag && Unpinned(cfg, s, blocks, root, s', ok)
    ensures ok && s'.Keys == s.Keys - (Elements(roots) + {RootCid(hash, roots), root})
  {
    LinkMapValues(roots);
  }
}

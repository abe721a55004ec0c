/** The cluster operations that change the pinset, and what holds over every run of them. */
module ClusterOps {
  import opened Basics
  import opened Pins
  import opened Allocation
  import opened AllocationTheorems
  import opened Pinset
  import Election

  class Cluster {
    const cfg: Config
    var pinset: State
    var blocks: Blocks

    constructor (cfg: Config)
      ensures this.cfg == cfg && pinset == map[] && blocks == map[]
    {
      this.cfg, pinset, blocks := cfg, map[], map[];
    }

    /** `Cluster.pin`: pins with new allocations, or the preset ones. */
    method SubmitPin(env: Env, now: Time, pin: Pin, blacklist: seq<PeerID>) returns (r: Result<Pin>)
      requires WellFormed(env)
      modifies this`pinset
      ensures Pinned(cfg, env, now, old(pinset), pin, blacklist, pinset, r.Ok?)
      ensures r.Ok? ==> pin.cid in pinset && pinset[pin.cid] == Saved(r.value)
      ensures !cfg.followerMode && Plain(pin) && FreeFor(old(pinset), pin.cid, pin.ptype) ==> r.Ok?
    {
      if cfg.followerMode || pin.cid == Undef {
        return Err;
      }
      if IsUpdate(pin) {
        r := PinUpdate(now, pin.opts.pinUpdate, pin.cid, pin.opts);
        return;
      }
      var existing := Get(pinset, pin.cid);
      var setup := SetupPin(cfg, pin, existing, now);
      if setup.Err? {
        return Err;
      }
      SetupValid(cfg, pin, existing, now);
      var p := setup.value.(timestamp := now);
      if p.ptype == META_TYPE {
        pinset := pinset[p.cid := Saved(p)];
        return Ok(p);
      }
      if p.allocations == [] {
        var current := if existing.Some? then existing.value.allocations else [];
        var lists := Lists(current, p.opts.userAllocations, blacklist);
        var allocs := AllocatePeers(env, lists, p.opts.rplMin, p.opts.rplMax);
        assert lists == ListsFor(pinset, p, blacklist);
        if allocs.Err? {
          assert Commits(pinset, p, allocs, pinset, false);
          return Err;
        }
        ghost var before := pinset;
        pinset := pinset[p.cid := Saved(p.(allocations := allocs.value))];
        assert Commits(before, p, allocs, pinset, true);
        return Ok(p.(allocations := allocs.value));
      }
      pinset := pinset[p.cid := Saved(p)];
      return Ok(p);
    }

    /** Peers to put blocks on before they are pinned: the allocation, or everyone for pins that go everywhere. */
    method BlockAllocate(env: Env, now: Time, pin: Pin, pinging: seq<PeerID>) returns (r: Result<seq<PeerID>>)
      requires WellFormed(env)
      ensures r.Ok? && pin.opts.rplMin > 0 ==> r.value != []
      ensures BlockAllocated(cfg, env, now, pinset, pin, pinging, r)
    {
      if cfg.followerMode {
        return Err;
      }
      var existing := Get(pinset, pin.cid);
      var setup := SetupPin(cfg, pin, existing, now);
      if setup.Err? {
        return Err;
      }
      SetupValid(cfg, pin, existing, now);
      var p := setup.value;
      if p.opts.rplMin < 0 {
        return Ok(pinging);
      }
      var lists := Lists(if existing.Some? then existing.value.allocations else [], p.opts.userAllocations, []);
      assert lists == ListsFor(pinset, p, []);
      r := AllocatePeers(env, lists, p.opts.rplMin, p.opts.rplMax);
      if r.Ok? {
        AllocatedNonEmpty(env, lists, p.opts.rplMin, p.opts.rplMax, r.value);
      }
    }

    /** Stores DAG nodes in IPFS. */
    method PutBlocks(hash: Links -> Cid, nodes: seq<Links>)
      modifies this`blocks
      ensures |nodes| == 1 ==> blocks == old(blocks)[hash(nodes[0]) := nodes[0]]
      ensures BlocksGrow(hash, old(blocks), blocks)
      ensures forall i :: 0 <= i < |nodes| ==>
        hash(nodes[i]) in blocks && hash(blocks[hash(nodes[i])]) == hash(nodes[i])
    {
      var i := 0;
      while i < |nodes|
        invariant 0 <= i <= |nodes|
        invariant i == 0 ==> blocks == old(blocks)
        invariant i == 1 ==> blocks == old(blocks)[hash(nodes[0]) := nodes[0]]
        invariant BlocksGrow(hash, old(blocks), blocks)
        invariant forall j :: 0 <= j < i ==> hash(nodes[j]) in blocks && hash(blocks[hash(nodes[j])]) == hash(nodes[j])
      {
        blocks := blocks[hash(nodes[i]) := nodes[i]];
        i := i + 1;
      }
    }

    /** Pins `to` with the options and allocations of the data pin `from`. */
    method PinUpdate(now: Time, from: Cid, to: Cid, opts: PinOptions) returns (r: Result<Pin>)
      modifies this`pinset
      ensures Updated(old(pinset), from, to, opts, now, pinset, r.Ok?)
      ensures r.Ok? ==> to in pinset && pinset[to] == Saved(r.value)
    {
      if from !in pinset || pinset[from].ptype != DATA_TYPE {
        return Err;
      }
      var updated := UpdatedPin(pinset[from], from, to, opts, now);
      pinset := pinset[to := Saved(updated)];
      return Ok(updated);
    }

    /** The CIDs behind a pin: shards first, then the cluster DAG, and the pin itself last. */
    method CidsFromMetaPin(h: Cid) returns (r: Result<seq<Cid>>)
      ensures r.Ok? <==> MetaCids(pinset, blocks, h).Ok?
      ensures r.Ok? ==> Elements(r.value) == MetaCids(pinset, blocks, h).value && r.value != [] && Last(r.value) == h
      ensures r.Ok? && pinset[h].ptype == META_TYPE ==>
        |r.value| >= 2 && Some(r.value[|r.value| - 2]) == pinset[h].reference
    {
      if h !in pinset {
        return Err;
      }
      var list := [h];
      var pin := pinset[h];
      if pin.ptype != META_TYPE {
        return Ok(list);
      }
      if pin.reference.None? {
        return Err;
      }
      var ref := pin.reference.value;
      list := [ref] + list;
      if ref !in pinset || pinset[ref].cid !in blocks {
        return Err;
      }
      var links := blocks[pinset[ref].cid];
      var order := AnyOrder(links.Keys);
      var i := 0;
      while i < |order|
        invariant 0 <= i <= |order|
        invariant forall c :: c in list <==>
          c == ref || c == h || exists j :: 0 <= j < i && order[j] in links && links[order[j]] == c
        invariant |list| >= 2 && Last(list) == h && list[|list| - 2] == ref
      {
        assert order[i] in Elements(order);
        list := [links[order[i]]] + list;
        i := i + 1;
      }
      forall c
        ensures c in list <==> c in links.Values + {ref, h}
      {
        if c in links.Values {
          var k :| k in links && links[k] == c;
          assert k in Elements(order);
          var j :| 0 <= j < |order| && order[j] == k;
        }
      }
      return Ok(list);
    }

    /** Removes a data pin, or a meta pin with its cluster DAG and shards. */
    method Unpin(h: Cid) returns (ok: bool)
      modifies this`pinset
      ensures Unpinned(cfg, old(pinset), blocks, h, pinset, ok)
    {
      if cfg.followerMode || h !in pinset {
        return false;
      }
      var pin := pinset[h];
      if pin.ptype == DATA_TYPE {
        pinset := pinset - {h};
        return true;
      }
      if pin.ptype != META_TYPE {
        return false;
      }
      var cids := CidsFromMetaPin(h);
      if cids.Err? {
        return false;
      }
      UnpinAll(cids.value);
      pinset := pinset - {h};
      return true;
    }

    method UnpinAll(cids: seq<Cid>)
      modifies this`pinset
      ensures pinset == old(pinset) - Elements(cids)
    {
      var i := 0;
      while i < |cids|
        invariant 0 <= i <= |cids| && pinset == old(pinset) - Elements(cids[..i])
      {
        pinset := pinset - {cids[i]};
        PrefixSnoc(cids, i);
        assert Elements(cids[..i + 1]) == Elements(cids[..i]) + {cids[i]};
        i := i + 1;
      }
      assert cids[..i] == cids;
    }

    /** Unpins the expired pins that this peer is closest to. */
    method StateSync(now: Time, dc: Election.DistanceChecker)
      requires dc.Valid()
      modifies this`pinset, dc`cache
      ensures dc.Valid() && Synced(cfg, blocks, now, dc.digest, dc.local, Elements(dc.otherPeers), old(pinset), pinset)
    {
      if cfg.followerMode {
        return;
      }
      var snapshot := pinset;
      var rest := snapshot.Keys;
      ghost var due := DuePins(now, dc.digest, dc.local, Elements(dc.otherPeers), snapshot);
      ghost var gone: set<Cid> := {};
      assert Removals(snapshot, blocks, gone) == {};
      while rest != {}
        invariant rest <= snapshot.Keys && dc.Valid() && Swept(blocks, due - rest, gone, snapshot, pinset)
        decreases rest
      {
        var c :| c in rest;
        ghost var before := pinset;
        var ok := SyncPin(now, dc, c, snapshot[c], c in due);
        if c in due {
          SweepOne(cfg, blocks, due - rest, gone, snapshot, before, c, pinset, ok);
          gone := if ok then gone + {c} else gone;
        }
        assert due - (rest - {c}) == (due - rest) + due * {c};
        rest := rest - {c};
      }
      assert due - rest == due;
    }

    /** Unpins one pin if it is due. */
    method SyncPin(now: Time, dc: Election.DistanceChecker, c: Cid, pin: Pin, ghost due: bool) returns (ok: bool)
      requires dc.Valid() && !cfg.followerMode
      requires due <==>
        pin.ExpiredAt(now) && Election.Closest(dc.digest, KeyString(c), dc.local, Elements(dc.otherPeers))
      modifies this`pinset, dc`cache
      ensures dc.Valid()
      ensures if due then Unpinned(cfg, old(pinset), blocks, c, pinset, ok) else pinset == old(pinset)
    {
      if !pin.ExpiredAt(now) {
        return false;
      }
      var closest := dc.IsClosest(KeyString(c));
      if !closest {
        return false;
      }
      ok := Unpin(c);
    }

    /** Re-pins every pin that is allocated to peer `p`, avoiding `p`, in any order. */
    method VacatePeer(env: Env, now: Time, p: PeerID) returns (ghost order: seq<Cid>)
      requires WellFormed(env) && AsRead(pinset)
      modifies this`pinset
      ensures AsRead(pinset) && PassVacated(cfg, env, now, p, old(pinset), pinset, order)
    {
      var snapshot := pinset;
      var cids := AnyOrder(snapshot.Keys);
      order := cids;
      if cfg.disableRepinning {
        return;
      }
      var i := 0;
      while i < |cids|
        invariant 0 <= i <= |cids| && AsRead(pinset) && VacatedUpTo(cfg, env, now, p, snapshot, pinset, cids, i)
      {
        ghost var before := pinset;
        VacateOne(env, now, p, snapshot[cids[i]]);
        VacateStep(cfg, env, now, p, snapshot, before, cids, i, pinset);
        i := i + 1;
      }
      PassDone(cfg, env, now, p, snapshot, pinset, cids);
    }

    /** Re-pins a pin if it is allocated to peer `p`. */
    method VacateOne(env: Env, now: Time, p: PeerID, pin: Pin)
      requires WellFormed(env) && AsRead(pinset) && pin.cid in pinset && pinset[pin.cid] == pin
      requires !cfg.disableRepinning
      modifies this`pinset
      ensures AsRead(pinset) && OnlyAt(old(pinset), pin.cid, pinset) && pinset.Keys == old(pinset).Keys
      ensures KeepsTypes(old(pinset), pinset)
      ensures pinset[pin.cid] in VacatedPins(cfg, env, now, p, pin, Get(old(pinset), pin.opts.pinUpdate))
    {
      if p in pin.allocations {
        RepinFromPeer(env, now, p, pin);
      }
    }

    /** Re-pins one pin without its allocations, avoiding peer `p`. */
    method RepinFromPeer(env: Env, now: Time, p: PeerID, pin: Pin)
      requires WellFormed(env) && AsRead(pinset) && pin.cid in pinset && pinset[pin.cid] == pin && p in pin.allocations
      requires !cfg.disableRepinning
      modifies this`pinset
      ensures AsRead(pinset) && OnlyAt(old(pinset), pin.cid, pinset) && pinset.Keys == old(pinset).Keys
      ensures KeepsTypes(old(pinset), pinset)
      ensures pinset[pin.cid] in VacatedPins(cfg, env, now, p, pin, Get(old(pinset), pin.opts.pinUpdate))
    {
      var r := SubmitPin(env, now, pin.(allocations := []), [p]);
      PinnedReads(cfg, env, now, old(pinset), pin.(allocations := []), [p], pinset, r.Ok?);
      RepinVacates(cfg, env, now, p, old(pinset), pin, pinset, r.Ok?);
    }
  }

  /** Blocks go to the peers that the pin would be allocated to, or to everyone if it goes everywhere. */
  ghost predicate BlockAllocated(
    cfg: Config, env: Env, now: Time, s: State, pin: Pin, pinging: seq<PeerID>, r: Result<seq<PeerID>>)
    requires env.names != []
  {
    var setup := SetupPin(cfg, pin, Get(s, pin.cid), now);
    if cfg.followerMode || setup.Err? then r.Err?
    else if setup.value.IsPinEverywhere() then r == Ok(pinging)
    else Allocated(env, ListsFor(s, setup.value, []), setup.value.opts.rplMin, setup.value.opts.rplMax, r)
  }

  // ----- expiry -----

  function KeyString(c: Cid): string {
    if c == Undef then "" else c.bytes
  }

  /** The expired pins to which this peer knows no closer one. */
  ghost function DuePins(
    now: Time, digest: string -> Election.Distance, local: PeerID, others: set<PeerID>, s: State): set<Cid>
  {
    set c | c in s && s[c].ExpiredAt(now) && Election.Closest(digest, KeyString(c), local, others)
  }

  /** What goes when `d` is unpinned. */
  ghost function Removal(s: State, blocks: Blocks, d: Cid): set<Cid> {
    if d in s && s[d].ptype == DATA_TYPE then {d}
    else if d in s && s[d].ptype == META_TYPE && MetaCids(s, blocks, d).Ok? then MetaCids(s, blocks, d).value
    else {}
  }

  /** What goes when the CIDs in `gone` are unpinned. */
  ghost function Removals(s: State, blocks: Blocks, gone: set<Cid>): set<Cid> {
    set d, c | d in gone && c in Removal(s, blocks, d) :: c
  }

  /**
   `s'` is `s` without what unpinning the CIDs in `gone` removes. Of those in `due` that can be unpinned
   it keeps only meta pins whose cluster DAG went with another pin.
   */
  ghost predicate Swept(blocks: Blocks, due: set<Cid>, gone: set<Cid>, s: State, s': State) {
    && gone <= due && s' == s - Removals(s, blocks, gone)
    && forall c :: c in due && Removal(s, blocks, c) != {} ==> c !in s' || LostDag(s, s', c)
  }

  ghost predicate LostDag(s: State, s': State, c: Cid) {
    && c in s && s[c].ptype == META_TYPE && s[c].reference.Some?
    && s[c].reference.value in s && s[c].reference.value !in s'
  }

  /** A `StateSync` that takes the pinset from `s` to `s'`. */
  ghost predicate Synced(
    cfg: Config, blocks: Blocks, now: Time, digest: string -> Election.Distance, local: PeerID, others: set<PeerID>,
    s: State, s': State)
  {
    if cfg.followerMode then s' == s
    else exists gone :: Swept(blocks, DuePins(now, digest, local, others, s), gone, s, s')
  }

  /** The pin that is unpinned next takes what it would have taken at first, or nothing. */
  lemma UnpinsTheSame(cfg: Config, blocks: Blocks, s: State, lost: set<Cid>, c: Cid, s'': State, ok: bool)
    requires !cfg.followerMode && c in s && Unpinned(cfg, s - lost, blocks, c, s'', ok)
    ensures s'' == s - lost - if ok then Removal(s, blocks, c) else {}
    ensures !ok && Removal(s, blocks, c) != {} ==> c !in s'' || LostDag(s, s'', c)
    ensures ok ==> c !in s''
  {
  }

  lemma RemovalsNext(s: State, blocks: Blocks, gone: set<Cid>, c: Cid)
    ensures Removals(s, blocks, gone + {c}) == Removals(s, blocks, gone) + Removal(s, blocks, c)
  {
    forall x | x in Removal(s, blocks, c)
      ensures x in Removals(s, blocks, gone + {c})
    {
      assert c in gone + {c};
    }
  }

  /** One more pin that is due. */
  lemma SweepOne(
    cfg: Config, blocks: Blocks, due: set<Cid>, gone: set<Cid>, s: State, s': State, c: Cid, s'': State, ok: bool)
    requires Swept(blocks, due, gone, s, s') && c in s && !cfg.followerMode
    requires Unpinned(cfg, s', blocks, c, s'', ok)
    ensures Swept(blocks, due + {c}, if ok then gone + {c} else gone, s, s'')
  {
    UnpinsTheSame(cfg, blocks, s, Removals(s, blocks, gone), c, s'', ok);
    RemovalsNext(s, blocks, gone, c);
  }

  /** At instant `t`, in nanoseconds, the time of the pin is over; one at 0 never is. */
  ghost predicate OverAt(pin: Pin, t: int) {
    pin.opts.expireAt.At? && pin.opts.expireAt.nanos != 0 && pin.opts.expireAt.nanos < t
  }

  /** Meta pin `m` refers to `c` as its cluster DAG, or that links to `c`. */
  ghost predicate PartOf(s: State, blocks: Blocks, m: Cid, c: Cid) {
    && m in s && s[m].ptype == META_TYPE && s[m].reference.Some?
    && var dag := s[m].reference.value;
    && dag in s && s[dag].cid in blocks && (c == dag || c in blocks[s[dag].cid].Values)
  }

  /** Exactly when unpinning succeeds, and what it takes: the pin itself and the parts of a meta pin. */
  lemma UnpinTakes(cfg: Config, s: State, blocks: Blocks, h: Cid, s': State, ok: bool)
    requires Unpinned(cfg, s, blocks, h, s', ok)
    ensures ok <==>
      && !cfg.followerMode && h in s
      && (s[h].ptype == DATA_TYPE || exists dag :: s[h].reference == Some(dag) && PartOf(s, blocks, h, dag))
    ensures s'.Keys <= s.Keys
    ensures forall c :: c in s ==>
      && (c !in s' <==> ok && (c == h || PartOf(s, blocks, h, c)))
      && (c in s' ==> s'[c] == s[c])
  {
    if h in s && s[h].ptype == META_TYPE && s[h].reference.Some? {
      assert PartOf(s, blocks, h, s[h].reference.value) <==> MetaCids(s, blocks, h).Ok?;
    }
  }

  /**
   A sync at instant `t` unpins every data pin whose time is over and to whose CID this peer knows no
   closer one, and every such meta pin unless its cluster DAG is gone.
   */
  lemma SyncUnpins(
    cfg: Config, blocks: Blocks, t: int, digest: string -> Election.Distance, local: PeerID, others: set<PeerID>,
    s: State, s': State, b: string)
    requires !cfg.followerMode && Synced(cfg, blocks, At(t), digest, local, others, s, s')
    requires Cid(b) in s && OverAt(s[Cid(b)], t) && Election.Closest(digest, b, local, others)
    ensures s[Cid(b)].ptype == DATA_TYPE ==> Cid(b) !in s'
    ensures forall dag :: s[Cid(b)].reference == Some(dag) && PartOf(s, blocks, Cid(b), dag) ==>
      Cid(b) !in s' || dag !in s'
  {
    var gone :| Swept(blocks, DuePins(At(t), digest, local, others, s), gone, s, s');
    assert Cid(b) in DuePins(At(t), digest, local, others, s);
  }

  /**
   It changes no pin and takes only pins `m` whose time is over and to which this peer is closest, and
   with a meta pin its parts.
   */
  lemma SyncKeeps(
    cfg: Config, blocks: Blocks, t: int, digest: string -> Election.Distance, local: PeerID, others: set<PeerID>,
    s: State, s': State, c: Cid)
    returns (m: Cid)
    requires Undef !in s && Synced(cfg, blocks, At(t), digest, local, others, s, s') && c in s
    ensures c in s' ==> s'[c] == s[c]
    ensures c !in s' ==>
      && m in s && m !in s' && (m == c || PartOf(s, blocks, m, c))
      && OverAt(s[m], t) && Election.Closest(digest, m.bytes, local, others)
  {
    m := c;
    if c !in s' {
      var due := DuePins(At(t), digest, local, others, s);
      var gone :| Swept(blocks, due, gone, s, s');
      m := TakenBy(blocks, due, gone, s, s', c);
    }
  }

  /** A pin that goes in a sync was due, or is part of a meta pin that was due and is gone too. */
  lemma TakenBy(blocks: Blocks, due: set<Cid>, gone: set<Cid>, s: State, s': State, c: Cid) returns (d: Cid)
    requires Swept(blocks, due, gone, s, s') && c in s && c !in s'
    ensures d in due && d !in s' && (c == d || PartOf(s, blocks, d, c))
  {
    d :| d in gone && c in Removal(s, blocks, d);
    assert d in Removal(s, blocks, d);
    assert d in Removals(s, blocks, gone);
  }

  /** Whatever the peers know of each other, an expired data pin is unpinned by some peer that runs `StateSync`. */
  lemma ExpiredIsUnpinned(cfg: Config, blocks: Blocks, t: int, digest: string -> Election.Distance,
                          peers: set<PeerID>, views: map<PeerID, set<PeerID>>, s: State, b: string) returns (n: PeerID)
    requires !cfg.followerMode && peers != {} && views.Keys == peers && forall p :: p in peers ==> views[p] <= peers
    requires Cid(b) in s && s[Cid(b)].ptype == DATA_TYPE && OverAt(s[Cid(b)], t)
    ensures n in peers && forall s' :: Synced(cfg, blocks, At(t), digest, n, views[n], s, s') ==> Cid(b) !in s'
  {
    n := Election.Coverage(digest, b, peers, views);
    forall s' | Synced(cfg, blocks, At(t), digest, n, views[n], s, s')
      ensures Cid(b) !in s'
    {
      SyncUnpins(cfg, blocks, t, digest, n, views[n], s, s', b);
    }
  }

  // ----- vacating -----

  predicate IsData(p: Option<Pin>) {
    p.Some? && p.value.ptype == DATA_TYPE
  }

  /**
   What vacating peer `p` makes of a stored pin. A pin made by an update is not re-allocated but
   made again from `source`, the pin it came from.
   */
  ghost predicate Vacated(cfg: Config, env: Env, now: Time, p: PeerID, pin: Pin, source: Option<Pin>, pin': Pin)
    requires env.names != []
  {
    var setup := SetupPin(cfg, pin.(allocations := []), Some(pin), now);
    if p !in pin.allocations || cfg.followerMode || cfg.disableRepinning then pin' == pin
    else if IsUpdate(pin) then
      pin' ==
        if IsData(source) then Saved(UpdatedPin(source.value, pin.opts.pinUpdate, pin.cid, pin.opts, now)) else pin
    else if setup.Err? then pin' == pin
    else Reallocated(env, now, p, pin, setup.value, pin')
  }

  /** What becomes of a pin that was set up again as `q` and must avoid peer `p`. */
  ghost predicate Reallocated(env: Env, now: Time, p: PeerID, pin: Pin, q: Pin, pin': Pin)
    requires env.names != []
  {
    var l := Lists(pin.allocations, [], [p]);
    var min, max := q.opts.rplMin, q.opts.rplMax;
    var healthy, held := HealthyPeers(env, l), |Holders(env, l)|;
    if q.ptype == META_TYPE || q.IsPinEverywhere() then pin' == Saved(q.(timestamp := now, allocations := []))
    else if |healthy| < min then pin' == pin
    else
      && pin' == Saved(q.(timestamp := now, allocations := pin'.allocations))
      && if min <= held <= max then pin'.allocations == pin.allocations
         else
           && p !in pin'.allocations
           && NoDup(pin'.allocations)
           && Elements(pin'.allocations) <= healthy
           && |pin'.allocations| == Min(max, |healthy|) >= min
  }

  /** What vacating may make of a pin. */
  ghost function VacatedPins(
    cfg: Config, env: Env, now: Time, p: PeerID, pin: Pin, source: Option<Pin>): iset<Pin>
    requires env.names != []
  {
    iset pin' | Vacated(cfg, env, now, p, pin, source, pin')
  }

  ghost predicate VisitedFirst(order: seq<Cid>, f: Cid, c: Cid) {
    exists i, j :: 0 <= i < j < |order| && order[i] == f && order[j] == c
  }

  /** The source of `c` when `c` is visited: as it ends up if it was visited before, else as it began. */
  ghost function SourceSeen(s0: State, s: State, order: seq<Cid>, c: Cid): Option<Pin>
    requires c in s0
  {
    var f := s0[c].opts.pinUpdate;
    if VisitedFirst(order, f, c) then Get(s, f) else Get(s0, f)
  }

  ghost predicate VacatedAt(cfg: Config, env: Env, now: Time, p: PeerID, s0: State, s: State, order: seq<Cid>, c: Cid)
    requires env.names != []
  {
    c in s0 && c in s && s[c] in VacatedPins(cfg, env, now, p, s0[c], SourceSeen(s0, s, order, c))
  }

  /** The first `n` pins of `s0` in `order` have been vacated, and the others are untouched. */
  ghost predicate VacatedUpTo(
    cfg: Config, env: Env, now: Time, p: PeerID, s0: State, s: State, order: seq<Cid>, n: nat)
    requires env.names != []
  {
    && NoDup(order) && Elements(order) == s0.Keys && s.Keys == s0.Keys && KeepsTypes(s0, s)
    && UntouchedFrom(s0, s, order, n) && DoneUpTo(cfg, env, now, p, s0, s, order, n)
  }

  ghost predicate UntouchedFrom(s0: State, s: State, order: seq<Cid>, n: nat) {
    forall i :: n <= i < |order| ==> order[i] in s0 && order[i] in s && s[order[i]] == s0[order[i]]
  }

  ghost predicate DoneUpTo(
    cfg: Config, env: Env, now: Time, p: PeerID, s0: State, s: State, order: seq<Cid>, n: nat)
    requires env.names != []
  {
    forall i :: 0 <= i < |order| && i < n ==> VacatedAt(cfg, env, now, p, s0, s, order, order[i])
  }

  /** A pass over all pins, in that order, has vacated peer `p`. */
  ghost predicate PassVacated(cfg: Config, env: Env, now: Time, p: PeerID, s0: State, s: State, order: seq<Cid>)
    requires env.names != []
  {
    && NoDup(order) && Elements(order) == s0.Keys && s.Keys == s0.Keys && KeepsTypes(s0, s)
    && forall c :: c in s0 ==> VacatedAt(cfg, env, now, p, s0, s, order, c)
  }

  lemma VacateStep(
    cfg: Config, env: Env, now: Time, p: PeerID, s0: State, s: State, order: seq<Cid>, n: nat, s': State)
    requires env.names != [] && n < |order| && VacatedUpTo(cfg, env, now, p, s0, s, order, n)
    requires OnlyAt(s, order[n], s') && s'.Keys == s.Keys && KeepsTypes(s, s')
    requires var c := order[n];
      c in s0 && c in s' && s'[c] in VacatedPins(cfg, env, now, p, s0[c], Get(s, s0[c].opts.pinUpdate))
    ensures VacatedUpTo(cfg, env, now, p, s0, s', order, n + 1)
  {
    LaterUntouched(s0, s, order, n, s');
    NowVacated(cfg, env, now, p, s0, s, order, n, s');
    DoneNext(cfg, env, now, p, s0, s, order, n, s');
  }

  lemma DoneNext(
    cfg: Config, env: Env, now: Time, p: PeerID, s0: State, s: State, order: seq<Cid>, n: nat, s': State)
    requires env.names != [] && n < |order| && NoDup(order) && s'.Keys == s.Keys && OnlyAt(s, order[n], s')
    requires DoneUpTo(cfg, env, now, p, s0, s, order, n) && VacatedAt(cfg, env, now, p, s0, s', order, order[n])
    ensures DoneUpTo(cfg, env, now, p, s0, s', order, n + 1)
  {
    forall i | 0 <= i < n
      ensures VacatedAt(cfg, env, now, p, s0, s', order, order[i])
    {
      StaysVacated(cfg, env, now, p, s0, s, order, n, s', i);
    }
  }

  lemma LaterUntouched(s0: State, s: State, order: seq<Cid>, n: nat, s': State)
    requires n < |order| && NoDup(order) && OnlyAt(s, order[n], s') && s.Keys == s'.Keys == s0.Keys
    requires KeepsTypes(s0, s) && KeepsTypes(s, s')
    requires UntouchedFrom(s0, s, order, n)
    ensures KeepsTypes(s0, s') && UntouchedFrom(s0, s', order, n + 1)
  {
    forall i | n + 1 <= i < |order|
      ensures order[i] in s0 && order[i] in s' && s'[order[i]] == s0[order[i]]
    {
      assert order[i] != order[n];
    }
  }

  lemma SeesCurrent(s0: State, s: State, order: seq<Cid>, n: nat, s': State)
    requires 0 <= n < |order| && NoDup(order) && Elements(order) == s0.Keys == s.Keys && order[n] in s0
    requires UntouchedFrom(s0, s, order, n) && OnlyAt(s, order[n], s')
    ensures SourceSeen(s0, s', order, order[n]) == Get(s, s0[order[n]].opts.pinUpdate)
  {
    var c := order[n];
    var f := s0[c].opts.pinUpdate;
    if VisitedFirst(order, f, c) {
      var i, j :| 0 <= i < j < |order| && order[i] == f && order[j] == c;
      assert j == n;
    } else if f in s0 {
      assert f in Elements(order);
      var i :| 0 <= i < |order| && order[i] == f;
      assert n <= i;
    }
  }

  lemma SeesTheSame(s0: State, s: State, order: seq<Cid>, n: int, s': State, i: int)
    requires 0 <= i < n < |order| && NoDup(order) && order[i] in s0 && OnlyAt(s, order[n], s')
    ensures SourceSeen(s0, s', order, order[i]) == SourceSeen(s0, s, order, order[i])
  {
    var f := s0[order[i]].opts.pinUpdate;
    if VisitedFirst(order, f, order[i]) {
      var k, j :| 0 <= k < j < |order| && order[k] == f && order[j] == order[i];
      assert j == i;
    }
  }

  lemma NowVacated(
    cfg: Config, env: Env, now: Time, p: PeerID, s0: State, s: State, order: seq<Cid>, n: nat, s': State)
    requires env.names != [] && n < |order| && NoDup(order) && Elements(order) == s0.Keys == s.Keys
    requires UntouchedFrom(s0, s, order, n) && OnlyAt(s, order[n], s')
    requires var c := order[n];
      c in s0 && c in s' && s'[c] in VacatedPins(cfg, env, now, p, s0[c], Get(s, s0[c].opts.pinUpdate))
    ensures VacatedAt(cfg, env, now, p, s0, s', order, order[n])
  {
    SeesCurrent(s0, s, order, n, s');
  }

  lemma StaysVacated(
    cfg: Config, env: Env, now: Time, p: PeerID, s0: State, s: State, order: seq<Cid>, n: nat, s': State, i: int)
    requires env.names != [] && 0 <= i < n < |order| && NoDup(order) && s'.Keys == s.Keys && OnlyAt(s, order[n], s')
    requires VacatedAt(cfg, env, now, p, s0, s, order, order[i])
    ensures VacatedAt(cfg, env, now, p, s0, s', order, order[i])
  {
    assert order[i] != order[n];
    SeesTheSame(s0, s, order, n, s', i);
  }

  lemma PassDone(cfg: Config, env: Env, now: Time, p: PeerID, s0: State, s: State, order: seq<Cid>)
    requires env.names != [] && VacatedUpTo(cfg, env, now, p, s0, s, order, |order|)
    ensures PassVacated(cfg, env, now, p, s0, s, order)
  {
    forall c | c in s0
      ensures VacatedAt(cfg, env, now, p, s0, s, order, c)
    {
      assert c in Elements(order);
      var i :| 0 <= i < |order| && order[i] == c;
    }
  }

  lemma RepinVacates(cfg: Config, env: Env, now: Time, p: PeerID, s: State, pin: Pin, s': State, ok: bool)
    requires env.names != [] && AsRead(s) && pin.cid in s && s[pin.cid] == pin && p in pin.allocations
    requires !cfg.disableRepinning && Pinned(cfg, env, now, s, pin.(allocations := []), [p], s', ok)
    ensures pin.cid in s' && s'[pin.cid] in VacatedPins(cfg, env, now, p, pin, Get(s, pin.opts.pinUpdate))
    ensures KeepsTypes(s, s')
  {
    var bare := pin.(allocations := []);
    PinnedReads(cfg, env, now, s, bare, [p], s', ok);
    assert ReadPin(pin.cid, pin);
    var setup := SetupPin(cfg, bare, Some(pin), now);
    if IsUpdate(pin) {
      PinTypes();
    } else if !cfg.followerMode && setup.Ok? {
      SetupValid(cfg, bare, Some(pin), now);
      RepinReallocates(env, now, p, s, pin, setup.value, s', ok);
    }
  }

  lemma RepinReallocates(env: Env, now: Time, p: PeerID, s: State, pin: Pin, q: Pin, s': State, ok: bool)
    requires env.names != [] && pin.cid in s && s[pin.cid] == pin
    requires ReadyPin(q) && q.cid == pin.cid && q.allocations == [] && q.opts.userAllocations == []
    requires Stored(env, s, q.(timestamp := now), [p], s', ok)
    ensures pin.cid in s' && Reallocated(env, now, p, pin, q, s'[pin.cid])
  {
    var t := q.(timestamp := now);
    if q.ptype != META_TYPE {
      var l := ListsFor(s, t, [p]);
      assert l == Lists(pin.allocations, [], [p]);
      var r :| Allocated(env, l, q.opts.rplMin, q.opts.rplMax, r) && Commits(s, t, r, s', ok);
      if !q.IsPinEverywhere() {
        AllocatedWithout(env, l, q.opts.rplMin, q.opts.rplMax, r, p);
      }
    }
  }

  /** Of a sound pin that is vacated only the allocations and the timestamp change. */
  lemma RepinKeepsFields(cfg: Config, env: Env, now: Time, p: PeerID, pin: Pin, source: Option<Pin>, pin': Pin)
    requires env.names != [] && ReadPin(pin.cid, pin) && SoundPin(pin) && !IsUpdate(pin)
    requires Vacated(cfg, env, now, p, pin, source, pin')
    ensures pin' == pin.(allocations := pin'.allocations, timestamp := pin'.timestamp)
    ensures pin'.timestamp == pin.timestamp || pin'.timestamp == StoredTime(now)
  {
    var setup := SetupPin(cfg, pin.(allocations := []), Some(pin), now);
    assert setup.Ok? ==> setup.value == pin.(allocations := []);
  }

  /** A pin that is no update stays on the peer exactly if it is not re-pinned or must keep its allocations. */
  lemma RepinKeepsPeer(cfg: Config, env: Env, now: Time, p: PeerID, pin: Pin, source: Option<Pin>, pin': Pin)
    requires env.names != [] && !IsUpdate(pin) && p in pin.allocations && Vacated(cfg, env, now, p, pin, source, pin')
    ensures var setup := SetupPin(cfg, pin.(allocations := []), Some(pin), now);
      p in pin'.allocations <==>
        || cfg.followerMode || cfg.disableRepinning || setup.Err?
        || (&& setup.value.ptype != META_TYPE && !setup.value.IsPinEverywhere()
            && var l := Lists(pin.allocations, [], [p]);
            || |HealthyPeers(env, l)| < setup.value.opts.rplMin
            || setup.value.opts.rplMin <= |Holders(env, l)| <= setup.value.opts.rplMax)
  {
  }

  /** An allocation that avoids `p` fails, returns the old list or is free of `p`. */
  lemma AllocatedWithout(env: Env, l: Lists, min: int, max: int, r: Result<seq<PeerID>>, p: PeerID)
    requires env.names != [] && 0 < min <= max && Allocated(env, l, min, max, r) && p in l.blacklist
    ensures var healthy, held := HealthyPeers(env, l), |Holders(env, l)|;
      if |healthy| < min then r.Err?
      else if min <= held <= max then r == Ok(l.current)
      else
        && r.Ok? && p !in r.value && NoDup(r.value) && Elements(r.value) <= healthy
        && |r.value| == Min(max, |healthy|) >= min
  {
    FailsIffTooFew(env, l, min, max, r);
    if r.Ok? {
      BlacklistedGone(env, l, min, max, r.value, p);
      CleanIff(env, l, min, max, r.value);
      if !(min <= |Holders(env, l)| <= max) {
        ExactSize(env, l, min, max, r.value);
      }
    }
  }

  /** Vacating leaves a pin made by an update on the peer exactly if its source is no data pin or holds the peer. */
  lemma UpdateKeepsPeer(cfg: Config, env: Env, now: Time, p: PeerID, pin: Pin, source: Option<Pin>, pin': Pin)
    requires env.names != [] && IsUpdate(pin) && p in pin.allocations && Vacated(cfg, env, now, p, pin, source, pin')
    ensures p in pin'.allocations <==>
      cfg.followerMode || cfg.disableRepinning || !IsData(source) || p in source.value.allocations
  {
  }

  /**
   After a whole pass, a pin made by an update is still on the peer exactly if nothing is
   re-pinned, its source is no data pin, or its source still holds the peer or held it and was
   visited later.
   */
  lemma PassKeepsPeer(
    cfg: Config, env: Env, now: Time, p: PeerID, s0: State, s: State, order: seq<Cid>, c: Cid)
    requires env.names != [] && PassVacated(cfg, env, now, p, s0, s, order)
    requires c in s0 && IsUpdate(s0[c]) && p in s0[c].allocations
    ensures var f := s0[c].opts.pinUpdate;
      p in s[c].allocations <==>
        || cfg.followerMode || cfg.disableRepinning || !IsData(Get(s0, f))
        || p in s[f].allocations || (p in s0[f].allocations && !VisitedFirst(order, f, c))
  {
    var f := s0[c].opts.pinUpdate;
    assert VacatedAt(cfg, env, now, p, s0, s, order, c);
    UpdateKeepsPeer(cfg, env, now, p, s0[c], SourceSeen(s0, s, order, c), s[c]);
    assert f in s0 ==> VacatedAt(cfg, env, now, p, s0, s, order, f);
  }

  const SOME_OPTIONS := PinOptions(1, 1, "", RECURSIVE, 0, [], Never, map[], Undef, [])
  const OLD_PIN := Pin(SOME_OPTIONS, Cid("old"), DATA_TYPE, ["p"], -1, None, Never)
  const NEW_PIN := UpdatedPin(OLD_PIN, Cid("old"), Cid("new"), SOME_OPTIONS, Never)
  const UPDATED_STATE: State := map[Cid("old") := OLD_PIN, Cid("new") := NEW_PIN]
  const HEALTHY_Q := Env(["disk"], map["disk" := [Metric("disk", "q", "1", 1, false)]], {}, false, false)

  /** Vacating `p` with one other peer healthy moves a data pin, but not the pin that an update made of it. */
  lemma UpdateLeftBehind(cfg: Config, now: Time, s: State)
    requires !cfg.followerMode && !cfg.disableRepinning
    requires PassVacated(cfg, HEALTHY_Q, now, "p", UPDATED_STATE, s, [Cid("new"), Cid("old")])
    ensures s[Cid("old")].allocations == ["q"]
    ensures s[Cid("new")].allocations == ["p"]
  {
    var c, f := Cid("new"), Cid("old");
    assert VacatedAt(cfg, HEALTHY_Q, now, "p", UPDATED_STATE, s, [c, f], c);
    assert VacatedAt(cfg, HEALTHY_Q, now, "p", UPDATED_STATE, s, [c, f], f);
    assert !VisitedFirst([c, f], f, c);
    OldMoves(cfg, now, SourceSeen(UPDATED_STATE, s, [c, f], f), s[f]);
  }

  lemma OldMoves(cfg: Config, now: Time, source: Option<Pin>, pin: Pin)
    requires !cfg.followerMode && !cfg.disableRepinning && Vacated(cfg, HEALTHY_Q, now, "p", OLD_PIN, source, pin)
    ensures pin.allocations == ["q"]
  {
    OnlyQHealthy();
    var a := pin.allocations;
    assert a[0] in Elements(a);
    assert a == [a[0]];
  }

  lemma OnlyQHealthy()
    ensures HealthyPeers(HEALTHY_Q, Lists(["p"], [], ["p"])) == {"q"}
    ensures Holders(HEALTHY_Q, Lists(["p"], [], ["p"])) == {}
  {
    var m := Metric("disk", "q", "1", 1, false);
    assert HEALTHY_Q.latest["disk"] == [m] && m in [m];
  }

  // ----- runs -----

  /** An operation; re-pinning and expiry are pins and unpins too. */
  datatype Op =
    | PinOp(env: Env, now: Time, pin: Pin, blacklist: seq<PeerID>)
    | UnpinOp(blocks: Blocks, cid: Cid)

  ghost predicate Does(cfg: Config, op: Op, s: State, s': State, ok: bool) {
    match op
    case PinOp(env, now, pin, blacklist) => WellFormed(env) && Pinned(cfg, env, now, s, pin, blacklist, s', ok)
    case UnpinOp(blocks, cid) => Unpinned(cfg, s, blocks, cid, s', ok)
  }

  ghost predicate Steps(cfg: Config, op: Op, s: State, s': State) {
    exists ok :: Does(cfg, op, s, s', ok)
  }

  predicate UpdateOp(op: Op) {
    op.PinOp? && IsUpdate(op.pin)
  }

  /** The operations `ops` lead from the empty pinset through `states`. */
  ghost predicate RunOf(cfg: Config, ops: seq<Op>, states: seq<State>) {
    && |states| == |ops| + 1
    && states[0] == map[]
    && forall i :: 0 <= i < |ops| ==> states[i + 1] in Outcomes(cfg, ops[i], states[i])
  }

  /** The pinsets that an operation may lead to. */
  ghost function Outcomes(cfg: Config, op: Op, s: State): iset<State> {
    iset s' | Steps(cfg, op, s, s')
  }

  /** Every step keeps the pins as they are read and the types of what stays pinned, unless an update targets it. */
  lemma StepReads(cfg: Config, op: Op, s: State, s': State)
    requires AsRead(s) && Steps(cfg, op, s, s')
    ensures AsRead(s')
    ensures forall c :: c in s && c in s' && !(UpdateOp(op) && op.pin.cid == c) ==> s'[c].ptype == s[c].ptype
  {
    var ok :| Does(cfg, op, s, s', ok);
    match op
    case PinOp(env, now, pin, blacklist) => PinnedReads(cfg, env, now, s, pin, blacklist, s', ok);
    case UnpinOp(blocks, cid) => UnpinnedInv(cfg, s, blocks, cid, s', ok);
  }

  /** The operation stores a pin whose factors do not survive that. */
  ghost predicate LosesAt(cfg: Config, op: Op, s: State, s': State) {
    op.PinOp? && LosesFactors(cfg, op.pin, true) && Does(cfg, op, s, s', true)
  }

  /** A step keeps the pinset sound exactly if it stores no factors that do not survive. */
  lemma StepInvIff(cfg: Config, op: Op, s: State, s': State)
    requires Inv(s) && Steps(cfg, op, s, s')
    ensures Inv(s') <==> !LosesAt(cfg, op, s, s')
  {
    match op
    case PinOp(env, now, pin, blacklist) => {
      if LosesAt(cfg, op, s, s') {
        PinnedInvIff(cfg, env, now, s, pin, blacklist, s', true);
      } else {
        var ok :| Does(cfg, op, s, s', ok);
        PinnedInvIff(cfg, env, now, s, pin, blacklist, s', ok);
      }
    }
    case UnpinOp(blocks, cid) => {
      var ok :| Does(cfg, op, s, s', ok);
      UnpinnedInv(cfg, s, blocks, cid, s', ok);
    }
  }

  /** In every run every pin is keyed by its CID, as it is read back, and a data pin if an update made it. */
  lemma {:induction false} RunReads(cfg: Config, ops: seq<Op>, states: seq<State>, i: int)
    requires RunOf(cfg, ops, states) && 0 <= i < |states|
    ensures AsRead(states[i])
  {
    if i > 0 {
      RunReads(cfg, ops, states, i - 1);
      assert states[i - 1 + 1] in Outcomes(cfg, ops[i - 1], states[i - 1]);
      StepReads(cfg, ops[i - 1], states[i - 1], states[i]);
    }
  }

  lemma RunStep(cfg: Config, ops: seq<Op>, states: seq<State>, i: int)
    requires RunOf(cfg, ops, states) && 0 <= i < |ops|
    ensures AsRead(states[i]) && Steps(cfg, ops[i], states[i], states[i + 1])
  {
    RunReads(cfg, ops, states, i);
    assert states[i + 1] in Outcomes(cfg, ops[i], states[i]);
  }

  lemma RunStepKeepsType(cfg: Config, ops: seq<Op>, states: seq<State>, i: int, c: Cid)
    requires RunOf(cfg, ops, states) && 0 <= i < |ops| && c in states[i] && c in states[i + 1]
    requires !(UpdateOp(ops[i]) && ops[i].pin.cid == c)
    ensures states[i + 1][c].ptype == states[i][c].ptype
  {
    RunStep(cfg, ops, states, i);
    StepReads(cfg, ops[i], states[i], states[i + 1]);
  }

  /** No operation before number `n` has stored factors that do not survive. */
  ghost predicate NoneLoses(cfg: Config, ops: seq<Op>, states: seq<State>, n: nat)
    requires |states| == |ops| + 1 && n <= |ops|
  {
    forall k :: 0 <= k < n ==> !LosesAt(cfg, ops[k], states[k], states[k + 1])
  }

  /** All states up to number `n` of a run are sound exactly if no operation on the way has stored such factors. */
  lemma RunInv(cfg: Config, ops: seq<Op>, states: seq<State>, n: nat)
    requires RunOf(cfg, ops, states) && n <= |ops|
    ensures (forall i :: 0 <= i <= n ==> Inv(states[i])) <==> NoneLoses(cfg, ops, states, n)
  {
    if NoneLoses(cfg, ops, states, n) {
      forall i | 0 <= i <= n
        ensures Inv(states[i])
      {
        RunSound(cfg, ops, states, n, i);
      }
    }
    if forall i :: 0 <= i <= n ==> Inv(states[i]) {
      forall k | 0 <= k < n
        ensures !LosesAt(cfg, ops[k], states[k], states[k + 1])
      {
        RunStepInvIff(cfg, ops, states, k);
      }
    }
  }

  lemma {:induction false} RunSound(cfg: Config, ops: seq<Op>, states: seq<State>, n: nat, i: nat)
    requires RunOf(cfg, ops, states) && i <= n <= |ops| && NoneLoses(cfg, ops, states, n)
    ensures Inv(states[i])
  {
    if i > 0 {
      RunSound(cfg, ops, states, n, i - 1);
      RunStepInvIff(cfg, ops, states, i - 1);
    }
  }

  lemma RunStepInvIff(cfg: Config, ops: seq<Op>, states: seq<State>, i: int)
    requires RunOf(cfg, ops, states) && 0 <= i < |ops| && Inv(states[i])
    ensures Inv(states[i + 1]) <==> !LosesAt(cfg, ops[i], states[i], states[i + 1])
  {
    RunStep(cfg, ops, states, i);
    StepInvIff(cfg, ops[i], states[i], states[i + 1]);
  }

  /** While a CID stays pinned and is not the target of an update, its type does not change. */
  lemma RunKeepsType(cfg: Config, ops: seq<Op>, states: seq<State>, i: int, j: int, c: Cid)
    requires RunOf(cfg, ops, states) && 0 <= i <= j < |states|
    requires forall k :: i <= k <= j ==> c in states[k]
    requires forall k :: i <= k < j ==> !(UpdateOp(ops[k]) && ops[k].pin.cid == c)
    ensures states[j][c].ptype == states[i][c].ptype
  {
    var types := seq(|states|, k requires 0 <= k < |states| => if c in states[k] then states[k][c].ptype else 0);
    forall k | i <= k < j
      ensures types[k + 1] == types[k]
    {
      RunStepKeepsType(cfg, ops, states, k, c);
    }
    StaysTheSame(types, i, j);
  }

  lemma {:induction false} StaysTheSame(xs: seq<nat>, i: int, j: int)
    requires 0 <= i <= j < |xs| && forall k :: i <= k < j ==> xs[k + 1] == xs[k]
    ensures xs[j] == xs[i]
    decreases j
  {
    if i < j {
      StaysTheSame(xs, i, j - 1);
    }
  }
}

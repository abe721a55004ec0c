/** The shared pinset as a state machine: what each operation does to it, and what every run keeps. */
module Pinset {
  import opened Basics
  import opened Pins
  import opened Allocation
  import opened AllocationTheorems

  type State = map<Cid, Pin>

  /** The links of a stored DAG node, by name. */
  type Links = map<string, Cid>

  /** The DAG nodes that IPFS holds. */
  type Blocks = map<Cid, Links>

  /** No node is lost, and every new one is stored under its own CID. */
  ghost predicate BlocksGrow(hash: Links -> Cid, b: Blocks, b': Blocks) {
    && b.Keys <= b'.Keys
    && forall c :: c in b' ==> (c in b && b'[c] == b[c]) || hash(b'[c]) == c
  }

  function Get(s: State, c: Cid): Option<Pin> {
    if c in s then Some(s[c]) else None
  }

  // ----- pin -----

  ghost function ListsFor(s: State, pin: Pin, blacklist: seq<PeerID>): Lists {
    Lists(if pin.cid in s then s[pin.cid].allocations else [], pin.opts.userAllocations, blacklist)
  }

  /** What is stored for a pin that was set up as `p`: its preset allocations, or new ones. */
  ghost predicate Stored(env: Env, s: State, p: Pin, blacklist: seq<PeerID>, s': State, ok: bool)
    requires env.names != []
  {
    if p.ptype == META_TYPE || p.allocations != [] then
      ok && s' == s[p.cid := Saved(p)]
    else
      exists r :: Allocated(env, ListsFor(s, p, blacklist), p.opts.rplMin, p.opts.rplMax, r) && Commits(s, p, r, s', ok)
  }

  ghost predicate Commits(s: State, p: Pin, r: Result<seq<PeerID>>, s': State, ok: bool) {
    match r
    case Err => !ok && s' == s
    case Ok(a) => ok && s' == s[p.cid := Saved(p.(allocations := a))]
  }

  /** The pin that `PinUpdate` makes out of the existing one. */
  function UpdatedPin(existing: Pin, from: Cid, to: Cid, opts: PinOptions, now: Time): Pin {
    existing.(
      cid := to,
      timestamp := now,
      opts := existing.opts.(
        pinUpdate := from,
        name := if opts.name != "" then opts.name else existing.opts.name,
        expireAt :=
          if opts.expireAt != Never && Earlier(now, opts.expireAt) then opts.expireAt else existing.opts.expireAt))
  }

  ghost predicate Updated(s: State, from: Cid, to: Cid, opts: PinOptions, now: Time, s': State, ok: bool) {
    if from in s && s[from].ptype == DATA_TYPE then
      ok && s' == s[to := Saved(UpdatedPin(s[from], from, to, opts, now))]
    else
      !ok && s' == s
  }

  predicate IsUpdate(pin: Pin) {
    pin.opts.pinUpdate != Undef && pin.opts.pinUpdate != pin.cid
  }

  /** `Cluster.pin` takes the pinset from `s` to `s'`. */
  ghost predicate Pinned(
    cfg: Config, env: Env, now: Time, s: State, pin: Pin, blacklist: seq<PeerID>, s': State, ok: bool)
    requires env.names != []
  {
    if cfg.followerMode || pin.cid == Undef then !ok && s' == s
    else if IsUpdate(pin) then Updated(s, pin.opts.pinUpdate, pin.cid, pin.opts, now, s', ok)
    else match SetupPin(cfg, pin, Get(s, pin.cid), now)
      case Err => !ok && s' == s
      case Ok(p) => Stored(env, s, p.(timestamp := now), blacklist, s', ok)
  }

  /** The pinsets that a successful pin may lead to. */
  ghost function AfterPin(cfg: Config, env: Env, now: Time, s: State, pin: Pin): iset<State>
    requires env.names != []
  {
    iset s' | Pinned(cfg, env, now, s, pin, [], s', true)
  }

  /** `c` can be pinned with this type. */
  predicate FreeFor(s: State, c: Cid, ptype: nat) {
    c != Undef && (c in s ==> s[c].ptype == ptype)
  }

  /** A pin that goes everywhere, never expires and is well-formed. */
  predicate Plain(pin: Pin) {
    && pin.opts.pinUpdate == Undef && pin.IsPinEverywhere() && pin.allocations == []
    && pin.opts.expireAt == Never && pin.opts.mode == RECURSIVE && CheckPinType(pin)
  }

  /** Such a pin succeeds unless its CID is pinned with another type. */
  lemma PlainPins(cfg: Config, env: Env, now: Time, s: State, pin: Pin, blacklist: seq<PeerID>, s': State, ok: bool)
    requires env.names != [] && !cfg.followerMode && Plain(pin) && FreeFor(s, pin.cid, pin.ptype)
    requires Pinned(cfg, env, now, s, pin, blacklist, s', ok)
    ensures ok
  {
    assert SetupPin(cfg, pin, Get(s, pin.cid), now) == Ok(pin);
  }

  // ----- unpin -----

  /** The CIDs that make up a pin: for a meta pin the linked shards, the cluster DAG and itself. */
  ghost function MetaCids(s: State, blocks: Blocks, h: Cid): Result<set<Cid>> {
    if h !in s then Err
    else if s[h].ptype != META_TYPE then Ok({h})
    else if s[h].reference.None? then Err
    else
      var ref := s[h].reference.value;
      if ref !in s || s[ref].cid !in blocks then Err
      else Ok(blocks[s[ref].cid].Values + {ref, h})
  }

  ghost predicate Unpinned(cfg: Config, s: State, blocks: Blocks, h: Cid, s': State, ok: bool) {
    if cfg.followerMode || h !in s then !ok && s' == s
    else if s[h].ptype == DATA_TYPE then ok && s' == s - {h}
    else if s[h].ptype == META_TYPE && MetaCids(s, blocks, h).Ok? then ok && s' == s - MetaCids(s, blocks, h).value
    else !ok && s' == s
  }

  // ----- the invariant -----

  /** Keyed by its own CID and as it is read back; a data pin if an update made it. */
  predicate ReadPin(c: Cid, p: Pin) {
    p.cid == c && c != Undef && IsSaved(p) && (IsUpdate(p) ==> p.ptype == DATA_TYPE)
  }

  /** Valid factors, no allocations if it goes everywhere and some if it needs them. */
  predicate SoundPin(p: Pin) {
    && (0 < p.opts.rplMin <= p.opts.rplMax || p.opts.rplMin == p.opts.rplMax == -1)
    && (p.opts.rplMin == -1 ==> p.allocations == [])
    && (p.ptype != META_TYPE && p.opts.rplMin > 0 ==> p.allocations != [])
  }

  ghost predicate AsRead(s: State) {
    forall c :: c in s ==> ReadPin(c, s[c])
  }

  ghost predicate Inv(s: State) {
    AsRead(s) && forall c :: c in s ==> SoundPin(s[c])
  }

  /** Pins of a CID that stays pinned keep their type. */
  ghost predicate KeepsTypes(s: State, s': State) {
    forall c :: c in s && c in s' ==> s'[c].ptype == s[c].ptype
  }

  /** Only the entry of `c` differs. */
  ghost predicate OnlyAt(s: State, c: Cid, s': State) {
    forall d :: d != c ==> (d in s <==> d in s') && (d in s ==> s'[d] == s[d])
  }

  lemma SetupValid(cfg: Config, pin: Pin, existing: Option<Pin>, now: Time)
    ensures var r := SetupPin(cfg, pin, existing, now);
      r.Ok? ==>
        && r.value.cid == pin.cid && r.value.ptype == pin.ptype && r.value.opts.pinUpdate == pin.opts.pinUpdate
        && ReplicationFactorValid(r.value.opts.rplMin, r.value.opts.rplMax)
        && (r.value.IsPinEverywhere() ==> r.value.allocations == [])
        && (existing.Some? ==> existing.value.ptype == pin.ptype)
  {
  }

  /** A valid allocation is empty exactly for pins that go everywhere. */
  lemma AllocatedNonEmpty(env: Env, l: Lists, min: int, max: int, a: seq<PeerID>)
    requires env.names != [] && ReplicationFactorValid(min, max) && Allocated(env, l, min, max, Ok(a))
    ensures min > 0 <==> a != []
  {
    if min > 0 {
      assert a == [] ==> Elements(a) * HealthyPeers(env, l) == {};
      EnoughHealthy(env, l, min, max, a);
    }
  }

  /** Set up properly, so that all it lacks is allocations. */
  predicate ReadyPin(p: Pin) {
    && p.cid != Undef && !IsUpdate(p)
    && ReplicationFactorValid(p.opts.rplMin, p.opts.rplMax) && (p.IsPinEverywhere() ==> p.allocations == [])
  }

  /** It has allocations exactly if it needs them; a meta pin may have any unless it goes everywhere. */
  predicate Provided(p: Pin) {
    p.ptype == META_TYPE || (p.opts.rplMin > 0 <==> p.allocations != [])
  }

  /** The factors are still valid once they are narrowed to 32 bits. */
  predicate FactorsSurvive(p: Pin) {
    var min, max := Int32(p.opts.rplMin), Int32(p.opts.rplMax);
    || p.IsPinEverywhere()
    || 0 < min <= max
    || (min == max == -1 && p.ptype == META_TYPE && p.allocations == [])
  }

  lemma SavedReads(p: Pin)
    requires p.cid != Undef && (IsUpdate(p) ==> p.ptype == DATA_TYPE)
    ensures ReadPin(p.cid, Saved(p))
  {
    PinTypes();
    SavedIsSaved(p);
  }

  /** A pin is sound once stored exactly if its factors survive. */
  lemma SavedSoundIff(p: Pin)
    requires ReadyPin(p) && Provided(p)
    ensures SoundPin(Saved(p)) <==> FactorsSurvive(p)
  {
    PinTypes();
  }

  lemma PutReads(s: State, p: Pin, s': State)
    requires AsRead(s) && p.cid != Undef && (IsUpdate(p) ==> p.ptype == DATA_TYPE) && s' == s[p.cid := Saved(p)]
    ensures AsRead(s') && OnlyAt(s, p.cid, s')
    ensures Inv(s) ==> (Inv(s') <==> SoundPin(Saved(p)))
  {
    SavedReads(p);
    assert p.cid in s' && s'[p.cid] == Saved(p);
  }

  /** The pin that was stored: as set up, with allocations where it needs them. */
  lemma StoredPin(env: Env, s: State, p: Pin, blacklist: seq<PeerID>, s': State) returns (q: Pin)
    requires env.names != [] && ReadyPin(p) && Stored(env, s, p, blacklist, s', true)
    ensures q == p.(allocations := q.allocations) && Provided(q) && ReadyPin(q) && s' == s[p.cid := Saved(q)]
    ensures p.ptype == META_TYPE || p.allocations != [] ==> q == p
    ensures FactorsSurvive(q) <==> FactorsSurvive(p)
  {
    if p.ptype == META_TYPE || p.allocations != [] {
      q := p;
    } else {
      var l := ListsFor(s, p, blacklist);
      var r :| Allocated(env, l, p.opts.rplMin, p.opts.rplMax, r) && Commits(s, p, r, s', true);
      AllocatedNonEmpty(env, l, p.opts.rplMin, p.opts.rplMax, r.value);
      q := p.(allocations := r.value);
    }
  }

  lemma NotStored(env: Env, s: State, p: Pin, blacklist: seq<PeerID>, s': State)
    requires env.names != [] && Stored(env, s, p, blacklist, s', false)
    ensures s' == s
  {
  }

  /** What an accepted pin that is not an update has stored. */
  lemma PinnedPin(cfg: Config, env: Env, now: Time, s: State, pin: Pin, blacklist: seq<PeerID>, s': State)
    returns (q: Pin)
    requires env.names != [] && !IsUpdate(pin) && Pinned(cfg, env, now, s, pin, blacklist, s', true)
    ensures SetupPin(cfg, pin, Get(s, pin.cid), now).Ok? && SetupReplicationFactor(cfg, pin).Ok?
    ensures var p := SetupReplicationFactor(cfg, pin).value;
      && q == p.(timestamp := now, allocations := q.allocations)
      && (p.ptype == META_TYPE || p.allocations != [] ==> q.allocations == p.allocations)
      && (FactorsSurvive(q) <==> FactorsSurvive(p))
    ensures ReadyPin(q) && Provided(q) && q.cid == pin.cid && q.ptype == pin.ptype && s' == s[pin.cid := Saved(q)]
    ensures pin.cid in s ==> s[pin.cid].ptype == pin.ptype
  {
    SetupValid(cfg, pin, Get(s, pin.cid), now);
    var r := SetupPin(cfg, pin, Get(s, pin.cid), now);
    q := StoredPin(env, s, r.value.(timestamp := now), blacklist, s');
  }

  lemma Refused(cfg: Config, env: Env, now: Time, s: State, pin: Pin, blacklist: seq<PeerID>, s': State)
    requires env.names != [] && Pinned(cfg, env, now, s, pin, blacklist, s', false)
    ensures s' == s
  {
    var r := SetupPin(cfg, pin, Get(s, pin.cid), now);
    if !cfg.followerMode && pin.cid != Undef && !IsUpdate(pin) && r.Ok? {
      NotStored(env, s, r.value.(timestamp := now), blacklist, s');
    }
  }

  /** Pinning keeps all pins as they are read, touches one CID and, unless it is an update, keeps its type. */
  lemma PinnedReads(cfg: Config, env: Env, now: Time, s: State, pin: Pin, blacklist: seq<PeerID>, s': State, ok: bool)
    requires env.names != [] && AsRead(s) && Pinned(cfg, env, now, s, pin, blacklist, s', ok)
    ensures AsRead(s') && OnlyAt(s, pin.cid, s') && s.Keys <= s'.Keys
    ensures !IsUpdate(pin) ==> KeepsTypes(s, s')
    ensures !ok ==> s' == s
  {
    if !ok {
      Refused(cfg, env, now, s, pin, blacklist, s');
    } else if IsUpdate(pin) {
      var p := UpdatedPin(s[pin.opts.pinUpdate], pin.opts.pinUpdate, pin.cid, pin.opts, now);
      PutReads(s, p, s');
    } else {
      var q := PinnedPin(cfg, env, now, s, pin, blacklist, s');
      PutReads(s, q, s');
    }
  }

  /** An accepted pin that is not an update, and whose factors do not survive being stored. */
  ghost predicate LosesFactors(cfg: Config, pin: Pin, ok: bool) {
    var setup := SetupReplicationFactor(cfg, pin);
    ok && !IsUpdate(pin) && setup.Ok? && !FactorsSurvive(setup.value)
  }

  /** Pinning keeps the pinset sound exactly if the factors survive being stored. */
  lemma PinnedInvIff(cfg: Config, env: Env, now: Time, s: State, pin: Pin, blacklist: seq<PeerID>, s': State, ok: bool)
    requires env.names != [] && Inv(s) && Pinned(cfg, env, now, s, pin, blacklist, s', ok)
    ensures Inv(s') <==> !LosesFactors(cfg, pin, ok)
  {
    if !ok {
      Refused(cfg, env, now, s, pin, blacklist, s');
    } else if IsUpdate(pin) {
      UpdateSound(s, pin.opts.pinUpdate, pin.cid, pin.opts, now, s');
    } else {
      var q := PinnedPin(cfg, env, now, s, pin, blacklist, s');
      SavedSoundIff(q);
      PutReads(s, q, s');
    }
  }

  lemma UpdateSound(s: State, from: Cid, to: Cid, opts: PinOptions, now: Time, s': State)
    requires Inv(s) && to != Undef && Updated(s, from, to, opts, now, s', true)
    ensures Inv(s')
  {
    PinTypes();
    PutReads(s, UpdatedPin(s[from], from, to, opts, now), s');
  }

  /** A pin whose factors are stored as 0. */
  lemma NarrowedFactors(cfg: Config, env: Env, now: Time, s: State, pin: Pin, s': State, ok: bool)
    requires env.names != [] && !cfg.followerMode && pin.cid != Undef && pin.cid !in s && pin.opts.pinUpdate == Undef
    requires pin.opts.rplMin == pin.opts.rplMax == TWO32 && pin.allocations != [] && pin.opts.expireAt == Never
    requires Pinned(cfg, env, now, s, pin, [], s', ok)
    ensures ok && pin.cid in s' && s'[pin.cid].opts.rplMin == 0 && !SoundPin(s'[pin.cid])
  {
    assert SetupReplicationFactor(cfg, pin) == Ok(pin);
  }

  /** An update carries over who holds the content, how often it is replicated and how it is pinned. */
  lemma UpdateCarriesOver(s: State, from: Cid, to: Cid, opts: PinOptions, now: Time, s': State)
    requires AsRead(s) && Updated(s, from, to, opts, now, s', true)
    ensures from in s && to in s' && OnlyAt(s, to, s')
    ensures var p, q := s[from], s'[to];
      && q.cid == to && q.opts.pinUpdate == from && q.ptype == p.ptype == DATA_TYPE
      && q.allocations == p.allocations && q.opts.rplMin == p.opts.rplMin && q.opts.rplMax == p.opts.rplMax
      && q.maxDepth == p.maxDepth && q.opts.mode == p.opts.mode && q.reference == p.reference
      && q.opts.name == (if opts.name == "" then p.opts.name else opts.name)
      && q.opts.expireAt ==
           (if opts.expireAt.At? && (now.At? ==> now.nanos < opts.expireAt.nanos) then StoredTime(opts.expireAt)
            else p.opts.expireAt)
      && q.opts.metadata == p.opts.metadata && q.opts.origins == p.opts.origins && q.opts.shardSize == p.opts.shardSize
      && q.timestamp == StoredTime(now)
  {
    PinTypes();
    assert ReadPin(from, s[from]);
  }

  // ----- when a pin is accepted, and what is stored -----

  /** The factors a pin asks for, where those of the configuration stand in for 0. */
  ghost function MinFactor(cfg: Config, opts: PinOptions): int {
    if opts.rplMin != 0 then opts.rplMin else cfg.rplMin
  }

  ghost function MaxFactor(cfg: Config, opts: PinOptions): int {
    if opts.rplMax != 0 then opts.rplMax else cfg.rplMax
  }

  /** `t` is an instant before `now`. */
  predicate Past(t: Time, now: Time) {
    t.At? && now.At? && t.nanos < now.nanos
  }

  /** A CID that is pinned as `existing` may be pinned again as `pin`. */
  ghost predicate Replaces(existing: Pin, pin: Pin, min: int) {
    && existing.ptype == pin.ptype
    && (existing.opts.mode == RECURSIVE ==> pin.opts.mode == RECURSIVE)
    && (|| (pin.ptype == DATA_TYPE && pin.reference == None)
        || (pin.ptype == SHARD_TYPE && pin.maxDepth == 1)
        || (pin.ptype == DAG_TYPE && pin.maxDepth == 0 && pin.reference != None)
        || (pin.ptype == META_TYPE && pin.reference != None && (min == -1 || pin.allocations == [])))
  }

  /** A pin that asks for peers and does not name them. */
  ghost predicate NeedsPeers(pin: Pin, min: int) {
    pin.ptype != META_TYPE && pin.allocations == [] && min > 0
  }

  /** The peers that hold a CID before it is pinned, those its user wants, and those to avoid. */
  ghost function ListsBefore(s: State, pin: Pin, blacklist: seq<PeerID>): Lists {
    Lists(if pin.cid !in s then [] else s[pin.cid].allocations, pin.opts.userAllocations, blacklist)
  }

  /** Exactly when a pin that is no update is accepted. */
  lemma AcceptedIff(cfg: Config, env: Env, now: Time, s: State, pin: Pin, blacklist: seq<PeerID>, s': State, ok: bool)
    requires env.names != [] && (pin.opts.pinUpdate == Undef || pin.opts.pinUpdate == pin.cid)
    requires Pinned(cfg, env, now, s, pin, blacklist, s', ok)
    ensures var min, max := MinFactor(cfg, pin.opts), MaxFactor(cfg, pin.opts);
      ok <==>
        && !cfg.followerMode && pin.cid != Undef && (0 < min <= max || min == max == -1)
        && !Past(pin.opts.expireAt, now)
        && (pin.cid in s ==> Replaces(s[pin.cid], pin, min))
        && (NeedsPeers(pin, min) ==> min <= |HealthyPeers(env, ListsBefore(s, pin, blacklist))|)
  {
    var setup := SetupPin(cfg, pin, Get(s, pin.cid), now);
    SetsUpIff(cfg, pin, Get(s, pin.cid), now);
    if !cfg.followerMode && pin.cid != Undef && setup.Ok? {
      StoresIff(env, s, setup.value.(timestamp := now), blacklist, s', ok);
    }
  }

  lemma AcceptedFactors(cfg: Config, env: Env, now: Time, s: State, pin: Pin, blacklist: seq<PeerID>, s': State)
    requires env.names != [] && (pin.opts.pinUpdate == Undef || pin.opts.pinUpdate == pin.cid)
    requires Pinned(cfg, env, now, s, pin, blacklist, s', true)
    ensures pin.cid != Undef
    ensures var min, max := MinFactor(cfg, pin.opts), MaxFactor(cfg, pin.opts); 0 < min <= max || min == max == -1
  {
    AcceptedIff(cfg, env, now, s, pin, blacklist, s', true);
  }

  lemma SetsUpIff(cfg: Config, pin: Pin, existing: Option<Pin>, now: Time)
    ensures var min, max := MinFactor(cfg, pin.opts), MaxFactor(cfg, pin.opts);
      var setup := SetupPin(cfg, pin, existing, now);
      && (setup.Ok? <==>
            && (0 < min <= max || min == max == -1) && !Past(pin.opts.expireAt, now)
            && (existing.Some? ==> Replaces(existing.value, pin, min)))
      && (setup.Ok? ==>
            setup.value == pin.(
              opts := pin.opts.(rplMin := min, rplMax := max),
              allocations := if min == -1 then [] else pin.allocations))
  {
  }

  lemma StoresIff(env: Env, s: State, p: Pin, blacklist: seq<PeerID>, s': State, ok: bool)
    requires env.names != [] && ReadyPin(p) && Stored(env, s, p, blacklist, s', ok)
    ensures ok <==>
      (NeedsPeers(p, p.opts.rplMin) ==> p.opts.rplMin <= |HealthyPeers(env, ListsBefore(s, p, blacklist))|)
  {
    var l, min, max := ListsBefore(s, p, blacklist), p.opts.rplMin, p.opts.rplMax;
    if p.ptype != META_TYPE && p.allocations == [] {
      var r :| Allocated(env, l, min, max, r) && Commits(s, p, r, s', ok);
      if min > 0 {
        FailsIffTooFew(env, l, min, max, r);
      }
    }
  }

  /** Who holds a pin that is accepted. */
  ghost predicate HeldBy(env: Env, s: State, pin: Pin, blacklist: seq<PeerID>, min: int, max: int, a: seq<PeerID>)
    requires env.names != []
  {
    if min == -1 then a == []
    else if NeedsPeers(pin, min) then Allocated(env, ListsBefore(s, pin, blacklist), min, max, Ok(a))
    else a == pin.allocations
  }

  /** The entry of an accepted pin that is no update and is held by `a`, field by field. */
  ghost function AcceptedRecord(cfg: Config, pin: Pin, a: seq<PeerID>, now: Time): Pin {
    Pin(
      PinOptions(
        Int32(MinFactor(cfg, pin.opts)), Int32(MaxFactor(cfg, pin.opts)), pin.opts.name,
        if pin.maxDepth % 0x1_0000_0000 == 0 then DIRECT else RECURSIVE, pin.opts.shardSize, [],
        StoredTime(pin.opts.expireAt), pin.opts.metadata, pin.opts.pinUpdate, pin.opts.origins),
      pin.cid, SavedType(pin.ptype), a, Int32(pin.maxDepth),
      if pin.reference == Some(Undef) then None else pin.reference, StoredTime(now))
  }

  /** What is stored of an accepted pin that is no update. */
  lemma AcceptedPin(cfg: Config, env: Env, now: Time, s: State, pin: Pin, blacklist: seq<PeerID>, s': State)
    returns (a: seq<PeerID>)
    requires env.names != [] && (pin.opts.pinUpdate == Undef || pin.opts.pinUpdate == pin.cid)
    requires Pinned(cfg, env, now, s, pin, blacklist, s', true)
    ensures HeldBy(env, s, pin, blacklist, MinFactor(cfg, pin.opts), MaxFactor(cfg, pin.opts), a)
    ensures s' == s[pin.cid := AcceptedRecord(cfg, pin, a, now)]
  {
    SetsUpIff(cfg, pin, Get(s, pin.cid), now);
    var p := SetupPin(cfg, pin, Get(s, pin.cid), now).value.(timestamp := now);
    a := StoredHolders(env, s, p, blacklist, s');
    ModeByDepth(p.(allocations := a));
  }

  lemma StoredHolders(env: Env, s: State, p: Pin, blacklist: seq<PeerID>, s': State) returns (a: seq<PeerID>)
    requires env.names != [] && ReadyPin(p) && Stored(env, s, p, blacklist, s', true)
    ensures HeldBy(env, s, p, blacklist, p.opts.rplMin, p.opts.rplMax, a)
    ensures s' == s[p.cid := Saved(p.(allocations := a))]
  {
    if p.ptype == META_TYPE || p.allocations != [] {
      a := p.allocations;
    } else {
      var l := ListsBefore(s, p, blacklist);
      var r :| Allocated(env, l, p.opts.rplMin, p.opts.rplMax, r) && Commits(s, p, r, s', true);
      assert r.Ok?;
      a := r.value;
    }
  }

  /** The entry of a data pin that is held by `a`. */
  ghost function DataRecord(cfg: Config, c: Cid, opts: PinOptions, a: seq<PeerID>, now: Time): Pin {
    Pin(
      PinOptions(
        Int32(MinFactor(cfg, opts)), Int32(MaxFactor(cfg, opts)), opts.name,
        if opts.mode == DIRECT then DIRECT else RECURSIVE, opts.shardSize, [], StoredTime(opts.expireAt), opts.metadata,
        Undef, opts.origins),
      c, DATA_TYPE, a, if opts.mode == DIRECT then 0 else -1, None, StoredTime(now))
  }

  /** Pinning a CID with options makes a data pin without a reference, to the depth of the mode, on allocated peers. */
  lemma OptionsPinned(
    cfg: Config, env: Env, now: Time, s: State, c: Cid, opts: PinOptions, made: Time, blacklist: seq<PeerID>, s': State)
    returns (a: seq<PeerID>)
    requires env.names != [] && opts.pinUpdate == Undef
    requires Pinned(cfg, env, now, s, PinWithOpts(c, opts, made), blacklist, s', true)
    ensures var min, max := MinFactor(cfg, opts), MaxFactor(cfg, opts);
      var l := Lists(if c in s then s[c].allocations else [], opts.userAllocations, blacklist);
      if min == -1 then a == [] else Allocated(env, l, min, max, Ok(a))
    ensures s' == s[c := DataRecord(cfg, c, opts, a, now)]
  {
    AcceptedFactors(cfg, env, now, s, PinWithOpts(c, opts, made), blacklist, s');
    a := AcceptedPin(cfg, env, now, s, PinWithOpts(c, opts, made), blacklist, s');
    OptionsRecord(cfg, c, opts, made, a, now);
  }

  lemma OptionsRecord(cfg: Config, c: Cid, opts: PinOptions, made: Time, a: seq<PeerID>, now: Time)
    requires opts.pinUpdate == Undef
    ensures AcceptedRecord(cfg, PinWithOpts(c, opts, made), a, now) == DataRecord(cfg, c, opts, a, now)
  {
    PinTypes();
  }

  /** Exactly when an update is accepted; `UpdateCarriesOver` says what it stores. */
  lemma UpdateAcceptedIff(
    cfg: Config, env: Env, now: Time, s: State, pin: Pin, blacklist: seq<PeerID>, s': State, ok: bool)
    requires env.names != [] && pin.opts.pinUpdate != Undef && pin.opts.pinUpdate != pin.cid
    requires Pinned(cfg, env, now, s, pin, blacklist, s', ok)
    ensures ok <==>
      && !cfg.followerMode && pin.cid != Undef
      && pin.opts.pinUpdate in s && s[pin.opts.pinUpdate].ptype == DATA_TYPE
    ensures ok ==> Updated(s, pin.opts.pinUpdate, pin.cid, pin.opts, now, s', true)
    ensures !ok ==> s' == s
  {
  }

  /** As set up, the pin will pass the type check once it is stored and read back. */
  predicate PassesStored(p: Pin) {
    && CheckPinType(Saved(p))
    && (SavedType(p.ptype) == META_TYPE && p.ptype != META_TYPE ==> p.IsPinEverywhere())
  }

  /**
   A pin that is accepted passes the type check afterwards exactly if it would pass as it is
   stored; if its CID was pinned before, only an undefined reference can prevent that.
   */
  lemma TypeCheckedIff(cfg: Config, env: Env, now: Time, s: State, pin: Pin, blacklist: seq<PeerID>, s': State)
    requires env.names != [] && !IsUpdate(pin) && Pinned(cfg, env, now, s, pin, blacklist, s', true)
    ensures SetupReplicationFactor(cfg, pin).Ok? && pin.cid in s'
    ensures CheckPinType(s'[pin.cid]) <==> PassesStored(SetupReplicationFactor(cfg, pin).value)
    ensures pin.cid in s ==>
      (CheckPinType(s'[pin.cid]) <==>
        (pin.ptype == DAG_TYPE || pin.ptype == META_TYPE ==> pin.reference != Some(Undef)))
  {
    PinTypes();
    var q := PinnedPin(cfg, env, now, s, pin, blacklist, s');
  }

  /** Unpinning a meta pin succeeds exactly if it refers to a pinned cluster DAG that is stored. */
  lemma MetaUnpinsIff(cfg: Config, s: State, blocks: Blocks, h: Cid, s': State, ok: bool)
    requires !cfg.followerMode && h in s && s[h].ptype == META_TYPE && Unpinned(cfg, s, blocks, h, s', ok)
    ensures ok <==> s[h].reference.Some? && s[h].reference.value in s && s[s[h].reference.value].cid in blocks
    ensures h in s' <==> !ok
  {
  }

  /** A first meta pin without a reference is accepted although it fails the type check, and unpinning it then fails. */
  lemma UncheckedFirstPin(
    cfg: Config, env: Env, now: Time, s: State, pin: Pin, s': State, ok: bool, blocks: Blocks, s'': State, ok': bool)
    requires env.names != [] && !cfg.followerMode && pin.cid != Undef && pin.cid !in s && !IsUpdate(pin)
    requires pin.ptype == META_TYPE && pin.reference.None? && SetupReplicationFactor(cfg, pin).Ok?
    requires !Past(pin.opts.expireAt, now)
    requires Pinned(cfg, env, now, s, pin, [], s', ok)
    requires Unpinned(cfg, s', blocks, pin.cid, s'', ok')
    ensures ok && pin.cid in s' && !CheckPinType(s'[pin.cid])
    ensures !ok' && s'' == s'
  {
    SetupValid(cfg, pin, None, now);
    PinTypes();
    TypeCheckedIff(cfg, env, now, s, pin, [], s');
    MetaUnpinsIff(cfg, s', blocks, pin.cid, s'', ok');
  }

  /** Pinning it again with a reference to a stored cluster DAG makes it possible to unpin it. */
  lemma ReferenceUnpins(
    cfg: Config, env: Env, now: Time, s: State, pin: Pin, s': State, blocks: Blocks, s'': State, ok: bool)
    requires env.names != [] && AsRead(s) && !IsUpdate(pin) && Pinned(cfg, env, now, s, pin, [], s', true)
    requires pin.ptype == META_TYPE && pin.reference.Some? && pin.reference.value in s && pin.reference.value in blocks
    requires pin.reference.value != pin.cid
    requires Unpinned(cfg, s', blocks, pin.cid, s'', ok)
    ensures ok && pin.cid !in s''
  {
    PinTypes();
    var q := PinnedPin(cfg, env, now, s, pin, [], s');
    assert ReadPin(pin.reference.value, s[pin.reference.value]);
    MetaUnpinsIff(cfg, s', blocks, pin.cid, s'', ok);
  }

  lemma UnpinnedInv(cfg: Config, s: State, blocks: Blocks, h: Cid, s': State, ok: bool)
    requires Unpinned(cfg, s, blocks, h, s', ok)
    ensures (AsRead(s) ==> AsRead(s')) && (Inv(s) ==> Inv(s')) && KeepsTypes(s, s') && s'.Keys <= s.Keys
    ensures forall c :: c in s' ==> s'[c] == s[c]
    ensures ok ==> h !in s'
  {
  }
}

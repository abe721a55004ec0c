/** The `api.Pin` record and the checks a pin goes through before it is stored. */
module Pins {
  import opened Basics

  /** A content identifier; `Undef` is the undefined CID. */
  datatype Cid = Undef | Cid(bytes: string)

  /** `time.Time`: the zero time or an instant in nanoseconds since the Unix epoch. */
  datatype Time = Never | At(nanos: int)

  predicate Earlier(a: Time, b: Time) {
    b.At? && (a.At? ==> a.nanos < b.nanos)
  }

  // Pin types, as the bit flags of the source.
  const BAD_TYPE: nat := 1
  const DATA_TYPE: nat := 2
  const META_TYPE: nat := 4
  const DAG_TYPE: nat := 8
  const SHARD_TYPE: nat := 16

  // Pin modes.
  const RECURSIVE := 0
  const DIRECT := 1

  datatype PinOptions = PinOptions(
    rplMin: int,
    rplMax: int,
    name: string,
    mode: int,
    shardSize: nat,
    userAllocations: seq<PeerID>,
    expireAt: Time,
    metadata: map<string, string>,
    pinUpdate: Cid,
    origins: seq<string>)

  datatype Pin = Pin(
    opts: PinOptions,
    cid: Cid,
    ptype: nat,
    allocations: seq<PeerID>,
    maxDepth: int,
    reference: Option<Cid>,
    timestamp: Time)
  {
    predicate IsPinEverywhere() {
      opts.rplMin == -1 && opts.rplMax == -1
    }

    predicate ExpiredAt(t: Time) {
      opts.expireAt != Never && opts.expireAt != At(0) && Earlier(opts.expireAt, t)
    }
  }

  /** `PinMode.ToPinDepth` */
  function ToPinDepth(mode: int): int {
    if mode == DIRECT then 0 else -1
  }

  /** `PinDepth.ToPinMode` */
  function ToPinMode(depth: int): int {
    if depth == 0 then DIRECT else RECURSIVE
  }

  /** `PinWithOpts`: a data pin whose depth follows its mode. */
  function PinWithOpts(c: Cid, opts: PinOptions, now: Time): Pin {
    Pin(opts, c, DATA_TYPE, [], ToPinDepth(opts.mode), None, now)
  }

  // ----- what storing keeps -----

  const TWO31: int := 0x8000_0000
  const TWO32: int := 0x1_0000_0000
  const SECOND: int := 1_000_000_000

  predicate FitsInt32(x: int) {
    -TWO31 <= x < TWO31
  }

  /** `int32(x)` */
  function Int32(x: int): int {
    if FitsInt32(x) then x else (x + TWO31) % TWO32 - TWO31
  }

  predicate WholeSeconds(t: Time) {
    t == Never || (t.nanos % SECOND == 0 && t.nanos != 0)
  }

  /** Stored times lose their fractions of a second, and those within the first second of 1970 altogether. */
  function StoredTime(t: Time): Time {
    if WholeSeconds(t) then t else if t.nanos / SECOND == 0 then Never else At(t.nanos / SECOND * SECOND)
  }

  /** Of a type only the highest bit is stored. */
  function SavedType(t: nat): nat {
    if t <= 1 then BAD_TYPE else 2 * SavedType(t / 2)
  }

  /** An undefined reference is stored as none. */
  function SavedReference(r: Option<Cid>): Option<Cid> {
    if r == Some(Undef) then None else r
  }

  /** What is read back of a pin that was committed. */
  function Saved(p: Pin): Pin {
    p.(
      ptype := SavedType(p.ptype),
      maxDepth := Int32(p.maxDepth),
      reference := SavedReference(p.reference),
      timestamp := StoredTime(p.timestamp),
      opts := p.opts.(
        rplMin := Int32(p.opts.rplMin),
        rplMax := Int32(p.opts.rplMax),
        mode := ToPinMode(Int32(p.maxDepth)),
        userAllocations := [],
        expireAt := StoredTime(p.opts.expireAt)))
  }

  /** Nothing in the pin is transient, fractional, too large or inconsistent. */
  predicate IsSaved(p: Pin) {
    && p.ptype == SavedType(p.ptype)
    && FitsInt32(p.maxDepth) && FitsInt32(p.opts.rplMin) && FitsInt32(p.opts.rplMax)
    && p.opts.mode == ToPinMode(p.maxDepth) && p.opts.userAllocations == [] && p.reference != Some(Undef)
    && WholeSeconds(p.timestamp) && WholeSeconds(p.opts.expireAt)
  }

  lemma {:induction false} SavedTypeTwice(t: nat)
    ensures SavedType(SavedType(t)) == SavedType(t) && 1 <= SavedType(t)
  {
    if t > 1 {
      SavedTypeTwice(t / 2);
    }
  }

  /** `Int32` gives the only number of 32 bits that differs from `x` by a multiple of 2^32. */
  lemma Narrowed(x: int)
    ensures FitsInt32(Int32(x)) && (x - Int32(x)) % 0x1_0000_0000 == 0
    ensures -0x8000_0000 <= x < 0x8000_0000 <==> Int32(x) == x
  {
  }

  lemma StoredWhole(t: Time)
    ensures WholeSeconds(StoredTime(t))
    ensures StoredTime(t) == t <==> WholeSeconds(t)
  {
    if !WholeSeconds(t) {
      assert t.nanos / SECOND * SECOND % SECOND == 0;
    }
  }

  /** What was read back is read back again unchanged. */
  lemma SavedIsSaved(p: Pin)
    ensures IsSaved(Saved(p))
    ensures Saved(p) == p <==> IsSaved(p)
  {
    SavedTypeTwice(p.ptype);
    Narrowed(p.maxDepth);
    Narrowed(p.opts.rplMin);
    Narrowed(p.opts.rplMax);
    StoredWhole(p.timestamp);
    StoredWhole(p.opts.expireAt);
  }

  /** A pin is read back as direct exactly if its depth is stored as 0, and else as recursive. */
  lemma ModeByDepth(p: Pin)
    ensures Saved(p).opts.mode == if p.maxDepth % 0x1_0000_0000 == 0 then DIRECT else RECURSIVE
  {
    Narrowed(p.maxDepth);
  }

  /** The mode of a pin made with options is read back exactly if it is one of the two modes. */
  lemma ModeSurvivesIff(c: Cid, opts: PinOptions, now: Time)
    ensures Saved(PinWithOpts(c, opts, now)).opts.mode == opts.mode <==> opts.mode == RECURSIVE || opts.mode == DIRECT
    ensures Saved(PinWithOpts(c, opts, now)).maxDepth == if opts.mode == DIRECT then 0 else -1
  {
  }

  /** The types that are used are stored as they are. */
  lemma PinTypes()
    ensures SavedType(DATA_TYPE) == DATA_TYPE && SavedType(META_TYPE) == META_TYPE
    ensures SavedType(DAG_TYPE) == DAG_TYPE && SavedType(SHARD_TYPE) == SHARD_TYPE
  {
    assert SavedType(1) == 1;
    assert SavedType(2) == 2;
    assert SavedType(4) == 4;
    assert SavedType(8) == 8;
  }

  // ----- setting up -----

  predicate ReplicationFactorValid(min: int, max: int) {
    && min != 0 && max != 0
    && min <= max
    && min >= -1 && max >= -1
    && (min == -1 <==> max == -1)
  }

  /** The cluster configuration that pinning depends on. */
  datatype Config = Config(rplMin: int, rplMax: int, followerMode: bool, disableRepinning: bool)

  /** Fills in the default factors; pins that go everywhere lose their allocations. */
  function SetupReplicationFactor(cfg: Config, pin: Pin): Result<Pin> {
    var min := if pin.opts.rplMin == 0 then cfg.rplMin else pin.opts.rplMin;
    var max := if pin.opts.rplMax == 0 then cfg.rplMax else pin.opts.rplMax;
    var p := pin.(opts := pin.opts.(rplMin := min, rplMax := max));
    var q := if p.IsPinEverywhere() then p.(allocations := []) else p;
    if ReplicationFactorValid(min, max) then Ok(q) else Err
  }

  predicate CheckPinType(pin: Pin) {
    if pin.ptype == DATA_TYPE then pin.reference.None?
    else if pin.ptype == SHARD_TYPE then pin.maxDepth == 1
    else if pin.ptype == DAG_TYPE then pin.maxDepth == 0 && pin.reference.Some?
    else if pin.ptype == META_TYPE then pin.allocations == [] && pin.reference.Some?
    else false
  }

  /** Makes a pin fit for pinning; the type is only checked when the CID is pinned already. */
  function SetupPin(cfg: Config, pin: Pin, existing: Option<Pin>, now: Time): Result<Pin> {
    var r := SetupReplicationFactor(cfg, pin);
    if r.Err? then Err
    else if pin.opts.expireAt != Never && Earlier(pin.opts.expireAt, now) then Err
    else if existing.None? then r
    else if existing.value.ptype != pin.ptype then Err
    else if existing.value.opts.mode == RECURSIVE && pin.opts.mode != RECURSIVE then Err
    else if !CheckPinType(r.value) then Err
    else r
  }
}

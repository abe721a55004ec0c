/** Between `api.Pin` and its protobuf record: what survives being stored. */
module PinProto {
  import opened Basics
  import opened Pins

  type Bytes = string

  datatype PbMetadata = PbMetadata(key: string, value: string)

  datatype PbOptions = PbOptions(
    rplMin: int,
    rplMax: int,
    name: string,
    shardSize: nat,
    metadata: map<string, string>,  // deprecated: still read, no longer written
    pinUpdate: Bytes,
    expireAt: nat,
    origins: seq<Bytes>,
    sortedMetadata: seq<PbMetadata>)

  datatype PbPin = PbPin(
    cid: Bytes,
    ptype: nat,
    allocations: seq<Bytes>,
    maxDepth: int,
    reference: Bytes,
    options: PbOptions,
    timestamp: nat)

  /** Which bytes the libraries accept as a CID, a peer ID and a multiaddress. */
  datatype Codec = Codec(cid: Bytes -> bool, peer: Bytes -> bool, addr: Bytes -> bool)

  // ----- numbers -----

  function Pow2(n: nat): nat {
    if n == 0 then 1 else 2 * Pow2(n - 1)
  }

  /** The number of the highest set bit, 0 for no bits at all. */
  method ConvertPinType(t: nat) returns (i: nat)
    ensures TypeNumber(t, i)
  {
    i := 0;
    var u := t;
    HighBitIs(t);
    while u != 1
      invariant i + HighBit(u) == HighBit(t)
      decreases u
    {
      if u == 0 {
        return;
      }
      u := u / 2;
      i := i + 1;
    }
  }

  ghost function HighBit(t: nat): nat {
    if t <= 1 then 0 else 1 + HighBit(t / 2)
  }

  lemma {:induction false} HighBitIs(t: nat)
    ensures TypeNumber(t, HighBit(t))
  {
    if t > 1 {
      HighBitIs(t / 2);
    }
  }

  /** `i` is what `convertPinType` makes of `t`. */
  ghost predicate TypeNumber(t: nat, i: nat) {
    if t == 0 then i == 0 else Pow2(i) <= t < Pow2(i + 1)
  }

  lemma {:induction false} Pow2Monotonic(i: nat, j: nat)
    requires i <= j
    ensures Pow2(i) <= Pow2(j)
  {
    if i < j {
      Pow2Monotonic(i, j - 1);
    }
  }

  lemma TypeNumberUnique(t: nat, i: nat, j: nat)
    requires TypeNumber(t, i) && TypeNumber(t, j)
    ensures i == j
  {
    if i < j {
      Pow2Monotonic(i + 1, j);
    } else if j < i {
      Pow2Monotonic(j + 1, i);
    }
  }

  /** What comes back of a type is its highest bit. */
  lemma HighestBit(t: nat, i: nat)
    requires TypeNumber(t, i)
    ensures Pow2(i) == SavedType(t)
  {
    HighBitSaved(t);
    HighBitIs(t);
    TypeNumberUnique(t, i, HighBit(t));
  }

  lemma {:induction false} HighBitSaved(t: nat)
    ensures Pow2(HighBit(t)) == SavedType(t)
  {
    if t > 1 {
      HighBitSaved(t / 2);
    }
  }

  /** The type comes back unchanged exactly if it is a single bit. */
  lemma TypeSurvivesIff(t: nat, i: nat)
    requires TypeNumber(t, i)
    ensures Pow2(i) == t <==> exists k: nat :: t == Pow2(k)
  {
    if k: nat :| t == Pow2(k) {
      assert Pow2(k) < Pow2(k + 1) by { PowPositive(k); }
      PowPositive(k);
      TypeNumberUnique(t, i, k);
    }
  }

  lemma {:induction false} PowPositive(k: nat)
    ensures Pow2(k) > 0
  {
    if k > 0 {
      PowPositive(k - 1);
    }
  }

  // ----- times -----

  function TimeToProto(t: Time): nat {
    if t == Never || t == At(0) then 0 else t.nanos / SECOND % TWO64
  }

  function TimeFromProto(u: nat): Time {
    if u == 0 then Never else At((if u < TWO63 then u else u - TWO64) * SECOND)
  }

  /** The seconds of a time fit in 64 bits. */
  predicate TimeInRange(t: Time) {
    t.At? ==> -TWO63 <= t.nanos / SECOND < TWO63
  }

  lemma TimeRoundTrip(t: Time)
    requires TimeInRange(t)
    ensures TimeFromProto(TimeToProto(t)) == StoredTime(t)
  {
    if t.At? {
      var s := t.nanos / SECOND;
      assert s % TWO64 == if s >= 0 then s else s + TWO64;
    }
  }

  // ----- metadata -----

  ghost predicate SortedKeys(ks: seq<string>) {
    forall i, j :: 0 <= i < j < |ks| ==> StrLess(ks[i], ks[j])
  }

  /** `ms` lists the entries of `m`, sorted by key. */
  ghost predicate SortedMetadata(m: map<string, string>, ms: seq<PbMetadata>) {
    && (forall i, j :: 0 <= i < j < |ms| ==> StrLess(ms[i].key, ms[j].key))
    && (forall i :: 0 <= i < |ms| ==> ms[i].key in m && ms[i].value == m[ms[i].key])
    && (forall k :: k in m ==> exists i :: 0 <= i < |ms| && ms[i].key == k)
  }

  /** Reading the list back, later entries overwriting earlier ones. */
  function MetadataFrom(ms: seq<PbMetadata>): map<string, string> {
    if ms == [] then map[] else MetadataFrom(Front(ms))[Last(ms).key := Last(ms).value]
  }

  lemma {:induction false} MetadataFromKeys(ms: seq<PbMetadata>)
    ensures forall k :: k in MetadataFrom(ms) <==> exists i :: 0 <= i < |ms| && ms[i].key == k
  {
    if ms != [] {
      MetadataFromKeys(Front(ms));
      forall k
        ensures k in MetadataFrom(ms) <==> exists i :: 0 <= i < |ms| && ms[i].key == k
      {
        if i :| 0 <= i < |ms| && ms[i].key == k {
          assert i < |ms| - 1 ==> Front(ms)[i].key == k;
        }
        if j :| 0 <= j < |Front(ms)| && Front(ms)[j].key == k {
          assert ms[j].key == k;
        }
      }
    }
  }

  lemma {:induction false} MetadataFromAt(ms: seq<PbMetadata>, m: map<string, string>)
    requires forall i :: 0 <= i < |ms| ==> ms[i].key in m && ms[i].value == m[ms[i].key]
    ensures forall k :: k in MetadataFrom(ms) ==> k in m && MetadataFrom(ms)[k] == m[k]
  {
    if ms != [] {
      MetadataFromAt(Front(ms), m);
    }
  }

  lemma MetadataRoundTrip(m: map<string, string>, ms: seq<PbMetadata>)
    requires SortedMetadata(m, ms)
    ensures MetadataFrom(ms) == m
  {
    MetadataFromKeys(ms);
    MetadataFromAt(ms, m);
  }

  /** Equal metadata is always listed in the same way, whatever the order in which the map is visited. */
  lemma {:induction false} SortedMetadataUnique(m: map<string, string>, a: seq<PbMetadata>, b: seq<PbMetadata>)
    requires SortedMetadata(m, a) && SortedMetadata(m, b)
    ensures a == b
    decreases |m|
  {
    if a == [] {
      NoEntries(m, b);
    } else {
      assert Last(a).key in m;
      SameLastKey(m, a, b);
      WithoutLast(m, a);
      WithoutLast(m, b);
      SortedMetadataUnique(m - {Last(a).key}, Front(a), Front(b));
      FrontLast(a);
      FrontLast(b);
    }
  }

  lemma NoEntries(m: map<string, string>, b: seq<PbMetadata>)
    requires SortedMetadata(m, b)
    ensures b != [] ==> exists k :: k in m
  {
    if b != [] {
      assert b[0].key in m;
    }
  }

  lemma LastKeyGreatest(m: map<string, string>, a: seq<PbMetadata>, k: string)
    requires SortedMetadata(m, a) && k in m
    ensures a != [] && (k == Last(a).key || StrLess(k, Last(a).key))
  {
    var i :| 0 <= i < |a| && a[i].key == k;
  }

  lemma SameLastKey(m: map<string, string>, a: seq<PbMetadata>, b: seq<PbMetadata>)
    requires SortedMetadata(m, a) && SortedMetadata(m, b) && a != []
    ensures b != [] && Last(a).key == Last(b).key && Last(a) == Last(b)
  {
    LastKeyGreatest(m, b, Last(a).key);
    LastKeyGreatest(m, a, Last(b).key);
    StrLessTotal(Last(a).key, Last(b).key);
  }

  lemma WithoutLast(m: map<string, string>, a: seq<PbMetadata>)
    requires SortedMetadata(m, a) && a != []
    ensures SortedMetadata(m - {Last(a).key}, Front(a)) && Last(a).key in m
  {
    var k := Last(a).key;
    forall i | 0 <= i < |Front(a)|
      ensures Front(a)[i].key != k
    {
      StrLessTotal(a[i].key, k);
    }
    forall l | l in m - {k}
      ensures exists i :: 0 <= i < |Front(a)| && Front(a)[i].key == l
    {
      var i :| 0 <= i < |a| && a[i].key == l;
      assert Front(a)[i].key == l;
    }
  }

  // ----- pins -----

  function CidBytes(c: Cid): Bytes {
    if c == Undef then "" else c.bytes
  }

  /** `CastCid`, which fails on bytes that are no CID, such as those of the undefined one. */
  function CastCid(codec: Codec, b: Bytes): Result<Cid> {
    if b != "" && codec.cid(b) then Ok(Cid(b)) else Err
  }

  function ReferenceBytes(r: Option<Cid>): Bytes {
    if r.None? then "" else CidBytes(r.value)
  }

  /** `pb` is the record that `ProtoMarshal` makes of `pin`. */
  ghost predicate Marshals(pin: Pin, pb: PbPin) {
    && pb.cid == CidBytes(pin.cid)
    && TypeNumber(pin.ptype, pb.ptype)
    && pb.allocations == pin.allocations
    && pb.maxDepth == Int32(pin.maxDepth)
    && pb.reference == ReferenceBytes(pin.reference)
    && pb.timestamp == TimeToProto(pin.timestamp)
    && pb.options.rplMin == Int32(pin.opts.rplMin)
    && pb.options.rplMax == Int32(pin.opts.rplMax)
    && pb.options.name == pin.opts.name
    && pb.options.shardSize == pin.opts.shardSize
    && pb.options.pinUpdate == CidBytes(pin.opts.pinUpdate)
    && pb.options.expireAt == TimeToProto(pin.opts.expireAt)
    && pb.options.origins == pin.opts.origins
    && pb.options.metadata == map[]
    && SortedMetadata(pin.opts.metadata, pb.options.sortedMetadata)
  }

  method ProtoMarshal(pin: Pin) returns (pb: PbPin)
    ensures Marshals(pin, pb)
  {
    var t := ConvertPinType(pin.ptype);
    var ms := SortMetadata(pin.opts.metadata);
    var opts := PbOptions(
      Int32(pin.opts.rplMin), Int32(pin.opts.rplMax), pin.opts.name, pin.opts.shardSize, map[],
      CidBytes(pin.opts.pinUpdate), TimeToProto(pin.opts.expireAt), pin.opts.origins, ms);
    pb := PbPin(
      CidBytes(pin.cid), t, pin.allocations, Int32(pin.maxDepth), ReferenceBytes(pin.reference), opts,
      TimeToProto(pin.timestamp));
  }

  /** Visits the map in any order, sorts the keys and lists the entries. */
  method SortMetadata(m: map<string, string>) returns (ms: seq<PbMetadata>)
    ensures SortedMetadata(m, ms)
  {
    var order := AnyOrder(m.Keys);
    var keys := SortStrings(order);
    ms := [];
    var i := 0;
    SameKeys(m, order, keys);
    while i < |keys|
      invariant 0 <= i <= |keys| && |ms| == i
      invariant forall j :: 0 <= j < i ==> keys[j] in m && ms[j] == PbMetadata(keys[j], m[keys[j]])
    {
      assert keys[i] in keys;
      ms := ms + [PbMetadata(keys[i], m[keys[i]])];
      i := i + 1;
    }
    forall k | k in m
      ensures exists j :: 0 <= j < |ms| && ms[j].key == k
    {
      var j :| 0 <= j < |keys| && keys[j] == k;
      assert ms[j].key == k;
    }
  }

  lemma SameKeys(m: map<string, string>, order: seq<string>, keys: seq<string>)
    requires Elements(order) == m.Keys && multiset(keys) == multiset(order)
    ensures forall k :: k in keys <==> k in m
  {
    forall k
      ensures k in keys <==> k in m
    {
      assert k in keys <==> k in multiset(keys);
      assert k in order <==> k in multiset(order);
      assert k in order <==> k in Elements(order);
    }
  }

  /** `sort.Strings` on distinct strings. */
  method SortStrings(order: seq<string>) returns (keys: seq<string>)
    requires NoDup(order)
    ensures multiset(keys) == multiset(order) && SortedKeys(keys)
  {
    keys := [];
    var i := 0;
    while i < |order|
      invariant 0 <= i <= |order| && multiset(keys) == multiset(order[..i]) && SortedKeys(keys)
    {
      PrefixSnoc(order, i);
      assert order[i] !in order[..i] && order[i] !in multiset(order[..i]);
      keys := InsertString(keys, order[i]);
      i := i + 1;
    }
    assert order[..i] == order;
  }

  method InsertString(keys: seq<string>, k: string) returns (r: seq<string>)
    requires SortedKeys(keys) && k !in multiset(keys)
    ensures multiset(r) == multiset(keys) + multiset{k} && SortedKeys(r)
  {
    var i := 0;
    while i < |keys| && StrLess(keys[i], k)
      invariant 0 <= i <= |keys| && forall j :: 0 <= j < i ==> StrLess(keys[j], k)
    {
      i := i + 1;
    }
    r := keys[..i] + [k] + keys[i..];
    KeysInsert(keys, i, k);
  }

  lemma KeysInsert(keys: seq<string>, i: int, k: string)
    requires SortedKeys(keys) && k !in multiset(keys) && 0 <= i <= |keys|
    requires (forall j :: 0 <= j < i ==> StrLess(keys[j], k)) && (i < |keys| ==> !StrLess(keys[i], k))
    ensures SortedKeys(keys[..i] + [k] + keys[i..])
    ensures multiset(keys[..i] + [k] + keys[i..]) == multiset(keys) + multiset{k}
  {
    InsertMultiset(keys, i, k);
    forall j | i <= j < |keys|
      ensures StrLess(k, keys[j])
    {
      assert keys[i] in multiset(keys);
      StrLessTotal(k, keys[i]);
      if j > i {
        StrLessTransitive(k, keys[i], keys[j]);
      }
    }
  }

  /** `ProtoUnmarshal` into a fresh pin. */
  ghost function Unmarshal(codec: Codec, pb: PbPin): Result<Pin> {
    if || (exists a :: a in pb.allocations && !codec.peer(a))
       || (exists o :: o in pb.options.origins && !codec.addr(o))
    then Err
    else
      var cid := CastCid(codec, pb.cid);
      var ref := CastCid(codec, pb.reference);
      var update := CastCid(codec, pb.options.pinUpdate);
      var opts := PinOptions(
        pb.options.rplMin, pb.options.rplMax, pb.options.name, ToPinMode(pb.maxDepth), pb.options.shardSize, [],
        TimeFromProto(pb.options.expireAt), pb.options.metadata + MetadataFrom(pb.options.sortedMetadata),
        if update.Ok? then update.value else Undef, pb.options.origins);
      Ok(Pin(
        opts,
        if cid.Ok? then cid.value else Undef,
        Pow2(pb.ptype),
        pb.allocations,
        pb.maxDepth,
        if ref.Ok? then Some(ref.value) else None,
        TimeFromProto(pb.timestamp)))
  }

  /** Whether all of `items` can be read. */
  method AllAccepted(accepts: Bytes -> bool, items: seq<Bytes>) returns (ok: bool)
    ensures ok <==> forall a :: a in items ==> accepts(a)
  {
    var i := 0;
    while i < |items|
      invariant 0 <= i <= |items| && forall j :: 0 <= j < i ==> accepts(items[j])
    {
      if !accepts(items[i]) {
        return false;
      }
      i := i + 1;
    }
    return true;
  }

  /** Reads the metadata entry by entry and gives up on a peer or an origin that cannot be read. */
  method ProtoUnmarshal(codec: Codec, pb: PbPin) returns (r: Result<Pin>)
    ensures r == Unmarshal(codec, pb)
  {
    var cid := CastCid(codec, pb.cid);
    var peersOk := AllAccepted(codec.peer, pb.allocations);
    if !peersOk {
      return Err;
    }
    var ref := CastCid(codec, pb.reference);
    var metadata := pb.options.metadata;
    var ms := pb.options.sortedMetadata;
    var i := 0;
    while i < |ms|
      invariant 0 <= i <= |ms| && metadata == pb.options.metadata + MetadataFrom(ms[..i])
    {
      PrefixSnoc(ms, i);
      SnocParts(ms[..i], ms[i]);
      metadata := metadata[ms[i].key := ms[i].value];
      i := i + 1;
    }
    assert ms[..i] == ms;
    var update := CastCid(codec, pb.options.pinUpdate);
    var originsOk := AllAccepted(codec.addr, pb.options.origins);
    if !originsOk {
      return Err;
    }
    var opts := PinOptions(
      pb.options.rplMin, pb.options.rplMax, pb.options.name, ToPinMode(pb.maxDepth), pb.options.shardSize, [],
      TimeFromProto(pb.options.expireAt), metadata, if update.Ok? then update.value else Undef, pb.options.origins);
    r := Ok(Pin(opts, if cid.Ok? then cid.value else Undef, Pow2(pb.ptype), pb.allocations, pb.maxDepth,
                if ref.Ok? then Some(ref.value) else None, TimeFromProto(pb.timestamp)));
  }

  ghost predicate WellFormedCid(codec: Codec, c: Cid) {
    c == Undef || (c.bytes != "" && codec.cid(c.bytes))
  }

  /** Its CIDs, peers and origins have proper bytes and its times fit. */
  ghost predicate Encodable(codec: Codec, pin: Pin) {
    && WellFormedCid(codec, pin.cid) && WellFormedCid(codec, pin.opts.pinUpdate)
    && (pin.reference.Some? ==> WellFormedCid(codec, pin.reference.value))
    && (forall a :: a in pin.allocations ==> codec.peer(a)) && (forall o :: o in pin.opts.origins ==> codec.addr(o))
    && TimeInRange(pin.timestamp) && TimeInRange(pin.opts.expireAt)
  }

  /** Marshalling and unmarshalling a pin gives exactly what the pinset keeps of it. */
  lemma RoundTrip(codec: Codec, pin: Pin, pb: PbPin)
    requires Encodable(codec, pin) && Marshals(pin, pb)
    ensures Unmarshal(codec, pb) == Ok(Saved(pin))
  {
    TimeRoundTrip(pin.timestamp);
    TimeRoundTrip(pin.opts.expireAt);
    MetadataRoundTrip(pin.opts.metadata, pb.options.sortedMetadata);
    assert pb.options.metadata + pin.opts.metadata == pin.opts.metadata;
    HighestBit(pin.ptype, pb.ptype);
  }

  /** A pin always gives the same record. */
  lemma MarshalDeterministic(pin: Pin, a: PbPin, b: PbPin)
    requires Marshals(pin, a) && Marshals(pin, b)
    ensures a == b
  {
    TypeNumberUnique(pin.ptype, a.ptype, b.ptype);
    SortedMetadataUnique(pin.opts.metadata, a.options.sortedMetadata, b.options.sortedMetadata);
  }

  /** A pin is recovered exactly if and only if nothing in it is transient, fractional, too large or inconsistent. */
  lemma ExactRoundTripIff(codec: Codec, pin: Pin, pb: PbPin)
    requires Encodable(codec, pin) && Marshals(pin, pb)
    ensures Unmarshal(codec, pb) == Ok(pin) <==>
      && (exists k: nat :: pin.ptype == Pow2(k))
      && FitsInt32(pin.maxDepth) && FitsInt32(pin.opts.rplMin) && FitsInt32(pin.opts.rplMax)
      && pin.opts.mode == ToPinMode(pin.maxDepth)
      && pin.opts.userAllocations == []
      && pin.reference != Some(Undef)
      && WholeSeconds(pin.timestamp) && WholeSeconds(pin.opts.expireAt)
  {
    RoundTrip(codec, pin, pb);
    SavedIsSaved(pin);
    TypeSurvivesIff(pin.ptype, pb.ptype);
    HighestBit(pin.ptype, pb.ptype);
  }

  const LOSSY_PIN := Pin(
    PinOptions(1, 2, "", RECURSIVE, 0, ["p"], At(1_500_000_000), map[], Undef, []),
    Cid("c"), SHARD_TYPE, ["p"], 0, Some(Undef), At(500_000_000))

  /** A pin that loses its user allocations, its mode, its undefined reference and parts of its times. */
  lemma RoundTripLoses(codec: Codec, pb: PbPin)
    requires codec.cid("c") && codec.peer("p") && Marshals(LOSSY_PIN, pb)
    ensures Unmarshal(codec, pb) == Ok(Pin(
      PinOptions(1, 2, "", DIRECT, 0, [], At(1_000_000_000), map[], Undef, []),
      Cid("c"), SHARD_TYPE, ["p"], 0, None, Never))
  {
    PinTypes();
    RoundTrip(codec, LOSSY_PIN, pb);
  }
}

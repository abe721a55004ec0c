/** Each peer decides alone whether it is the one closest to a CID, by the XOR distance of hashes. */
module Election {
  import opened Basics

  const SIZE := 32

  /** A 256-bit hash, or the distance between two of them. */
  type Distance = d: seq<bv8> | |d| == SIZE witness seq(SIZE, _ => 0)

  function XorByte(x: bv8, y: bv8): bv8 {
    x ^ y
  }

  ghost function Xor(a: Distance, b: Distance): (r: Distance)
    ensures forall i :: 0 <= i < SIZE ==> r[i] == XorByte(a[i], b[i])
  {
    seq(SIZE, i requires 0 <= i < SIZE => XorByte(a[i], b[i]))
  }

  /** `bytes.Compare(a, b) > 0` */
  predicate Greater(a: seq<bv8>, b: seq<bv8>) {
    if a == [] then false
    else if b == [] then true
    else if a[0] != b[0] then a[0] > b[0]
    else Greater(a[1..], b[1..])
  }

  lemma {:induction false} GreaterTotal(a: seq<bv8>, b: seq<bv8>)
    ensures !(Greater(a, b) && Greater(b, a))
    ensures a != b ==> Greater(a, b) || Greater(b, a)
  {
    if a != [] && b != [] && a[0] == b[0] {
      GreaterTotal(a[1..], b[1..]);
      assert a == [a[0]] + a[1..] && b == [b[0]] + b[1..];
    }
  }

  lemma {:induction false} GreaterTransitive(a: seq<bv8>, b: seq<bv8>, c: seq<bv8>)
    requires !Greater(a, b) && !Greater(b, c)
    ensures !Greater(a, c)
  {
    if a != [] && b != [] && c != [] && a[0] == b[0] && b[0] == c[0] {
      GreaterTransitive(a[1..], b[1..], c[1..]);
    }
  }

  // ----- distances are numbers -----

  ghost function Power(n: nat): nat {
    if n == 0 then 1 else 256 * Power(n - 1)
  }

  /** A distance as a big-endian number. */
  ghost function Number(a: seq<bv8>): nat {
    if a == [] then 0 else (a[0] as int) * Power(|a| - 1) + Number(a[1..])
  }

  lemma ByteOrder(x: bv8, y: bv8)
    ensures x > y <==> x as int > y as int
    ensures x == y <==> x as int == y as int
    ensures 0 <= x as int < 256
  {
  }

  lemma {:induction false} NumberBound(a: seq<bv8>)
    ensures Number(a) < Power(|a|)
  {
    if a != [] {
      NumberBound(a[1..]);
      ByteOrder(a[0], a[0]);
      Leading(a[0] as int, 255, Power(|a| - 1));
    }
  }

  lemma Leading(x: int, y: int, p: nat)
    requires x <= y
    ensures x * p <= y * p
  {
  }

  /** Two numbers compare as their first digits do, or as the rest if those are equal. */
  lemma FirstDigit(x: int, y: int, p: nat, r: nat, s: nat)
    requires r < p && s < p
    ensures x * p + r > y * p + s <==> x > y || (x == y && r > s)
  {
    if x > y {
      Leading(y + 1, x, p);
    } else if x < y {
      Leading(x + 1, y, p);
    }
  }

  /** Comparing bytes from the left compares the numbers. */
  lemma {:induction false} GreaterIsGreater(a: seq<bv8>, b: seq<bv8>)
    requires |a| == |b|
    ensures Greater(a, b) <==> Number(a) > Number(b)
  {
    if a != [] {
      GreaterIsGreater(a[1..], b[1..]);
      NumberBound(a[1..]);
      NumberBound(b[1..]);
      ByteOrder(a[0], b[0]);
      FirstDigit(a[0] as int, b[0] as int, Power(|a| - 1), Number(a[1..]), Number(b[1..]));
    }
  }

  // ----- bit by bit -----

  function Mask(k: nat): bv8 {
    if k == 0 then 1
    else if k == 1 then 2
    else if k == 2 then 4
    else if k == 3 then 8
    else if k == 4 then 16
    else if k == 5 then 32
    else if k == 6 then 64
    else 128
  }

  /** Bit `k` of a byte, the least significant being bit 0. */
  predicate Bit(x: bv8, k: nat)
    requires k < 8
  {
    x & Mask(k) != 0
  }

  /** A bit of the XOR is set exactly if it is set in one of the two. */
  lemma XorBit(x: bv8, y: bv8, k: nat)
    requires k < 8
    ensures Bit(XorByte(x, y), k) <==> Bit(x, k) != Bit(y, k)
  {
  }

  ghost predicate SameAbove(x: bv8, y: bv8, k: nat) {
    forall j :: k < j < 8 ==> (Bit(x, j) <==> Bit(y, j))
  }

  /** The bits above bit `k`. */
  function Above(k: nat): bv8 {
    255 - (Mask(k) | (Mask(k) - 1))
  }

  lemma OneBit(k: nat)
    ensures Mask(k) & (Mask(k) - 1) == 0
  {
  }

  lemma AboveStep(k: nat)
    requires k < 7
    ensures Above(k) == Above(k + 1) | Mask(k + 1)
  {
  }

  lemma JoinMasks(x: bv8, y: bv8, a: bv8, m: bv8)
    requires x & a == y & a && (x & m != 0 <==> y & m != 0) && m & (m - 1) == 0
    ensures x & (a | m) == y & (a | m)
  {
  }

  lemma {:induction false} AboveSame(x: bv8, y: bv8, k: nat)
    requires k < 8 && SameAbove(x, y, k)
    ensures x & Above(k) == y & Above(k)
    decreases 8 - k
  {
    if k < 7 {
      AboveSame(x, y, k + 1);
      AboveStep(k);
      OneBit(k + 1);
      assert Bit(x, k + 1) <==> Bit(y, k + 1);
      JoinMasks(x, y, Above(k + 1), Mask(k + 1));
    }
  }

  lemma MaskDecides(x: bv8, y: bv8, m: bv8)
    requires m & (m - 1) == 0 && (x & m != 0) != (y & m != 0)
    requires x & (255 - (m | (m - 1))) == y & (255 - (m | (m - 1)))
    ensures x != y && (x > y <==> x & m != 0)
  {
  }

  /** The first bit in which the bytes differ decides which is larger. */
  lemma FirstBitDecides(x: bv8, y: bv8, k: nat)
    requires k < 8 && SameAbove(x, y, k) && Bit(x, k) != Bit(y, k)
    ensures x != y && (x > y <==> Bit(x, k))
  {
    AboveSame(x, y, k);
    OneBit(k);
    MaskDecides(x, y, Mask(k));
  }

  lemma {:induction false} FirstByteDecides(a: seq<bv8>, b: seq<bv8>, i: nat)
    requires i < |a| && i < |b| && a[..i] == b[..i] && a[i] != b[i]
    ensures Greater(a, b) <==> a[i] > b[i]
  {
    if i > 0 {
      assert a[0] == a[..i][0] && b[0] == b[..i][0];
      assert a[1..][..i - 1] == a[..i][1..] && b[1..][..i - 1] == b[..i][1..];
      FirstByteDecides(a[1..], b[1..], i - 1);
    }
  }

  /** Bytes that differ differ in a first bit. */
  lemma FirstBit(x: bv8, y: bv8) returns (k: nat)
    requires x != y
    ensures k < 8 && SameAbove(x, y, k) && Bit(x, k) != Bit(y, k)
  {
    k := 7;
    while Bit(x, k) == Bit(y, k)
      invariant k < 8 && SameAbove(x, y, k)
      decreases k
    {
      if k == 0 {
        SameBits(x, y);
        assert false;
      }
      k := k - 1;
    }
  }

  lemma SameBits(x: bv8, y: bv8)
    requires SameAbove(x, y, 0) && Bit(x, 0) == Bit(y, 0)
    ensures x == y
  {
    AboveSame(x, y, 0);
    JoinMasks(x, y, Above(0), 1);
  }

  /** The hashes agree up to bit `k` of byte `i`, and differ there. */
  ghost predicate DifferFirstAt(a: Distance, b: Distance, i: nat, k: nat) {
    i < SIZE && k < 8 && a[..i] == b[..i] && SameAbove(a[i], b[i], k) && Bit(a[i], k) != Bit(b[i], k)
  }

  lemma FirstDifference(a: Distance, b: Distance) returns (i: nat, k: nat)
    requires a != b
    ensures DifferFirstAt(a, b, i, k)
  {
    i := 0;
    assert a[..SIZE] == a && b[..SIZE] == b;
    while i < SIZE && a[i] == b[i]
      invariant i <= SIZE && a[..i] == b[..i]
    {
      i := i + 1;
    }
    k := FirstBit(a[i], b[i]);
  }

  /** The distances of two hashes from a key differ first where the hashes do. */
  lemma XorDiffersFirst(x: Distance, a: Distance, b: Distance, i: nat, k: nat)
    requires DifferFirstAt(a, b, i, k)
    ensures DifferFirstAt(Xor(x, a), Xor(x, b), i, k)
  {
    assert forall j :: 0 <= j < i ==> a[j] == a[..i][j] == b[..i][j] == b[j];
    assert Xor(x, a)[..i] == Xor(x, b)[..i];
    forall j | k <= j < 8
      ensures Bit(Xor(x, a)[i], j) != Bit(Xor(x, b)[i], j) <==> Bit(a[i], j) != Bit(b[i], j)
    {
      XorBit(x[i], a[i], j);
      XorBit(x[i], b[i], j);
    }
  }

  lemma GreaterByFirstBit(x: Distance, y: Distance, i: nat, k: nat)
    requires DifferFirstAt(x, y, i, k)
    ensures Greater(x, y) <==> Bit(x[i], k)
  {
    FirstBitDecides(x[i], y[i], k);
    FirstByteDecides(x, y, i);
  }

  lemma XorCommutes(a: Distance, b: Distance)
    ensures Xor(a, b) == Xor(b, a)
  {
  }

  lemma XorInjective(x: Distance, a: Distance, b: Distance)
    requires Xor(x, a) == Xor(x, b)
    ensures a == b
  {
    forall i | 0 <= i < SIZE
      ensures a[i] == b[i]
    {
      XorInjectiveAt(x, a, b, i);
    }
  }

  lemma XorInjectiveAt(x: Distance, a: Distance, b: Distance, i: int)
    requires 0 <= i < SIZE && Xor(x, a)[i] == Xor(x, b)[i]
    ensures a[i] == b[i]
  {
    SameXor(x[i], a[i], b[i]);
  }

  lemma SameXor(x: bv8, a: bv8, b: bv8)
    requires XorByte(x, a) == XorByte(x, b)
    ensures a == b
  {
  }

  // ----- the decision -----

  /** Peer `a` is no farther from the key than `b`. */
  ghost predicate NoFarther(digest: string -> Distance, key: string, a: PeerID, b: PeerID) {
    !Greater(Xor(digest(key), digest(a)), Xor(digest(key), digest(b)))
  }

  /** What a peer concludes from its own view of the other peers. */
  ghost predicate Closest(digest: string -> Distance, key: string, local: PeerID, others: set<PeerID>) {
    forall p :: p in others ==> NoFarther(digest, key, local, p)
  }

  /** Of two peers with different hashes the nearer one is that which agrees with the key where they differ first. */
  lemma NearerByFirstBit(digest: string -> Distance, key: string, a: PeerID, b: PeerID, i: nat, k: nat)
    requires DifferFirstAt(digest(a), digest(b), i, k)
    ensures NoFarther(digest, key, a, b) <==> (Bit(digest(a)[i], k) <==> Bit(digest(key)[i], k))
  {
    XorDiffersFirst(digest(key), digest(a), digest(b), i, k);
    GreaterByFirstBit(Xor(digest(key), digest(a)), Xor(digest(key), digest(b)), i, k);
    XorBit(digest(key)[i], digest(a)[i], k);
  }

  /** So nearness is decided for any two hashes. */
  lemma NearerDecided(digest: string -> Distance, key: string, a: PeerID, b: PeerID)
    ensures NoFarther(digest, key, a, b) <==>
      || digest(a) == digest(b)
      || exists i: nat, k: nat ::
           DifferFirstAt(digest(a), digest(b), i, k) && (Bit(digest(a)[i], k) <==> Bit(digest(key)[i], k))
  {
    if digest(a) == digest(b) {
      GreaterTotal(Xor(digest(key), digest(a)), Xor(digest(key), digest(a)));
    } else {
      var i, k := FirstDifference(digest(a), digest(b));
      NearerByFirstBit(digest, key, a, b, i, k);
      forall i': nat, k': nat | DifferFirstAt(digest(a), digest(b), i', k')
        ensures NoFarther(digest, key, a, b) <==> (Bit(digest(a)[i'], k') <==> Bit(digest(key)[i'], k'))
      {
        NearerByFirstBit(digest, key, a, b, i', k');
      }
    }
  }

  /** A peer whose hash is that of the key acts, whomever it knows; and no peer with another hash that knows it does. */
  lemma OwnKey(
    digest: string -> Distance, key: string, local: PeerID, others: set<PeerID>, p: PeerID, view: set<PeerID>)
    requires digest(local) == digest(key)
    ensures Closest(digest, key, local, others)
    ensures local in view && digest(p) != digest(local) ==> !Closest(digest, key, p, view)
  {
    forall q | q in others
      ensures NoFarther(digest, key, local, q)
    {
      NearerDecided(digest, key, local, q);
      if digest(local) != digest(q) {
        var i, k := FirstDifference(digest(local), digest(q));
      }
    }
    if digest(p) != digest(local) {
      var i, k := FirstDifference(digest(p), digest(local));
      NearerByFirstBit(digest, key, p, local, i, k);
    }
  }

  class DistanceChecker {
    const digest: string -> Distance
    const local: PeerID
    const otherPeers: seq<PeerID>
    var cache: map<PeerID, Distance>

    ghost predicate Valid()
      reads this
    {
      forall p :: p in cache ==> cache[p] == digest(p)
    }

    constructor (digest: string -> Distance, local: PeerID, otherPeers: seq<PeerID>)
      ensures Valid() && cache == map[]
      ensures this.digest == digest && this.local == local && this.otherPeers == otherPeers
    {
      this.digest, this.local, this.otherPeers, cache := digest, local, otherPeers, map[];
    }

    /** Hashes a peer ID, or remembers its hash. */
    method ConvertPeerID(id: PeerID) returns (h: Distance)
      requires Valid()
      modifies this`cache
      ensures Valid() && h == digest(id) && cache == old(cache)[id := h]
    {
      if id in cache {
        h := cache[id];
        assert cache == cache[id := h];
      } else {
        h := digest(id);
        cache := cache[id := h];
      }
    }

    /** Whether no other known peer is closer to the key. */
    method IsClosest(key: string) returns (r: bool)
      requires Valid()
      modifies this`cache
      ensures Valid() && r == Closest(digest, key, local, Elements(otherPeers))
    {
      var ciHash := digest(key);
      var localHash := ConvertPeerID(local);
      var mine := XorBytes(ciHash, localHash);
      var i := 0;
      while i < |otherPeers|
        invariant 0 <= i <= |otherPeers| && Valid()
        invariant forall j :: 0 <= j < i ==> NoFarther(digest, key, local, otherPeers[j])
      {
        var peerHash := ConvertPeerID(otherPeers[i]);
        var theirs := XorBytes(peerHash, ciHash);
        XorCommutes(peerHash, ciHash);
        if Greater(mine, theirs) {
          assert !NoFarther(digest, key, local, otherPeers[i]);
          assert otherPeers[i] in Elements(otherPeers);
          return false;
        }
        i := i + 1;
      }
      return true;
    }
  }

  /** The XOR distance, filled in byte by byte. */
  method XorBytes(a: Distance, b: Distance) returns (c: Distance)
    ensures c == Xor(a, b)
    ensures forall i, k :: 0 <= i < SIZE && 0 <= k < 8 ==> (Bit(c[i], k) <==> Bit(a[i], k) != Bit(b[i], k))
  {
    var buf := new bv8[SIZE](_ => 0);
    var i := 0;
    while i < buf.Length
      invariant 0 <= i <= buf.Length
      invariant forall j :: 0 <= j < i ==> buf[j] == XorByte(a[j], b[j])
    {
      buf[i] := XorByte(a[i], b[i]);
      i := i + 1;
    }
    c := buf[..];
    forall j, k | 0 <= j < SIZE && 0 <= k < 8
      ensures Bit(c[j], k) <==> Bit(a[j], k) != Bit(b[j], k)
    {
      XorBit(a[j], b[j], k);
    }
  }

  // ----- many peers -----

  /** `n` is among the peers nearest to the key. */
  ghost predicate Nearest(digest: string -> Distance, key: string, peers: set<PeerID>, n: PeerID) {
    n in peers && forall p :: p in peers ==> NoFarther(digest, key, n, p)
  }

  lemma {:induction false} SomeNearest(digest: string -> Distance, key: string, peers: set<PeerID>) returns (n: PeerID)
    requires peers != {}
    ensures Nearest(digest, key, peers, n)
    decreases |peers|
  {
    var x :| x in peers;
    var rest := peers - {x};
    GreaterTotal(Xor(digest(key), digest(x)), Xor(digest(key), digest(x)));
    assert forall p :: p in peers <==> p == x || p in rest;
    if rest == {} {
      n := x;
    } else {
      var m := SomeNearest(digest, key, rest);
      GreaterTotal(Xor(digest(key), digest(x)), Xor(digest(key), digest(m)));
      n := if NoFarther(digest, key, x, m) then x else m;
      forall p | p in peers
        ensures NoFarther(digest, key, n, p)
      {
        if n == x && p != x {
          assert NoFarther(digest, key, m, p);
          GreaterTransitive(Xor(digest(key), digest(x)), Xor(digest(key), digest(m)), Xor(digest(key), digest(p)));
        }
      }
    }
  }

  /** However incomplete the views are, some peer acts on every CID: a nearest one always does. */
  lemma Coverage(
    digest: string -> Distance, key: string, peers: set<PeerID>, views: map<PeerID, set<PeerID>>)
    returns (n: PeerID)
    requires peers != {} && views.Keys == peers && forall p :: p in peers ==> views[p] <= peers
    ensures n in peers && Nearest(digest, key, peers, n) && Closest(digest, key, n, views[n])
  {
    n := SomeNearest(digest, key, peers);
  }

  /** A peer acts exactly when it is nearest among itself and the peers it knows. */
  lemma ActsIffNearest(digest: string -> Distance, key: string, local: PeerID, view: set<PeerID>)
    ensures Closest(digest, key, local, view) <==> Nearest(digest, key, view + {local}, local)
  {
    GreaterTotal(Xor(digest(key), digest(local)), Xor(digest(key), digest(local)));
  }

  /** With complete views and distinct hashes, exactly one peer acts. */
  lemma Uniqueness(digest: string -> Distance, key: string, peers: set<PeerID>) returns (n: PeerID)
    requires peers != {} && forall p, q :: p in peers && q in peers && p != q ==> digest(p) != digest(q)
    ensures n in peers
    ensures forall p :: p in peers ==> (Closest(digest, key, p, peers - {p}) <==> p == n)
  {
    n := SomeNearest(digest, key, peers);
    forall p | p in peers
      ensures Closest(digest, key, p, peers - {p}) <==> p == n
    {
      if p != n {
        var k := digest(key);
        GreaterTotal(Xor(k, digest(p)), Xor(k, digest(n)));
        if Xor(k, digest(p)) == Xor(k, digest(n)) {
          XorInjective(k, digest(p), digest(n));
        }
        assert !NoFarther(digest, key, p, n);
      }
    }
  }
}

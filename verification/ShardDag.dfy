/** The two-level DAG of links that tracks a shard or a sharded upload. */
module ShardDag {
  import opened Basics
  import opened Pins
  import opened Pinset

  const MAX_LINKS := 5984

  // ----- link names -----

  function Digit(d: int): char
    requires 0 <= d < 10
  {
    ('0' as int + d) as char
  }

  /** `fmt.Sprintf("%d", n)` */
  function Decimal(n: nat): (s: string)
    ensures s != ""
  {
    if n < 10 then [Digit(n)] else Decimal(n / 10) + [Digit(n % 10)]
  }

  ghost function Parse(s: string): int {
    if s == "" then 0 else Parse(Front(s)) * 10 + (Last(s) as int - '0' as int)
  }

  lemma {:induction false} ParseDecimal(n: nat)
    ensures Parse(Decimal(n)) == n
  {
    if n < 10 {
      assert Front(Decimal(n)) == "";
    } else {
      ParseDecimal(n / 10);
      assert Front(Decimal(n)) == Decimal(n / 10);
    }
  }

  lemma DecimalInjective(i: nat, j: nat)
    requires Decimal(i) == Decimal(j)
    ensures i == j
  {
    ParseDecimal(i);
    ParseDecimal(j);
  }

  /** Links named "0", "1", ... in the order of `cids`. */
  ghost function LinkMap(cids: seq<Cid>): (m: Links)
  {
    if cids == [] then map[] else LinkMap(Front(cids))[Decimal(|cids| - 1) := Last(cids)]
  }

  lemma LinkMapSnoc(cids: seq<Cid>, c: Cid)
    ensures LinkMap(cids + [c]) == LinkMap(cids)[Decimal(|cids|) := c]
  {
    SnocParts(cids, c);
  }

  /** `s` is the name of one of the first `n` links. */
  ghost predicate Numbered(s: string, n: nat) {
    exists k: nat :: k < n && s == Decimal(k)
  }

  lemma {:induction false} LinkMapNames(cids: seq<Cid>, s: string)
    requires s in LinkMap(cids)
    ensures Numbered(s, |cids|)
  {
    if s in LinkMap(Front(cids)) {
      LinkMapNames(Front(cids), s);
    } else {
      assert s == Decimal(|cids| - 1);
    }
  }

  /** The next name is not in use. */
  lemma NextName(cids: seq<Cid>)
    ensures Decimal(|cids|) !in LinkMap(cids)
  {
    if Decimal(|cids|) in LinkMap(cids) {
      LinkMapNames(cids, Decimal(|cids|));
      var k: nat :| k < |cids| && Decimal(|cids|) == Decimal(k);
      DecimalInjective(k, |cids|);
    }
  }

  lemma {:induction false} LinkMapIs(cids: seq<Cid>)
    ensures forall k: nat :: k < |cids| ==> Decimal(k) in LinkMap(cids) && LinkMap(cids)[Decimal(k)] == cids[k]
    ensures |LinkMap(cids)| == |cids|
  {
    if cids != [] {
      LinkMapIs(Front(cids));
      NextName(Front(cids));
    }
  }

  lemma LinkMapSize(cids: seq<Cid>)
    ensures |LinkMap(cids)| == |cids|
  {
    LinkMapIs(cids);
  }

  lemma LinkMapAt(cids: seq<Cid>, k: nat)
    ensures Decimal(k) in LinkMap(cids) <==> k < |cids|
    ensures k < |cids| ==> LinkMap(cids)[Decimal(k)] == cids[k]
  {
    LinkMapIs(cids);
    if Decimal(k) in LinkMap(cids) {
      LinkMapNames(cids, Decimal(k));
      var j: nat :| j < |cids| && Decimal(k) == Decimal(j);
      DecimalInjective(k, j);
    }
  }

  lemma LinkMapValues(cids: seq<Cid>)
    ensures LinkMap(cids).Values == Elements(cids)
  {
    LinkMapIs(cids);
    forall c | c in LinkMap(cids).Values
      ensures c in Elements(cids)
    {
      var s :| s in LinkMap(cids) && LinkMap(cids)[s] == c;
      LinkMapNames(cids, s);
    }
    forall c | c in Elements(cids)
      ensures c in LinkMap(cids).Values
    {
      var k: nat :| k < |cids| && cids[k] == c;
      assert Decimal(k) in LinkMap(cids) && LinkMap(cids)[Decimal(k)] == c;
    }
  }

  /** The links of a node, in the order of their numbers. */
  ghost function Entries(m: Links): seq<Cid> {
    seq(|m|, k requires 0 <= k < |m| => if Decimal(k) in m then m[Decimal(k)] else Undef)
  }

  lemma EntriesOfLinkMap(cids: seq<Cid>)
    ensures Entries(LinkMap(cids)) == cids
  {
    LinkMapIs(cids);
  }

  // ----- the DAG -----

  ghost function LeafLinks(links: seq<Cid>, i: nat): seq<Cid>
    requires i * MAX_LINKS <= |links|
  {
    links[i * MAX_LINKS..Min((i + 1) * MAX_LINKS, |links|)]
  }

  ghost function Leaves(links: seq<Cid>, n: nat): (r: seq<Links>)
    requires n <= |links| / MAX_LINKS + 1
    ensures |r| == n && forall i :: 0 <= i < n ==> r[i] == LinkMap(LeafLinks(links, i))
  {
    seq(n, i requires 0 <= i < n => LinkMap(LeafLinks(links, i)))
  }

  ghost function Hashes(hash: Links -> Cid, nodes: seq<Links>): (r: seq<Cid>)
    ensures |r| == |nodes| && forall i :: 0 <= i < |nodes| ==> r[i] == hash(nodes[i])
  {
    seq(|nodes|, i requires 0 <= i < |nodes| => hash(nodes[i]))
  }

  /** One node up to `MAX_LINKS` links; above that a root that links to leaves. The root comes first. */
  ghost function DagNodes(hash: Links -> Cid, links: seq<Cid>): seq<Links> {
    if |links| <= MAX_LINKS then [LinkMap(links)]
    else
      var leaves := Leaves(links, |links| / MAX_LINKS + 1);
      [LinkMap(Hashes(hash, leaves))] + leaves
  }

  lemma LeavesSnoc(hash: Links -> Cid, links: seq<Cid>, n: nat)
    requires n <= |links| / MAX_LINKS
    ensures Leaves(links, n + 1) == Leaves(links, n) + [LinkMap(LeafLinks(links, n))]
    ensures Hashes(hash, Leaves(links, n + 1)) == Hashes(hash, Leaves(links, n)) + [hash(LinkMap(LeafLinks(links, n)))]
  {
  }

  method MakeDAG(hash: Links -> Cid, dagObj: Links, ghost links: seq<Cid>) returns (nodes: seq<Links>)
    requires dagObj == LinkMap(links)
    ensures nodes == DagNodes(hash, links)
  {
    LinkMapIs(links);
    if |dagObj| <= MAX_LINKS {
      return [dagObj];
    }
    var leafNodes: seq<Links>, indirectObj: Links := [], map[];
    var numFullLeaves := |dagObj| / MAX_LINKS;
    var i := 0;
    while i <= numFullLeaves
      invariant 0 <= i <= numFullLeaves + 1
      invariant leafNodes == Leaves(links, i) && indirectObj == LinkMap(Hashes(hash, leafNodes))
    {
      var leafObj := MakeLeaf(dagObj, links, i, numFullLeaves);
      LeavesSnoc(hash, links, i);
      LinkMapSnoc(Hashes(hash, leafNodes), hash(leafObj));
      indirectObj := indirectObj[Decimal(i) := hash(leafObj)];
      leafNodes := leafNodes + [leafObj];
      i := i + 1;
    }
    return [indirectObj] + leafNodes;
  }

  /** Fills one leaf, up to `MAX_LINKS` links or the last one. */
  method MakeLeaf(dagObj: Links, ghost links: seq<Cid>, i: nat, numFullLeaves: nat) returns (leafObj: Links)
    requires dagObj == LinkMap(links) && numFullLeaves == |links| / MAX_LINKS && i <= numFullLeaves
    ensures leafObj == LinkMap(LeafLinks(links, i))
  {
    leafObj := FillLeaf(dagObj, links, i * MAX_LINKS, i == numFullLeaves);
  }

  /** The links from number `first` on; only the last leaf may have fewer than `MAX_LINKS`. */
  method FillLeaf(dagObj: Links, ghost links: seq<Cid>, first: nat, last: bool) returns (leafObj: Links)
    requires dagObj == LinkMap(links) && first <= |links| && (!last ==> first + MAX_LINKS <= |links|)
    ensures leafObj == LinkMap(links[first..Min(first + MAX_LINKS, |links|)])
  {
    leafObj := map[];
    ghost var done: seq<Cid> := [];
    var j := 0;
    while j < MAX_LINKS
      invariant 0 <= j <= MAX_LINKS && first + j <= |links|
      invariant done == links[first..first + j] && leafObj == LinkMap(done)
    {
      LinkMapAt(links, first + j);
      var name := Decimal(first + j);
      if name !in dagObj {
        if !last {
          assert false;  // "bad state, should never be here"
        }
        break;
      }
      LinkMapSnoc(done, dagObj[name]);
      leafObj := leafObj[Decimal(j) := dagObj[name]];
      done := done + [links[first + j]];
      SliceSnoc(links, first, first + j);
      j := j + 1;
    }
  }

  lemma SliceSnoc<T>(s: seq<T>, i: int, j: int)
    requires 0 <= i <= j < |s|
    ensures s[i..j] + [s[j]] == s[i..j + 1]
  {
  }

  // ----- what the DAG keeps -----

  ghost function AllEntries(nodes: seq<Links>): (r: seq<seq<Cid>>)
    ensures |r| == |nodes| && forall i :: 0 <= i < |nodes| ==> r[i] == Entries(nodes[i])
  {
    seq(|nodes|, i requires 0 <= i < |nodes| => Entries(nodes[i]))
  }

  /** The links tracked by a DAG: those of its only node, or those of its leaves. */
  ghost function TrackedLinks(nodes: seq<Links>): seq<Cid>
    requires nodes != []
  {
    if |nodes| == 1 then Entries(nodes[0]) else Concat(AllEntries(nodes[1..]))
  }

  lemma {:induction false} ConcatLeaves(links: seq<Cid>, n: nat)
    requires n <= |links| / MAX_LINKS + 1
    ensures Concat(AllEntries(Leaves(links, n))) == links[..Min(n * MAX_LINKS, |links|)]
  {
    if n > 0 {
      ConcatLeaves(links, n - 1);
      EntriesSnoc(links, n - 1);
      SnocParts(AllEntries(Leaves(links, n - 1)), LeafLinks(links, n - 1));
      SplitAt(links, (n - 1) * MAX_LINKS, Min(n * MAX_LINKS, |links|));
    }
  }

  lemma EntriesSnoc(links: seq<Cid>, n: nat)
    requires n <= |links| / MAX_LINKS
    ensures AllEntries(Leaves(links, n + 1)) == AllEntries(Leaves(links, n)) + [LeafLinks(links, n)]
  {
    EntriesOfLinkMap(LeafLinks(links, n));
  }

  lemma SplitAt<T>(s: seq<T>, i: int, j: int)
    requires 0 <= i <= j <= |s|
    ensures s[..i] + s[i..j] == s[..j]
  {
  }


  /** No link is lost, added or moved, for any number of links. */
  lemma Lossless(hash: Links -> Cid, links: seq<Cid>)
    ensures TrackedLinks(DagNodes(hash, links)) == links
  {
    var nodes := DagNodes(hash, links);
    if |links| <= MAX_LINKS {
      EntriesOfLinkMap(links);
    } else {
      var n := |links| / MAX_LINKS + 1;
      ConcatLeaves(links, n);
      assert nodes[1..] == Leaves(links, n);
    }
  }

  /** Above `MAX_LINKS` links, link `k` is in leaf `k / MAX_LINKS` at slot `k % MAX_LINKS`. */
  lemma LinkPlace(hash: Links -> Cid, links: seq<Cid>, k: nat)
    requires |links| > MAX_LINKS && k < |links|
    ensures var leaf := DagNodes(hash, links)[k / MAX_LINKS + 1];
      Decimal(k % MAX_LINKS) in leaf && leaf[Decimal(k % MAX_LINKS)] == links[k]
  {
    LinkPlaceAt(hash, links, k / MAX_LINKS, k % MAX_LINKS);
  }

  lemma LinkPlaceAt(hash: Links -> Cid, links: seq<Cid>, i: nat, j: nat)
    requires |links| > MAX_LINKS && j < MAX_LINKS && i * MAX_LINKS + j < |links|
    ensures Decimal(j) in DagNodes(hash, links)[i + 1]
    ensures DagNodes(hash, links)[i + 1][Decimal(j)] == links[i * MAX_LINKS + j]
  {
    LeafNode(hash, links, i);
    LeafSlot(links, i, j);
  }

  lemma LeafNode(hash: Links -> Cid, links: seq<Cid>, i: nat)
    requires |links| > MAX_LINKS && i <= |links| / MAX_LINKS
    ensures |DagNodes(hash, links)| == |links| / MAX_LINKS + 2
    ensures DagNodes(hash, links)[i + 1] == LinkMap(LeafLinks(links, i))
  {
  }

  lemma RootNode(hash: Links -> Cid, links: seq<Cid>)
    requires |links| > MAX_LINKS
    ensures DagNodes(hash, links)[0] == LinkMap(Hashes(hash, Leaves(links, |links| / MAX_LINKS + 1)))
  {
  }

  lemma LeafSlot(links: seq<Cid>, i: nat, j: nat)
    requires j < MAX_LINKS && i * MAX_LINKS + j < |links|
    ensures Decimal(j) in LinkMap(LeafLinks(links, i))
    ensures LinkMap(LeafLinks(links, i))[Decimal(j)] == links[i * MAX_LINKS + j]
  {
    var part := LeafLinks(links, i);
    assert j < |part| && part[j] == links[i * MAX_LINKS + j];
    LinkMapAt(part, j);
  }

  /** And leaf `i` holds nothing but the links `k` with `k / MAX_LINKS == i`. */
  lemma NothingElse(hash: Links -> Cid, links: seq<Cid>, i: nat, s: string) returns (k: nat)
    requires |links| > MAX_LINKS && i <= |links| / MAX_LINKS && s in DagNodes(hash, links)[i + 1]
    ensures k < |links| && k / MAX_LINKS == i && s == Decimal(k % MAX_LINKS)
  {
    LeafNode(hash, links, i);
    var j := NameInLeaf(LeafLinks(links, i), s);
    k := i * MAX_LINKS + j;
    LeafLength(links, i);
    Quotient(i, j);
  }

  lemma NameInLeaf(part: seq<Cid>, s: string) returns (j: nat)
    requires s in LinkMap(part)
    ensures j < |part| && s == Decimal(j)
  {
    LinkMapNames(part, s);
    j :| j < |part| && s == Decimal(j);
  }

  lemma LeafLength(links: seq<Cid>, i: nat)
    requires i * MAX_LINKS <= |links|
    ensures |LeafLinks(links, i)| == Min(MAX_LINKS, |links| - i * MAX_LINKS)
  {
  }

  lemma Quotient(i: nat, j: nat)
    requires j < MAX_LINKS
    ensures (i * MAX_LINKS + j) / MAX_LINKS == i && (i * MAX_LINKS + j) % MAX_LINKS == j
  {
  }

  /** The first link of a leaf. */
  lemma LeafStart(links: seq<Cid>, i: nat)
    requires i <= |links| / MAX_LINKS && LeafLinks(links, i) != []
    ensures i * MAX_LINKS < |links| && LeafLinks(links, i)[0] == links[i * MAX_LINKS]
  {
  }

  /** Above `MAX_LINKS` links the root links to the leaves. */
  lemma RootLinks(hash: Links -> Cid, links: seq<Cid>, c: Cid) returns (i: nat)
    requires |links| > MAX_LINKS && c in DagNodes(hash, links)[0].Values
    ensures i <= |links| / MAX_LINKS && c == hash(LinkMap(LeafLinks(links, i)))
  {
    var leaves := Leaves(links, |links| / MAX_LINKS + 1);
    RootNode(hash, links);
    LinkMapValues(Hashes(hash, leaves));
    i :| i < |leaves| && Hashes(hash, leaves)[i] == c;
  }

  lemma NodeSizes(hash: Links -> Cid, links: seq<Cid>)
    requires |links| > MAX_LINKS
    ensures |DagNodes(hash, links)[0]| == |links| / MAX_LINKS + 1
    ensures forall i :: 0 < i < |DagNodes(hash, links)| ==> |DagNodes(hash, links)[i]| <= MAX_LINKS
  {
    RootNode(hash, links);
    LinkMapSize(Hashes(hash, Leaves(links, |links| / MAX_LINKS + 1)));
    LeafNode(hash, links, 0);
    forall i | 0 < i < |DagNodes(hash, links)|
      ensures |DagNodes(hash, links)[i]| <= MAX_LINKS
    {
      LeafSize(hash, links, i - 1);
    }
  }

  lemma LeafSize(hash: Links -> Cid, links: seq<Cid>, i: nat)
    requires |links| > MAX_LINKS && i <= |links| / MAX_LINKS
    ensures |DagNodes(hash, links)[i + 1]| == Min(MAX_LINKS, |links| - i * MAX_LINKS)
  {
    LeafNode(hash, links, i);
    LeafLength(links, i);
    LinkMapSize(LeafLinks(links, i));
  }

  ghost predicate NodesFit(nodes: seq<Links>) {
    forall i :: 0 <= i < |nodes| ==> |nodes[i]| <= MAX_LINKS
  }

  /** Every node fits in a block exactly when there are fewer than `MAX_LINKS` squared links. */
  lemma NodesFitIff(hash: Links -> Cid, links: seq<Cid>)
    ensures NodesFit(DagNodes(hash, links)) <==> |links| < MAX_LINKS * MAX_LINKS
  {
    if |links| <= MAX_LINKS {
      LinkMapSize(links);
    } else {
      NodeSizes(hash, links);
      LeafNode(hash, links, 0);
      Square(|links|);
    }
  }

  lemma Square(n: nat)
    ensures n / MAX_LINKS + 1 <= MAX_LINKS <==> n < MAX_LINKS * MAX_LINKS
  {
  }

  /** The last leaf is empty exactly when the number of links is a multiple of `MAX_LINKS`. */
  lemma TrailingLeaf(hash: Links -> Cid, links: seq<Cid>)
    requires |links| > MAX_LINKS
    ensures |Last(DagNodes(hash, links))| == |links| % MAX_LINKS
  {
    LeafNode(hash, links, 0);
    LeafSize(hash, links, |links| / MAX_LINKS);
    assert |links| - |links| / MAX_LINKS * MAX_LINKS == |links| % MAX_LINKS;
  }

  /** There are never more nodes than links plus one. */
  lemma NodeCount(hash: Links -> Cid, links: seq<Cid>)
    ensures |DagNodes(hash, links)| <= |links| + 1
    ensures |DagNodes(hash, links)| == if |links| <= MAX_LINKS then 1 else |links| / MAX_LINKS + 2
  {
  }
}

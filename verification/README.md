# Verification of the cluster's allocation, sharding and pinset logic

This project models the parts of the cluster that decide something: which peers
hold a CID, how an upload is cut into shards and tied together, how the shared
pinset changes, which peer acts on a CID, what survives storing a pin, who is
authorized, and how backups rotate. It proves what these promise, for all inputs
and for whole runs.

`dafny verify dfyconfig.toml` checks everything.

## Layout

| file | about |
|---|---|
| `Basics.dfy` | peers, metrics, sequences without repetition, the order of strings |
| `PartitionTree.dfy` | the balanced allocator's tree as a value; fairness and coverage of every run of choices |
| `Grouping.dfy` | grouping metrics into partitions, their order and weights, which peers are at the leaves |
| `Balanced.dfy`, `BalancedBuild.dfy` | the mutable tree itself: choosing from it and building it |
| `Allocation.dfy`, `AllocationTheorems.dfy`, `Regions.dfy` | filtering peers, dropping, keeping or adding allocations, what results, and an example |
| `Pins.dfy`, `Pinset.dfy`, `Cluster.dfy` | pins, the pinset as a state machine, and the operations that change it |
| `Election.dfy` | self-election by XOR distance |
| `ShardDag.dfy`, `ShardRoots.dfy` | the link DAG, when the CIDs of two DAGs differ, and reading a stored DAG back |
| `Packing.dfy`, `Sessions.dfy` | next-fit packing, and the pins of an upload as changes of the pinset |
| `Adder.dfy`, `Uploads.dfy` | the sharding adder on top of the cluster, and whole uploads with their unpinning |
| `Rbac.dfy`, `Backups.dfy`, `PinProto.dfy` | inherited permissions, backup rotation, and the stored form of a pin |

Objects that the program updates are classes: a tree node, a shard, the adder's
session, the cluster, the distance checker, the backup helper. The tree classes
carry a ghost `model` field, the value of the tree, to which the contracts and
the theorems refer. A Go map is visited in an arbitrary order (`AnyOrder`).

A peer is *healthy* when it is not black-listed, passes the trust settings and
has exactly one metric of every name the allocator is configured with
(`HealthyMeans`). The allocator's names are distinct and not empty, the monitor
gives at most one metric per peer and name, every metric carries its own name,
and no peer has the empty ID (`WellFormed`).

## Main results

- **Fairness.** At every node of the tree, after any number of choices, there is
  a round `r` such that partition `i` has given `r` peers, one more if the cursor
  has passed it, or all it has (`RunFair`). So any front part of an allocator's
  result is evenly spread at every node (`OrderFairness`), and so are the peers
  that an allocation adds, by their latest metrics (`EvenlyAllocated`): no
  partition gives two more than another that has peers left (`NearlyEqual`).
- **Coverage.** Choosing ends, and the result lists every peer that has all the
  metrics exactly once (`OrderPeers`).
- **Allocation.** It fails if and only if there are fewer than the minimum of
  healthy peers (`FailsIffTooFew`), prefers current peers and then those the user
  wants (`PriorityFirst`), and is idempotent (`Idempotent`).
- **Pinning.** For every pin it is known exactly when it is accepted
  (`AcceptedIff`, `UpdateAcceptedIff`) and what is stored, field by field
  (`AcceptedPin`, `UpdateCarriesOver`).
- **Pinset.** In every run from the empty pinset, every pin is as it is read back
  from its stored form (`RunReads`, `RoundTrip`), is sound unless its factors did
  not survive 32 bits (`RunInv`), and keeps its type unless it is the target of an
  update (`RunKeepsType`).
- **Vacating a peer.** After a whole pass every pin is off the peer with enough
  healthy peers, or stays for a reason that is spelled out (`VacatePeer`); it is
  known exactly when it stays (`RepinKeepsPeer`; `PassKeepsPeer` for pins made by
  an update).
- **Upload.** An upload that goes everywhere succeeds if every block fits and its
  CIDs are distinct and free, and then exactly its shards, its cluster DAG and its
  root were added to the pinset (`Upload`), each shard on the peers that its blocks
  were sent to (`ShardsHeld`).
- **Expiry.** A sync takes the pins that have expired, to the nanosecond, and that
  the peer is closest to, and nothing else but parts of these (`SyncUnpins`,
  `SyncKeeps`).
- **Upload and unpin.** If none of its CIDs was pinned before, a sharded upload
  followed by unpinning its root restores the pinset if and only if it has at most
  `MAX_LINKS` shards and no pin-update option (`UploadThenUnpin`).
- **Link DAG.** It loses, adds and moves no link, for any number of links
  (`Lossless`), and what an upload stores can be read back (`UploadReadable`).
- **Election.** Whatever the peers know of each other, some peer acts; with full
  knowledge exactly one does (`Coverage`, `Uniqueness`). The nearer of two is the
  one that agrees with the key at the first bit where they differ
  (`NearerDecided`).

## Where a promise does not hold

For each there is a theorem that says exactly when it holds.

- An allocation can contain black-listed or dead peers and exceed the maximum:
  when the number of healthy holders is within the limits, the old list is
  returned untouched (`StaleAllocation`, `CleanIff`, `BlacklistedGone`).
- Vacating a peer need not move a pin that was made by an update: such a pin takes
  the allocations of the pin it came from (`UpdateLeftBehind` is an input,
  `UpdateKeepsPeer` the condition for one pin and `PassKeepsPeer` that for a pass).
- The type check is skipped for the first pin of a CID, and storing drops an
  undefined reference that was accepted: a pin that is accepted passes the check
  if and only if what is stored of it passes by itself (`TypeCheckedIff`).
  `UncheckedFirstPin` is a family of inputs that fail, which the next unpin then
  refuses (`MetaUnpinsIff`).
- Factors are stored in 32 bits and need not be valid then: the pins stay sound if
  and only if no such factors are stored (`PinnedInvIff`, `RunInv`).
  `NarrowedFactors` is a family of inputs.
- The depth of a shard is always 1. The branch for depth 2 cannot be taken, so a
  shard that needs leaves is not pinned deep enough to cover its blocks
  (`ShardDepth`, `DepthCoversIff`).
- A link DAG whose number of links is a multiple of `MAX_LINKS` ends in an empty
  leaf (`TrailingLeaf`).
- Unpinning an upload of more than `MAX_LINKS` shards leaves all its shards pinned,
  and so does unpinning one with the pin-update option (`UnpinLeavesShards`,
  `UnpinLeavesUpdates`; the condition is in `UploadThenUnpin`).
- Unpinning an upload takes shards that another upload still needs: it keeps a set
  of pins if and only if that is disjoint from what the upload lists
  (`UnpinKeepsIff`, `UploadTwiceThenUnpin`). `SharedShardLost` is an input.
- The aggregated weight of a partition is the exact sum if and only if that fits in
  64 bits (`ExactAggregateIff`). `OverflowExample` is an input where it is not.
- A pin is recovered exactly from its stored form if and only if nothing in it is
  transient, fractional, too large or inconsistent (`ExactRoundTripIff`).
  `RoundTripLoses` is an input where it is not.

## Where the code and its comments disagree

The model follows the code.

- `auth/rbac.go:141` says that "pin.*" matches "pin"; it does not
  (`StarNeedsThePrefix`).
- `cluster.go:1691-1694` says that only nodes without other references are
  unpinned; the code unpins all that are listed (`UnpinKeepsIff`).
- `cluster.go:2190-2191` says that an unknown CID gives a list with that CID; the
  code returns an error.
- `adder/sharding/shard.go:70-71` says that `AddLink` checks the size and returns
  whether the block was added; it does neither.
- `cluster.go:1494-1530` presents the pin types as checked when pinning; that is
  so only for CIDs that are pinned already, and not for undefined references
  (`TypeCheckedIff`).

## Model

| member | source | states |
|---|---|---|
| PartitionTree.Exhausted | allocator/balanced/balanced.go:213-258 | nothing is left in a node exactly when nothing is left in any of its partitions |
| PartitionTree.StepPeers | allocator/balanced/balanced.go:213-258 | a choice gives away exactly one unused leaf peer and loses no peer |
| PartitionTree.RoundStep | allocator/balanced/balanced.go:225-255 | the round-robin at a node stays exact over one choice, wherever the cursor wraps or skips exhausted partitions |
| PartitionTree.StepFair | allocator/balanced/balanced.go:213-258 | one choice keeps the round-robin exact at every node of the tree |
| PartitionTree.RunFair | allocator/balanced/balanced.go:199-258 | after any number of choices from a fresh tree there is, at every node, a round r with partition i having given min(size, r or r + 1) peers |
| PartitionTree.RunPeers | allocator/balanced/balanced.go:199-211 | a run hands out each unused leaf peer at most once: handed out plus still unused is what was unused at the start |
| PartitionTree.RunParts | allocator/balanced/balanced.go:199-258 | what a run took out of a partition is exactly what that partition no longer has |
| PartitionTree.PrefixFairDeep | allocator/balanced/balanced.go:199-211 | any front part of a run is spread evenly at every node: over the partitions of the root and, below each, over its sub-partitions |
| PartitionTree.RunGave | allocator/balanced/balanced.go:199-258 | at every node, what a run took from below it is exactly what is no longer there |
| PartitionTree.NearlyEqual | allocator/balanced/balanced.go:199-211 | of evenly spread picks no partition has two more than another unless that one has given all its peers |
| PartitionTree.NeverTwiceInARow | allocator/balanced/balanced.go:199-200 | two picks in a row come from one partition only if every other partition was used up by the picks before |
| Grouping.SplitMembers | allocator/balanced/balanced.go:133-197 | grouping the partitionable metrics by value and keeping the others apart loses and repeats nothing |
| Grouping.GroupedFrom | allocator/balanced/balanced.go:133-197 | one partition per non-partitionable metric and one per value put every metric in exactly one partition |
| Grouping.LevelOrder | allocator/balanced/balanced.go:80-100 | at each level partitions are ordered by weight, then aggregated weight, descending, then value ascending by the first character that differs, and hold all metrics of the level |
| Basics.LessIffFirstDiffers | allocator/balanced/balanced.go:93 | a string is less exactly if it is a proper prefix or has the smaller character where the two first differ |
| Grouping.LeavesExactly | allocator/balanced/balanced.go:73-131 | the leaves hold exactly the peers that have a metric of every name |
| Grouping.LeavesOnce | allocator/balanced/balanced.go:73-131 | with one metric per peer and name, no peer is at two leaves or below two partitions |
| Grouping.LeavesApart | allocator/balanced/balanced.go:73-131 | at every node below too, no peer is below two partitions |
| Grouping.AggregateTotals | allocator/balanced/balanced.go:107-128 | every partition at every depth has as aggregated weight the 64-bit sum of its peers' weights over its own and all remaining metrics |
| Grouping.ExactAggregateIff | allocator/balanced/balanced.go:125-127 | the aggregated weight is the exact sum if and only if that fits in 64 bits |
| Grouping.OverflowExample | allocator/balanced/balanced.go:125-127 | two concrete metrics whose partition gets a negative aggregated weight |
| Balanced.Partition.constructor | allocator/balanced/balanced.go:164-173 | a new partition holds one unused peer and that metric's weight |
| Balanced.Partition.Join | allocator/balanced/balanced.go:177-180 | a metric that joins a partition adds its peer, unused, and its weight, in 64 bits |
| Balanced.Partition.Attach | allocator/balanced/balanced.go:122-127 | hanging sub-partitions below a partition adds their aggregated weights to its own, in 64 bits, and changes nothing else |
| Balanced.Partition.Choose | allocator/balanced/balanced.go:228-240 | gives an unused peer from below the partition and marks it, or none exactly when nothing is left, changing nothing |
| Balanced.PartitionedMetric.constructor | allocator/balanced/balanced.go:75-78 | a new node starts at its first partition |
| Balanced.PartitionedMetric.TryCurrent | allocator/balanced/balanced.go:225-244 | one turn of the search asks the partition at the cursor and moves the cursor on, with wrap-around |
| Balanced.PartitionedMetric.ChooseNext | allocator/balanced/balanced.go:213-258 | terminates; returns "" only when no unused peer is left below, leaving the tree as it was, and otherwise makes one step of the round-robin |
| Balanced.PartitionedMetric.SortedPeers | allocator/balanced/balanced.go:199-211 | returns all choices until nothing is left |
| BalancedBuild.Place | allocator/balanced/balanced.go:143-192 | one metric goes to a partition of its own, to that of its value, or to a new one for its value |
| BalancedBuild.PartitionValues | allocator/balanced/balanced.go:133-197 | the partitions of a list of metrics, in any order of the values, hold each metric exactly once |
| BalancedBuild.SortPartitions | allocator/balanced/balanced.go:80-104 | sorting by the comparison permutes the partitions into the order of the level |
| BalancedBuild.FilterSet | allocator/balanced/balanced.go:109-120 | keeps exactly the metrics of other names that belong to the partition's peers |
| BalancedBuild.BuildSub | allocator/balanced/balanced.go:109-128 | a partition gets sub-partitions for the remaining names of its own peers, and keeps its own group |
| BalancedBuild.PartitionMetrics | allocator/balanced/balanced.go:73-131 | builds, for any metrics and any number of names, a fresh tree partitioned by one name per level |
| BalancedBuild.Allocate | allocator/balanced/balanced.go:274-299 | gives a complete balanced order of the priority peers and one of the candidates |
| BalancedBuild.OrderPeers | allocator/balanced/balanced.go:274-299 | a balanced order lists every peer that has all the metrics, exactly once |
| BalancedBuild.OrderFairness | allocator/balanced/balanced.go:199-211 | any front part of a balanced order is spread evenly at every node: over the values of the first metric and, below each, of the next |
| Allocation.HealthyMeans | allocate.go:116-186 | the peers that take part are those not black-listed, passing the trust settings and with exactly one metric of each name |
| Allocation.Visit | allocate.go:132-152 | metrics are divided by peer: black-listed and distrusted peers are dropped, the others are current if they are in the current list, else priority if they are in that list, else candidates |
| Allocation.FillMetricsSet | allocate.go:154-172 | picks the peers with the full number of metrics and files their metrics by name |
| Allocation.CompletePeers | allocate.go:158-170 | counting a peer's metrics recognizes exactly the healthy peers |
| Allocation.FilterMetrics | allocate.go:116-186 | the three groups are exactly the healthy peers in the current list, those in the priority list only, and those in neither, each with exactly their latest metrics of each name |
| Allocation.GroupOrder | allocate.go:246-254 | the allocator returns exactly the peers of the group it is given |
| Allocation.ObtainAllocations | allocate.go:205-272 | drops down to the maximum, keeps, fails for want of healthy peers, or tops the holders up in balanced order; the allocator never returns too few |
| Allocation.AllocatePeers | allocate.go:50-114 | the whole decision by numbers of healthy holders and healthy peers, error and pin-everywhere cases included, and that added peers come in the order balanced by their latest metrics |
| AllocationTheorems.FailsIffTooFew | allocate.go:205-272 | with positive factors, allocation fails if and only if fewer than the minimum of healthy peers exist |
| AllocationTheorems.EnoughHealthy | allocate.go:59-272 | a successful allocation holds at least the minimum of healthy peers |
| AllocationTheorems.CleanIff | allocate.go:106-112 | the result is duplicate-free, healthy and within the maximum if and only if the old list is not returned or was so itself |
| AllocationTheorems.ExactSize | allocate.go:228-271 | with holders out of the limits the result has the size min(maximum, healthy peers), drops no holder unless there are too many, and then keeps only holders |
| AllocationTheorems.EvenlyAllocated | allocate.go:246-271 | an allocation that adds peers is the healthy current ones, then a part of those in the priority list, then a part of the rest, both parts spread evenly at every node of the trees built from their latest metrics |
| AllocationTheorems.PriorityFirst | allocate.go:126-152 | an allocation that adds peers has every healthy current peer, lists current peers before those with priority and these before others, and has others only if it has every healthy peer with priority |
| Regions.BothRegions | allocate.go:246-271 | of two peers in one region and one in another, any allocation of two takes the one alone in its region |
| AllocationTheorems.SameHealthy | allocate.go:126-152 | who is healthy does not depend on the current allocations, and the holders are the healthy ones among them |
| AllocationTheorems.Idempotent | allocate.go:50-114 | allocating again from the result returns the same list |
| AllocationTheorems.BlacklistedGone | allocate.go:106-112 | a black-listed peer remains exactly if it held the CID and the healthy holders are within the limits |
| AllocationTheorems.StaleAllocation | allocate.go:106-112 | a concrete allocation that keeps a black-listed peer and exceeds the maximum |
| Pins.SavedIsSaved | api/types.go:1082-1243 | what is read back is read back again unchanged, and a pin is stored unchanged exactly if nothing in it is transient, fractional, too large or inconsistent |
| Pins.Narrowed | api/types.go:1129-1152 | storing a number in 32 bits changes it by a multiple of 2^32, and not at all exactly if it fits |
| Pins.ModeByDepth | api/types.go:975-987 | a pin is read back as direct exactly if its depth is stored as 0, else as recursive |
| Pins.ModeSurvivesIff | api/types.go:1062-1066 | the mode of a pin made with options is read back exactly if it is recursive or direct |
| Pinset.SetupValid | cluster.go:1469-1568 | a pin that is set up has valid factors, no allocations if it goes everywhere, and the type of the existing pin |
| Pinset.AcceptedIff | cluster.go:1469-1648 | a pin that is no update is accepted if and only if: not a follower, a defined CID, default or given factors both -1 or 0 < min <= max, no expiry in the past, a CID pinned before keeps its type, is not made direct and passes the type check, and enough peers are healthy if peers must be found |
| Pinset.AcceptedPin | cluster.go:1576-1648 | every field of what is then stored: the factors with defaults filled in, the given peers, an allocation from the current holders and user allocations, or none for a pin that goes everywhere |
| Pinset.OptionsPinned | api/types.go:1049-1067 | pinning a CID with options stores a data pin without a reference, to the depth of its mode, on allocated peers or everywhere |
| Pinset.UpdateAcceptedIff | cluster.go:1593-1596 | an update is accepted if and only if: not a follower, a defined CID, and the CID it comes from is a data pin; else nothing changes |
| Pinset.AllocatedNonEmpty | cluster.go:1622-1645 | allocations come out empty exactly for pins that go everywhere |
| Pinset.PinnedReads | cluster.go:1576-1648 | pinning keeps every pin as it is read back, touches one CID, keeps its type unless it is an update, and changes nothing on error |
| Pinset.SavedSoundIff | api/types.go:1082-1155 | a pin with valid factors is sound once stored exactly if its factors are still valid in 32 bits |
| Pinset.PinnedInvIff | cluster.go:1576-1648 | pinning keeps the pinset sound if and only if it does not store factors that are invalid in 32 bits |
| Pinset.NarrowedFactors | api/types.go:1129-1140 | a family of accepted pins whose factors are stored as 0 |
| Pinset.PlainPins | cluster.go:1469-1648 | a well-formed pin that goes everywhere and never expires is accepted unless its CID is pinned with another type |
| Pinset.UpdateCarriesOver | cluster.go:1722-1744 | an update of a stored pin carries over allocations, factors, depth, mode, reference, metadata, origins and size, takes a name if one is given and an expiry if that is in the future, and changes only the target |
| Pinset.TypeCheckedIff | cluster.go:1549-1567 | a pin that is accepted passes the type check if and only if what is stored of it passes by itself; for a CID pinned before, exactly unless a cluster DAG or meta pin comes with an undefined reference |
| Pinset.UncheckedFirstPin | cluster.go:1549-1551 | a first meta pin without a reference is accepted although it fails the type check, and the next unpin fails |
| Pinset.MetaUnpinsIff | cluster.go:1656-1710 | unpinning a meta pin succeeds if and only if it refers to a pinned cluster DAG that is stored |
| Pinset.ReferenceUnpins | cluster.go:1576-1689 | pinning a meta pin again with a reference to a stored cluster DAG makes the next unpin succeed |
| Pinset.UnpinnedInv | cluster.go:1656-1710 | unpinning keeps the pinset sound, removes the CID and changes no remaining pin |
| ClusterOps.Cluster.SubmitPin | cluster.go:1576-1648 | follower, undefined CID, update, set-up error, meta, preset and allocating cases, each with the resulting pinset; and that plain pins succeed |
| ClusterOps.Cluster.BlockAllocate | rpc_api.go:342-391 | blocks go where the pin would be allocated, to everyone for pins that go everywhere, and to someone whenever the factor is positive |
| ClusterOps.Cluster.PinUpdate | cluster.go:1722-1744 | stores the existing data pin under the new CID, and nothing if there is none |
| ClusterOps.Cluster.CidsFromMetaPin | cluster.go:2187-2235 | succeeds exactly if pin, reference and block are there, and lists the linked CIDs, then the cluster DAG and, last, the pin itself |
| ClusterOps.Cluster.Unpin | cluster.go:1656-1710 | removes a data pin, or a meta pin with all it lists; refuses shards, cluster DAGs and unknown types |
| ClusterOps.UnpinTakes | cluster.go:1656-1710 | unpinning succeeds if and only if: not a follower, and a data pin or a meta pin whose cluster DAG is pinned and stored; it takes exactly the pin and the parts of a meta pin, and changes nothing else |
| ClusterOps.Cluster.StateSync | cluster.go:1208-1253 | removes exactly what unpinning some of the expired pins this peer is closest to removes, and leaves such a pin only if it cannot be unpinned or is a meta pin whose cluster DAG went with another |
| ClusterOps.SyncUnpins | cluster.go:1208-1253 | a sync at an instant unpins every data pin whose expiry, not 0, is before that instant and to whose CID this peer is closest, and every such meta pin unless its cluster DAG is gone |
| ClusterOps.SyncKeeps | cluster.go:1208-1253 | a sync changes no pin and takes only pins whose expiry, not 0, is before that instant and to which this peer is closest, and parts of such meta pins that are gone |
| ClusterOps.ExpiredIsUnpinned | cluster.go:1208-1253 | whatever the peers know of each other, some peer's sync unpins an expired data pin |
| ClusterOps.Cluster.VacatePeer | cluster.go:662-690 | keeps the set of pins and their types and, for each pin, gives the whole new pin: untouched if not on the peer; made again from its source, as seen in the order of the pass, if it is an update; else set up again and moved off with at least the minimum healthy, or with its old allocations because enough others hold it, or unchanged because too few are healthy or it is not accepted |
| ClusterOps.Cluster.RepinFromPeer | cluster.go:694-707 | the same for one pin, touching no other |
| ClusterOps.RepinVacates | cluster.go:694-707 | pinning again without allocations and with the peer black-listed does just that, field by field |
| ClusterOps.RepinKeepsFields | cluster.go:694-707 | of a sound pin that is no update only the allocations and the timestamp change |
| ClusterOps.RepinKeepsPeer | cluster.go:694-707 | a pin that is no update stays on the peer if and only if nothing is re-pinned, it is not accepted, or it needs allocations and too few peers are healthy or the healthy holders are within the limits |
| ClusterOps.UpdateKeepsPeer | cluster.go:1593-1596 | an update pin stays on the peer if and only if nothing is re-pinned, its source is no stored data pin, or its source holds the peer |
| ClusterOps.PassKeepsPeer | cluster.go:662-707 | after a pass an update pin is on the peer if and only if nothing is re-pinned, its source is no stored data pin, or its source still holds the peer or held it and was visited later |
| ClusterOps.UpdateLeftBehind | cluster.go:1593-1596 | a concrete pass that moves a data pin but leaves the pin made of it by an update on the peer |
| ClusterOps.StepReads | cluster.go:1469-1744 | every operation keeps all pins as they are read back and every type, but for the target of an update |
| ClusterOps.StepInvIff | cluster.go:1469-1744 | an operation keeps the pinset sound if and only if it stores no factors that are invalid in 32 bits |
| ClusterOps.RunReads | cluster.go:1469-1744 | in every run from the empty pinset every pin is keyed by its CID, is as it is read back, and is a data pin if an update made it |
| ClusterOps.RunInv | cluster.go:1469-1744 | in every run from the empty pinset all pins always have valid factors, no allocations if they go everywhere and some if they need them, if and only if no operation on the way stored factors that are invalid in 32 bits |
| ClusterOps.RunKeepsType | cluster.go:1549-1558 | while a CID stays pinned and is not the target of an update its type never changes |
| Election.DistanceChecker.ConvertPeerID | util.go:121-130 | the cached hash agrees with the plain one after any calls |
| Election.DistanceChecker.IsClosest | util.go:103-118 | true exactly if no known peer is strictly nearer |
| Election.XorBytes | util.go:137-143 | the XOR distance: a bit is set exactly if it is set in one of the two hashes |
| Election.XorBit | util.go:137-143 | the same for one byte |
| Election.GreaterIsGreater | util.go:113 | comparing two distances byte by byte compares them as big-endian numbers |
| Election.XorInjective | util.go:137-143 | peers with different hashes are at different distances from a key |
| Election.NearerByFirstBit | util.go:103-118 | of two peers the nearer is the one whose hash agrees with that of the key at the first bit where their hashes differ |
| Election.NearerDecided | util.go:103-118 | so a peer is no farther than another exactly if the hashes are equal or it agrees with the key there |
| Election.OwnKey | util.go:103-118 | a peer whose hash is that of the key always acts, and no peer with another hash that knows it does |
| Election.Coverage | util.go:103-118 | however incomplete the views, a globally nearest peer answers that it is closest |
| Election.ActsIffNearest | util.go:103-118 | a peer acts exactly if it is nearest among itself and those it knows |
| Election.Uniqueness | util.go:103-118 | with complete views and distinct hashes exactly one peer acts |
| ShardDag.ParseDecimal | adder/sharding/shard.go:73-74 | the decimal name of a link gives back its number |
| ShardDag.LinkMapAt | adder/sharding/shard.go:72-79 | the links are named by consecutive numbers, in the order they were added |
| ShardDag.MakeDAG | adder/sharding/dag.go:73-111 | builds one node up to the maximum of links, else a root and one leaf per full or partial group; the missing-link panic cannot occur |
| ShardDag.MakeLeaf | adder/sharding/dag.go:87-97 | a leaf holds the next links, up to the maximum or the last one |
| ShardDag.FillLeaf | adder/sharding/dag.go:88-97 | the loop that fills a leaf takes consecutive links from a given number on |
| ShardDag.Lossless | adder/sharding/dag.go:73-111 | reading the DAG back gives exactly the links, in order, for any number of them |
| ShardDag.LinkPlace | adder/sharding/dag.go:85-107 | link k is in leaf k / MaxLinks at slot k % MaxLinks |
| ShardDag.NothingElse | adder/sharding/dag.go:85-107 | a leaf holds nothing else |
| ShardDag.NodesFitIff | adder/sharding/dag.go:30-31 | no node exceeds the maximum of links if and only if there are fewer than its square |
| ShardDag.TrailingLeaf | adder/sharding/dag.go:85-97 | the last leaf has n % MaxLinks links, so none for exact multiples |
| ShardDag.NodeCount | adder/sharding/dag.go:73-111 | how many nodes there are; never more than links plus one |
| Packing.PackKeepsAll | adder/sharding/dag_service.go:202-249 | the shards in order hold exactly the blocks in order, and weigh as much |
| Packing.DedupIs | adder/sharding/dag_service.go:71-78 | every added CID is kept exactly once |
| Packing.FirstOccurrence | adder/sharding/dag_service.go:71-78 | distinct blocks are in the order of their first occurrence |
| Packing.OneShard | adder/sharding/dag_service.go:202-249 | no CID is in two shards |
| Packing.PackFits | adder/sharding/dag_service.go:219-249 | every shard is below its limit and not empty, and was closed only because the next block did not fit |
| Packing.NextFitBound | adder/sharding/dag_service.go:202-249 | m shards weigh at least floor(m / 2) times the limit |
| Packing.UploadShards | adder/sharding/dag_service.go:71-249 | all of this for the shards of an upload |
| Packing.ClosedShard | adder/sharding/dag_service.go:219-249 | a shard closed while the first blocks are added is, unchanged, one of the shards of the whole upload |
| Adder.Shard.AddLink | adder/sharding/shard.go:72-79 | adds the block after the others and its size to the total |
| Adder.Shard.LastLink | adder/sharding/shard.go:174-178 | the CID added last |
| Adder.DAGService.constructor | adder/sharding/dag_service.go:55-67 | an empty session in recursive mode |
| Adder.DAGService.NewShard | adder/sharding/shard.go:37-68 | an empty shard with the limit of the session and the peers that blocks are allocated to, some if the factors are positive, or an error exactly if that fails |
| Adder.SentByMeans | rpc_api.go:342-391 | the blocks of a shard go to an allocation by the factors, defaults filled in, and the user allocations, or to everyone that pings |
| Adder.DAGService.PutDag | adder/sharding/shard.go:109-137 | stores every node of a link DAG, loses no node and gives the CID of the root |
| Adder.DAGService.PinShard | adder/sharding/shard.go:138-157 | pins the root of a shard on the peers that its blocks were sent to, or everywhere, with its name, size, depth 1 and the reference to the previous shard; succeeds for plain options unless that CID is pinned with another type |
| Adder.DAGService.Flush | adder/sharding/shard.go:109-158 | stores the shard's DAG and pins its root on the peers that its blocks were sent to, or everywhere, changing nothing else; succeeds for plain options if its root is free |
| Adder.DAGService.FlushCurrentShard | adder/sharding/dag_service.go:289-313 | records the flushed shard, its root, size and place in the chain and returns the CID added last; on error changes nothing of the session |
| Adder.DAGService.IngestBlock | adder/sharding/dag_service.go:202-249 | the block goes to the shard being built if the size stays below the limit and otherwise starts the next; at most one retry |
| Adder.DAGService.Add | adder/sharding/dag_service.go:71-78 | a repeated CID changes nothing; a new one is packed next-fit |
| Adder.DAGService.AddMany | adder/sharding/dag_service.go:316-324 | a whole upload without error lays out the distinct blocks next-fit, and pins shards chained to each other; with plain options it succeeds if all blocks fit and no root is pinned with another type |
| Adder.DAGService.Finalize | adder/sharding/dag_service.go:91-188 | on success exactly the shards, the cluster DAG and the meta pin were added to the pinset, every field of their entries is known, and all their nodes are stored; it succeeds for plain options if these CIDs differ and are free |
| Adder.DAGService.PinBoth | adder/sharding/dag_service.go:141-164 | pins the cluster DAG everywhere and the data root with the factors of the upload, which completes it |
| Sessions.ShardDepth | adder/sharding/shard.go:144-148 | a shard is pinned to depth 1 for every number of links |
| Sessions.PinLeaves | adder/util.go:134-148 | a successful pin of the adder changes one entry, keeps all types and stores what was asked, without an undefined reference and in 32 bits |
| Sessions.FlushStores | adder/sharding/shard.go:138-157 | every field of the entry that flushing a shard leaves |
| Sessions.TopStored | adder/sharding/dag_service.go:141-164 | every field of the entries of the cluster DAG and the data root |
| Sessions.FinishedSoundly | adder/sharding/dag_service.go:91-188 | pinning both after the shards completes the upload and leaves the entries of the shards as they were |
| Sessions.FlushedIntegrity | adder/sharding/dag_service.go:289-313 | flushing one more shard adds exactly that shard to the pinset, chained to the one before, and to the stored nodes |
| Sessions.TieTogether | adder/sharding/dag_service.go:141-164 | pinning the cluster DAG and the data root completes the upload, and no CID can serve twice in it |
| Sessions.UnpinRestores | cluster.go:1656-1710 | unpinning the data root removes exactly what the upload pinned |
| Sessions.UnpinLeavesShards | cluster.go:2226-2232 | after an upload of more than MaxLinks shards, unpinning leaves every shard pinned |
| Sessions.UnpinLeavesUpdates | cluster.go:1593-1596 | after an upload with the pin-update option, unpinning leaves every shard pinned |
| Sessions.UnpinKeepsIff | cluster.go:1691-1710 | unpinning an upload keeps a set of pins if and only if none is its root, its cluster DAG or linked from that |
| ShardRoots.RootInjective | adder/sharding/shard.go:109-112 | shards with different links have different roots, with or without leaves |
| ShardRoots.DistinctRoots | adder/sharding/dag_service.go:289-304 | all shards of an upload have different CIDs |
| ShardRoots.LeafIsNoRoot | adder/sharding/dag_service.go:100-103 | no leaf of the cluster DAG has the CID of a shard |
| ShardRoots.DepthCoversIff | adder/sharding/shard.go:144-148 | depth 1 covers a shard's blocks if and only if it has no more links than a node holds |
| ShardRoots.ReadBack | adder/sharding/shard.go:109-137 | reading a stored DAG from its root gives exactly the shard's blocks, in order, with or without leaves |
| ShardRoots.UploadReadable | adder/sharding/shard.go:109-137 | after an upload to a store whose nodes are under their own CIDs every shard can be read back |
| Uploads.Upload | adder/sharding/dag_service.go:71-188 | a whole upload, from the first block to the meta pin, for any number of shards: what it adds to the pinset field by field, each shard on the peers its blocks were sent to; with the pin-update option what is pinned; an upload that goes everywhere succeeds if every block fits, its CIDs are distinct and none is pinned with another type |
| Uploads.ShardsHeld | adder/sharding/shard.go:37-157 | with positive factors every shard is pinned on the peers of an allocation made when one of the blocks was added |
| Uploads.UploadThenUnpin | adder/sharding/dag_service.go:71-188 | if none of its CIDs was pinned before, an upload followed by unpinning its root restores the pinset if and only if it has at most MaxLinks shards and no pin-update option |
| Uploads.UploadTwiceThenUnpin | cluster.go:1691-1710 | of two uploads, unpinning the first leaves of the second exactly what the first does not have |
| Uploads.UploadBoth | adder/sharding/dag_service.go:71-188 | the two uploads of that example succeed from the empty pinset |
| Uploads.SharedShardLost | cluster.go:1691-1710 | two concrete uploads share a shard: both succeed from the empty pinset, and unpinning the first takes that shard from the second, which stays pinned |
| Rbac.PatternMeans | auth/rbac.go:130-148 | a pattern matches what it equals and, ending in a star, whatever starts with the rest |
| Rbac.StarNeedsThePrefix | auth/rbac.go:141-145 | "pin.*" does not match "pin" |
| Rbac.ActionMatches | auth/rbac.go:151-173 | some action pattern matches |
| Rbac.ContextMatches | auth/rbac.go:176-200 | every wanted key is given, with the wanted value or a star |
| Rbac.Matches | auth/rbac.go:110-127 | resource, action and context all match |
| Rbac.ClosedReaches | auth/rbac.go:83-107 | what is closed under inheritance contains everything reachable from its members |
| Rbac.VisitedIsReachable | auth/rbac.go:83-107 | a collection visits exactly the roles reachable through inheritance |
| Rbac.RBACAuthorizer.CollectRolePermissions | auth/rbac.go:83-107 | terminates on every role graph, cyclic or not, and keeps the permissions equal to those of the visited roles |
| Rbac.RBACAuthorizer.CollectAll | auth/rbac.go:66-71 | collects exactly the existing permissions of the reachable roles |
| Rbac.RBACAuthorizer.GetPermissions | auth/rbac.go:62-80 | returns exactly the existing permissions of all roles reachable from the principal's |
| Rbac.RBACAuthorizer.Authorize | auth/rbac.go:39-59 | grants if and only if there is a principal and some reachable permission matches |
| Backups.DataBackupHelper.ListBackups | consensus/raft/data_helper.go:32-42 | lists the backups from 0 up to the first gap or the number to keep |
| Backups.DataBackupHelper.Rename | consensus/raft/data_helper.go:72 | moves a backup to a number that is free at that moment |
| Backups.DataBackupHelper.MoveUp | consensus/raft/data_helper.go:67-76 | moves the listed backups up by one, oldest first, never onto an existing one |
| Backups.DataBackupHelper.MakeBackup | consensus/raft/data_helper.go:44-80 | does nothing without a folder; else the folder becomes number 0 and the contiguous ones move up by one |
| Backups.HistoryIs | consensus/raft/data_helper.go:44-80 | after any number of backups from none, number i is the (i+1)-th most recent, for all kept ones and no others |
| Backups.OnlyOldestLost | consensus/raft/data_helper.go:58-79 | from any numbering, gaps included, only the oldest of a full series is lost |
| PinProto.ConvertPinType | api/types.go:1069-1079 | the number of the highest set bit |
| PinProto.HighestBit | api/types.go:1069-1079 | what comes back of a type is its highest bit |
| PinProto.TypeSurvivesIff | api/types.go:1069-1079 | a type comes back if and only if it is a single bit |
| PinProto.TimeRoundTrip | api/types.go:1099-1109 | times come back without fractions of a second; the first second of 1970 comes back as unset |
| PinProto.SortMetadata | api/types.go:1111-1127 | metadata is listed sorted by key, each entry once, whatever the order of the map |
| PinProto.SortedMetadataUnique | api/types.go:1111-1127 | equal metadata always gives the same list |
| PinProto.MetadataRoundTrip | api/types.go:1211-1220 | reading the list gives back the metadata |
| PinProto.ProtoMarshal | api/types.go:1082-1155 | what each field of the record holds |
| PinProto.ProtoUnmarshal | api/types.go:1158-1243 | reads the record into a fresh pin, the old metadata map first, drops CIDs that cannot be read and gives up on a peer or origin that cannot |
| PinProto.RoundTrip | api/types.go:1082-1243 | storing and reading gives exactly what the pinset keeps of a pin: no user allocations, undefined references or fractions of seconds, the highest bit of the type, numbers in 32 bits and the mode of the depth |
| PinProto.MarshalDeterministic | api/types.go:1082-1155 | a pin has exactly one record |
| PinProto.ExactRoundTripIff | api/types.go:1082-1243 | the pin comes back unchanged if and only if nothing in it is transient, fractional, too large or inconsistent |
| PinProto.RoundTripLoses | api/types.go:1082-1243 | a concrete pin that comes back without its user allocations, its mode, its undefined reference and parts of its times |

## Left out

- ClusterOps.Cluster.SubmitPin: the several readings of the clock in one call are one value, and committing to the consensus layer always succeeds.
- Adder.Shard.AddLink: sizes are unbounded; a 64-bit overflow would need a size limit or a block of at least 2^63 bytes.
- BalancedBuild.SortPartitions: the library sort is modelled by an insertion sort of which only the contract is used; the order of equal partitions is one of the possible ones.
- Rbac.RBACAuthorizer.CollectRolePermissions: the two maps that the program passes by reference are passed in and returned as values.
- Which bytes form a proper CID, peer ID or multiaddress: an arbitrary parameter, and the pinset holds only pins whose own bytes are proper and whose times fit in 64 bits of seconds (`Encodable`).
- The consensus layer, IPFS, RPC and block streaming: the pinset and the stored nodes are maps, calls to the own peer are direct calls, and sends succeed.
- The listing of the state while it changes: a pass works on the pinset as it was at its start.
- The hash functions and the CBOR and protobuf encodings: hashes are arbitrary functions, injective and apart from the CIDs of blocks only where a theorem says so.
- The times before the year 1 and the zero time as an instant: the zero time is a value of its own, earlier than all others.
- The list of trusted peers, alerts and the loops that trigger re-pinning and syncing: they only call what is modelled.
- Adding and removing roles and permissions: plain updates of two maps.
- Billing, authenticators, equality of pin options, tracker status strings, the peer store manager, configuration files, HTTP APIs and the command line.

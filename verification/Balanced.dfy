/**
 The balanced allocator: the mutable tree of partitions and the walk that turns it
 into a list of peers.
 */
module Balanced {
  import opened Basics
  import opened PartitionTree
  import opened Grouping

  /** The position `d` places after the cursor. */
  ghost function Ahead(t: Tree, d: nat): int {
    if t.cursor + d < |t.parts| then t.cursor + d else t.cursor + d - |t.parts|
  }

  /** The first `d` partitions from the cursor on have nothing left. */
  ghost predicate Skipped(t: Tree, d: nat) {
    forall i :: 0 <= i < |t.parts| && (t.cursor <= i < t.cursor + d || i + |t.parts| < t.cursor + d) ==>
      !Live(t.parts[i])
  }

  lemma PickedAfter(t: Tree, d: nat, k: int, x: PeerID, t': Tree)
    requires 0 <= t.cursor < |t.parts| && d < |t.parts| && Skipped(t, d) && k == Ahead(t, d)
    requires t'.name == t.name && t'.cursor == Next(k, |t.parts|) && |t'.parts| == |t.parts|
    requires t'.parts == t.parts[k := t'.parts[k]] && PartStep(t.parts[k], x, t'.parts[k])
    ensures Step(t, x, t')
  {
    PartStepPeers(t.parts[k], x, t'.parts[k]);
    assert PickedAt(t, k, x, t');
  }

  lemma AllSkipped(t: Tree)
    requires 0 <= t.cursor < |t.parts| && Skipped(t, |t.parts|)
    ensures Peers(t, true) == multiset{}
  {
    Exhausted(t);
  }

  class Partition {
    var value: string
    var weight: Int64
    var aggregatedWeight: Int64
    var peers: map<PeerID, bool>  // whether the peer was picked already
    var sub: PartitionedMetric?
    ghost var model: Part
    ghost var Repr: set<object>

    ghost predicate Valid()
      reads this, Repr
      ensures Valid() ==> this in Repr
      decreases Repr
    {
      && this in Repr
      && "" !in peers
      && model == Part(value, weight, aggregatedWeight, peers, model.members, model.sub)
      && (sub == null ==> model.sub == None)
      && (sub != null ==>
            && sub in Repr && sub.Repr <= Repr && this !in sub.Repr
            && sub.Valid() && model.sub == Some(sub.model))
    }

    constructor (m: Metric)
      requires m.peer != ""
      ensures fresh(this) && IsGroup([m])
    {
      value, weight, aggregatedWeight := m.value, m.weight, m.weight;
      peers := map[m.peer := false];
      sub := null;
      model := Part(m.value, m.weight, m.weight, map[m.peer := false], [m], None);
      Repr := {this};
      new;
      assert Front([m]) == [];
    }

    /** A partition without sub-partitions that groups the metrics `ms`. */
    ghost predicate IsGroup(ms: seq<Metric>)
      reads this
    {
      && ms != []
      && sub == null && Repr == {this}
      && value == ms[0].value
      && weight == aggregatedWeight == GroupWeight(ms)
      && "" !in peers && peers.Keys == PeersOf(ms) && (forall x :: x in peers ==> !peers[x])
      && model == Part(value, weight, aggregatedWeight, peers, ms, None)
    }

    /** Puts one more metric in the group. */
    method Join(m: Metric, ghost ms: seq<Metric>)
      requires IsGroup(ms) && m.peer != ""
      modifies this
      ensures IsGroup(ms + [m])
    {
      peers := peers[m.peer := false];
      weight := Add64(weight, m.weight);
      aggregatedWeight := Add64(aggregatedWeight, m.weight);
      model := Part(value, weight, aggregatedWeight, peers, ms + [m], None);
      assert Front(ms + [m]) == ms;
    }

    /** Hangs the sub-partitions below this partition and adds up their aggregated weights. */
    method Attach(t: PartitionedMetric, ghost ms: seq<Metric>)
      requires IsGroup(ms) && t.Valid() && this !in t.Repr
      modifies this
      ensures Valid() && Repr == {this} + t.Repr
      ensures model == old(model).(
                sub := Some(t.model), aggregate := AddAggregates(old(model.aggregate), t.model.parts))
    {
      sub := t;
      var i := 0;
      while i < |t.partitions|
        invariant 0 <= i <= |t.partitions|
        invariant t.Valid() && t.Repr == old(t.Repr) && t.model == old(t.model) && unchanged(t)
        invariant value == old(value) && weight == old(weight) && peers == old(peers) && sub == t
        invariant aggregatedWeight == AddAggregates(old(aggregatedWeight), t.model.parts[..i])
        invariant model == old(model) && Repr == old(Repr)
      {
        aggregatedWeight := Add64(aggregatedWeight, t.partitions[i].aggregatedWeight);
        assert Front(t.model.parts[..i + 1]) == t.model.parts[..i];
        i := i + 1;
      }
      assert t.model.parts[..i] == t.model.parts;
      model := model.(sub := Some(t.model), aggregate := aggregatedWeight);
      Repr := {this} + t.Repr;
    }

    /** Picks a peer from the sub-partitions or, at the bottom, any unused peer. */
    method Choose() returns (peer: PeerID)
      requires Valid()
      modifies Repr
      ensures Valid() && Repr == old(Repr)
      ensures peer == "" ==> model == old(model) && !Live(model)
      ensures peer != "" ==> PartStep(old(model), peer, model)
      decreases Repr
    {
      peer := "";
      if sub != null {
        peer := sub.ChooseNext();
        model := model.(sub := Some(sub.model));
      } else {
        var rest := peers.Keys;
        while rest != {}
          invariant peer == "" && rest <= peers.Keys
          invariant forall x :: x in peers && x !in rest ==> peers[x]
        {
          var pid :| pid in rest;
          rest := rest - {pid};
          if !peers[pid] {
            peer := pid;
            peers := peers[pid := true];  // mark as used
            model := model.(peers := peers);
            return;
          }
        }
        assert Keys(peers, true) == {};
      }
    }
  }

  class PartitionedMetric {
    var metricName: string
    var curChoosingIndex: nat
    var noMore: bool
    var partitions: seq<Partition>
    ghost var model: Tree
    ghost var Repr: set<object>

    ghost predicate Valid()
      reads this, Repr
      ensures Valid() ==> this in Repr
      decreases Repr
    {
      && this in Repr
      && model.name == metricName && model.cursor == curChoosingIndex
      && |model.parts| == |partitions|
      && (partitions != [] ==> curChoosingIndex < |partitions|)
      && (forall i :: 0 <= i < |partitions| ==>
            && partitions[i] in Repr && partitions[i].Repr <= Repr && this !in partitions[i].Repr
            && partitions[i].Valid() && model.parts[i] == partitions[i].model)
      && (forall i, j :: 0 <= i < j < |partitions| ==> partitions[i].Repr !! partitions[j].Repr)
      && (noMore ==> Peers(model, true) == multiset{})
    }

    constructor (name: string, ps: seq<Partition>, ghost owned: set<object>)
      requires forall i :: 0 <= i < |ps| ==> ps[i] in owned && ps[i].Repr <= owned && ps[i].Valid()
      requires forall i, j :: 0 <= i < j < |ps| ==> ps[i].Repr !! ps[j].Repr
      ensures Valid() && Repr == {this} + owned
      ensures model.name == name && model.cursor == 0 && |model.parts| == |ps|
      ensures forall i :: 0 <= i < |ps| ==> model.parts[i] == old(ps[i].model)
    {
      metricName, curChoosingIndex, noMore, partitions := name, 0, false, ps;
      model := Tree(name, 0, seq(|ps|, i requires 0 <= i < |ps| reads ps => ps[i].model));
      Repr := {this} + owned;
    }

    /** One turn of the search: ask the partition at the cursor, then move the cursor. */
    method TryCurrent() returns (peer: PeerID)
      requires Valid() && partitions != [] && !noMore
      modifies Repr
      ensures Valid() && Repr == old(Repr) && partitions == old(partitions) && !noMore
      ensures model.cursor == Next(old(model.cursor), |partitions|)
      ensures model.name == old(model.name)
      ensures peer == "" ==> model.parts == old(model.parts) && !Live(model.parts[old(model.cursor)])
      ensures peer != "" ==>
        && model.parts == old(model.parts)[old(model.cursor) := model.parts[old(model.cursor)]]
        && PartStep(old(model.parts)[old(model.cursor)], peer, model.parts[old(model.cursor)])
      decreases Repr, 0
    {
      var k := curChoosingIndex;
      peer := partitions[k].Choose();
      curChoosingIndex := Next(k, |partitions|);
      model := model.(cursor := curChoosingIndex, parts := model.parts[k := partitions[k].model]);
    }

    /** Remembers that nothing is left. */
    method GiveUp()
      requires Valid() && Peers(model, true) == multiset{}
      modifies this
      ensures Valid() && Repr == old(Repr) && model == old(model)
    {
      noMore := true;
    }

    /** The next peer in round-robin order over the partitions, or "" when none is left. */
    method ChooseNext() returns (peer: PeerID)
      requires Valid()
      modifies Repr
      ensures Valid() && Repr == old(Repr)
      ensures peer == "" ==> model == old(model) && Peers(model, true) == multiset{}
      ensures peer != "" ==> Step(old(model), peer, model)
      decreases Repr, 1
    {
      var lenp := |partitions|;
      if lenp == 0 || noMore {
        return "";
      }
      var done := 0;
      while true
        invariant Valid() && Repr == old(Repr) && !noMore && |partitions| == lenp
        invariant 0 <= done < lenp
        invariant model.name == old(model.name) && model.parts == old(model.parts)
        invariant curChoosingIndex == Ahead(old(model), done) && Skipped(old(model), done)
        decreases lenp - done
      {
        ghost var k := curChoosingIndex;
        peer := TryCurrent();
        done := done + 1;
        assert curChoosingIndex == Ahead(old(model), done);
        if peer != "" {
          PickedAfter(old(model), done - 1, k, peer, model);
          return;
        }
        assert Skipped(old(model), done);
        if done == lenp {
          AllSkipped(old(model));
          GiveUp();
          return;
        }
      }
    }

    /** All remaining peers, in the order in which they are chosen. */
    method SortedPeers() returns (ps: seq<PeerID>)
      requires Valid()
      modifies Repr
      ensures Valid() && Repr == old(Repr)
      ensures Run(old(model), ps, model) && Peers(model, true) == multiset{}
    {
      ps := [];
      while true
        invariant Valid() && Repr == old(Repr) && Run(old(model), ps, model)
        decreases |Peers(model, true)|
      {
        ghost var before := model;
        var peer := ChooseNext();
        if peer == "" {
          return;
        }
        StepPeers(before, peer, model);
        ps := ps + [peer];
        assert Front(ps) + [Last(ps)] == ps;
      }
    }
  }
}

/** Rotation of the backups of a data folder: `folder.old.0` is the most recent one. */
module Backups {
  import opened Basics

  /** The contents of a folder. */
  type Data = string

  /** How many backups are numbered from 0 without a gap, up to `keep`. */
  ghost function Contiguous(olds: map<nat, Data>, keep: nat): (n: nat)
    ensures n <= keep && (forall i :: 0 <= i < n ==> i in olds) && (n < keep ==> n !in olds)
  {
    ContiguousFrom(olds, keep, 0)
  }

  ghost function ContiguousFrom(olds: map<nat, Data>, keep: nat, i: nat): (n: nat)
    requires i <= keep
    ensures i <= n <= keep && (forall j :: i <= j < n ==> j in olds) && (n < keep ==> n !in olds)
    decreases keep - i
  {
    if i < keep && i in olds then ContiguousFrom(olds, keep, i + 1) else i
  }

  /** How many backups survive in front of the new one: all contiguous ones, or all but the oldest. */
  ghost function Kept(olds: map<nat, Data>, keep: nat): nat
    requires keep >= 1
  {
    if Contiguous(olds, keep) >= keep then keep - 1 else Contiguous(olds, keep)
  }

  ghost function UpTo(m: nat): (r: set<nat>)
    ensures forall k: nat :: k in r <==> k <= m
  {
    if m == 0 then {0} else UpTo(m - 1) + {m}
  }

  /** Backups 0 to `m - 1` move up by one and `data` takes the first place; what lies beyond stays. */
  ghost function Rotate(olds: map<nat, Data>, keep: nat, data: Data): map<nat, Data>
    requires keep >= 1
  {
    var m := Kept(olds, keep);
    map i: nat | i in olds.Keys + UpTo(m) :: if i == 0 then data else if i <= m then olds[i - 1] else olds[i]
  }

  /** The backups when number `i` is free and those above it, up to `m`, have moved. */
  ghost function Shifted(olds: map<nat, Data>, i: nat, m: nat): map<nat, Data>
    requires i <= m && forall j :: 0 <= j < m ==> j in olds
  {
    map j: nat | j in olds.Keys + UpTo(m) && j != i :: if i < j <= m then olds[j - 1] else olds[j]
  }

  lemma MakeRoom(olds: map<nat, Data>, keep: nat)
    requires keep >= 1
    ensures var m := Kept(olds, keep);
      Shifted(olds, m, m) == if Contiguous(olds, keep) >= keep then olds - {m} else olds
  {
  }

  lemma ShiftedThenSaved(olds: map<nat, Data>, keep: nat, data: Data)
    requires keep >= 1
    ensures Shifted(olds, 0, Kept(olds, keep))[0 := data] == Rotate(olds, keep, data)
  {
  }

  class DataBackupHelper {
    const keep: nat
    var folder: Option<Data>
    var olds: map<nat, Data>

    constructor (keep: nat)
      ensures this.keep == keep && folder == None && olds == map[]
    {
      this.keep, folder, olds := keep, None, map[];
    }

    /** The numbers of the existing backups, up to the first gap. */
    method ListBackups() returns (backups: seq<nat>)
      ensures |backups| == Contiguous(olds, keep) && forall i :: 0 <= i < |backups| ==> backups[i] == i
    {
      backups := [];
      var i := 0;
      while i < keep
        invariant 0 <= i <= keep && |backups| == i && (forall j :: 0 <= j < i ==> backups[j] == j)
        invariant Contiguous(olds, keep) == ContiguousFrom(olds, keep, i)
      {
        if i !in olds {
          return;
        }
        backups := backups + [i];
        i := i + 1;
      }
    }

    /** `os.Rename` between two backups; the target must not exist. */
    method Rename(from: nat, to: nat)
      requires from in olds && to !in olds
      modifies this`olds
      ensures olds == (old(olds) - {from})[to := old(olds)[from]]
    {
      olds := (olds - {from})[to := olds[from]];
    }

    /** Makes the folder the most recent backup. */
    method MakeBackup()
      requires keep >= 1
      modifies this
      ensures old(folder).None? ==> olds == old(olds) && folder == None
      ensures old(folder).Some? ==> olds == Rotate(old(olds), keep, old(folder).value) && folder == None
    {
      if folder.None? {
        return;
      }
      var backups := ListBackups();
      if |backups| >= keep {
        olds := olds - {backups[|backups| - 1]};
      } else {
        backups := backups + [|backups|];
      }
      MakeRoom(old(olds), keep);
      MoveUp(backups, old(olds));
      ShiftedThenSaved(old(olds), keep, folder.value);
      assert 0 !in olds;
      olds := olds[0 := folder.value];
      folder := None;
    }

    /** Increases the number of every backup in the list but the last, which is free. */
    method MoveUp(backups: seq<nat>, ghost start: map<nat, Data>)
      requires backups != [] && forall i :: 0 <= i < |backups| ==> backups[i] == i
      requires forall i :: 0 <= i < |backups| - 1 ==> i in start
      requires olds == Shifted(start, |backups| - 1, |backups| - 1)
      modifies this`olds
      ensures olds == Shifted(start, 0, |backups| - 1)
    {
      var i := |backups| - 1;
      while i > 0
        invariant 0 <= i < |backups| && olds == Shifted(start, i, |backups| - 1)
      {
        Rename(backups[i - 1], backups[i]);
        i := i - 1;
      }
    }
  }

  // ----- many backups -----

  /** The backups after saving `ds` in order, starting from none. */
  ghost function History(ds: seq<Data>, keep: nat): map<nat, Data>
    requires keep >= 1
  {
    if ds == [] then map[] else Rotate(History(Front(ds), keep), keep, Last(ds))
  }

  /** Backup `i` is the one made `i` backups before the last, and there are no others. */
  ghost predicate MostRecent(olds: map<nat, Data>, ds: seq<Data>, keep: nat) {
    && (forall i: nat :: i in olds <==> i < |ds| && i < keep)
    && (forall i: nat :: i in olds ==> olds[i] == ds[|ds| - 1 - i])
  }

  lemma RotateMostRecent(olds: map<nat, Data>, ds: seq<Data>, keep: nat, data: Data)
    requires keep >= 1 && MostRecent(olds, ds, keep)
    ensures MostRecent(Rotate(olds, keep, data), ds + [data], keep)
  {
    FullSeries(olds, ds, keep);
    var r := Rotate(olds, keep, data);
    forall i: nat
      ensures i in r <==> i < |ds + [data]| && i < keep
      ensures i in r ==> r[i] == (ds + [data])[|ds| - i]
    {
      assert i > 0 ==> (i - 1 in olds <==> i - 1 < |ds| && i - 1 < keep);
    }
  }

  lemma FullSeries(olds: map<nat, Data>, ds: seq<Data>, keep: nat)
    requires MostRecent(olds, ds, keep)
    ensures Contiguous(olds, keep) == Min(|ds|, keep)
  {
    var n: nat, m: nat := Contiguous(olds, keep), Min(|ds|, keep);
    assert n in olds <==> n < |ds| && n < keep;
    assert m !in olds;
  }

  /** After any number of backups, exactly the most recent ones are kept, in order. */
  lemma {:induction false} HistoryIs(ds: seq<Data>, keep: nat)
    requires keep >= 1
    ensures MostRecent(History(ds, keep), ds, keep)
  {
    if ds != [] {
      HistoryIs(Front(ds), keep);
      RotateMostRecent(History(Front(ds), keep), Front(ds), keep, Last(ds));
      assert ds == Front(ds) + [Last(ds)];
    }
  }

  /** From any numbering, gaps included, only the oldest of a full series is lost; others move up by one or stay. */
  lemma OnlyOldestLost(olds: map<nat, Data>, keep: nat, data: Data, i: nat)
    requires keep >= 1 && i in olds
    ensures var r := Rotate(olds, keep, data);
      || (i < Kept(olds, keep) && i + 1 in r && r[i + 1] == olds[i])
      || (i > Kept(olds, keep) && i in r && r[i] == olds[i])
      || (i == keep - 1 && Contiguous(olds, keep) == keep)
  {
  }
}

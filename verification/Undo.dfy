/** When a restore fails: when a finished rollback brings the directory back as it was. */
module Undo {
  import opened Options
  import opened Text
  import opened Paths
  import opened Backup
  import opened Restore
  import opened Writing
  import opened Completion

  // ------------------------------------------------- what an entry tells

  /** What can be read off the archive and the original directory: the snapshot lists the
      entry under the very name the archive uses; or that name leads to no original file; or,
      leading nowhere, its target is in the snapshot or has the entry's content, or the
      entry is never written, as the entries up to it are not writable. */
  ghost predicate EntryRollsBack(files: seq<BackupFile>, i: nat, t: Tree, cfg: Config)
    requires i < |files|
  {
    var f := files[i];
    || (f.path in t.data && Visible(f.path))
    || match Resolves(f.path)
       case Some(target) => target !in t.data
       case None =>
         InSnapshot(f, t.data) || Get(t.data, Canonical(f)) == Some(f.content) || !Writable(files[..i + 1], t, cfg)
  }

  ghost predicate AllRollBack(archive: Archive, t: Tree, cfg: Config) {
    forall i :: 0 <= i < |archive.files| ==> EntryRollsBack(archive.files, i, t, cfg)
  }

  ghost predicate InSnapshot(f: BackupFile, orig: Data) {
    Canonical(f) in orig && Visible(Canonical(f))
  }

  /** A rollback can finish: the system takes the names of all files of the snapshot, and
      of their temporary files. */
  ghost predicate CanRollBack(orig: Data, cfg: Config) {
    forall k :: k in orig && Visible(k) ==> Takes(k, cfg)
  }

  /** No rollback touches this entry's target. */
  ghost predicate OutOfReach(f: BackupFile, orig: Data) {
    Resolves(f.path).None? && !InSnapshot(f, orig)
  }

  /** What no rollback touches holds what it held, or what the archive could write. */
  ghost predicate EitherOr(data: Data, t: Tree, files: seq<BackupFile>, cfg: Config) {
    forall i :: 0 <= i < |files| && OutOfReach(files[i], t.data) ==> Landed(data, t, files, i, cfg)
  }

  /** How a directory differs from the original while restores fail: nothing is gone, and
      what no rollback touches is old or new. */
  ghost predicate Sound(u: Tree, t: Tree, files: seq<BackupFile>, cfg: Config) {
    t.dirs <= u.dirs && t.data.Keys <= u.data.Keys && EitherOr(u.data, t, files, cfg)
  }

  // ---------------------------------------------------------- keeping it sound

  lemma {:induction false} PrefixBefore(files: seq<BackupFile>, n: nat, t: Tree, u: Tree, cfg: Config)
    requires n <= |files| && t.dirs <= u.dirs && t.data.Keys <= u.data.Keys && Writable(files[..n], u, cfg)
    ensures Writable(files[..n], t, cfg)
  {
    WritableBefore(files[..n], t, u, cfg);
    hide Writable; hide Targets;
  }

  lemma {:induction false} RestoreIsSound(u: Tree, t: Tree, files: seq<BackupFile>, cfg: Config, plan: Plan)
    requires DistinctPaths(files) && Sound(u, t, files, cfg)
    ensures Sound(RestoreFiles(u, files, cfg, plan).tree, t, files, cfg)
  {
    RestoreGrows(u, files, cfg, plan);
    var v := RestoreFiles(u, files, cfg, plan).tree;
    hide RestoreFiles; hide DistinctPaths; hide OutOfReach; hide Canonical; hide Writable; hide IsTree;
    forall i | 0 <= i < |files| && OutOfReach(files[i], t.data) ensures Landed(v.data, t, files, i, cfg) {
      LandsIfWritable(u, files, cfg, plan, i);
      assert Landed(u.data, t, files, i, cfg);
      if Writable(files[..i + 1], u, cfg) {
        PrefixBefore(files, i + 1, t, u, cfg);
      }
    }
  }

  lemma {:induction false} RemovalSpares(t: Tree, files: seq<BackupFile>, listed: set<string>, plan: Plan, x: string)
    requires !Removes(files, listed, x)
    ensures Get(RemoveExtra(t, files, listed, plan).tree.data, x) == Get(t.data, x)
    decreases |files|
  {
    if files != [] {
      RemovesStep(files, listed, x);
      ResolvesToCanonical(files[0]);
      var f := Next(plan);
      hide Canonical; hide Resolves; hide Removes;
      if !IsExtra(files[0], listed) || Canonical(files[0]) !in t.data {
        RemovalSpares(t, files[1..], listed, plan, x);
      } else if f.Fine? {
        RemovalSpares(t.(data := t.data - {Canonical(files[0])}), files[1..], listed, Rest(plan), x);
      }
    }
  }

  lemma {:induction false} KeptByRemoval(files: seq<BackupFile>, listed: set<string>, i: nat)
    requires DistinctPaths(files) && i < |files| && !IsExtra(files[i], listed)
    ensures !Removes(files, listed, Canonical(files[i]))
  {
    hide Canonical; hide IsExtra;
    forall j | 0 <= j < |files| && Canonical(files[j]) == Canonical(files[i]) ensures j == i {
    }
  }

  /** The snapshot and what it is of. */
  ghost predicate IsOf(before: Archive, orig: Data, listing: seq<string>, cfg: Config) {
    CanonicalKeys(orig) && IsListing(listing, orig) && Built(orig, listing, cfg) == Some(before)
  }

  lemma {:induction false} RollBackSpares(u: Tree, orig: Data, before: Archive, archive: Archive,
          listing: seq<string>, cfg: Config, plan: Plan, i: nat)
    requires IsOf(before, orig, listing, cfg)
    requires DistinctPaths(archive.files) && i < |archive.files| && OutOfReach(archive.files[i], orig)
    ensures var x := Canonical(archive.files[i]);
            Get(RollBack(u, before, archive, cfg, plan).tree.data, x) == Get(u.data, x)
  {
    var x := Canonical(archive.files[i]);
    SnapshotLists(before, orig, listing, cfg);
    var r := RestoreFiles(u, before.files, cfg, plan);
    RestoreFilesIs(u, before.files, cfg, plan);
    assert x !in listing;
    if r.end.Finished? {
      var listed := PathsOf(before);
      KeptByRemoval(archive.files, listed, i);
      RemovalSpares(r.tree, archive.files, listed, r.plan, x);
    }
    hide Canonical; hide Visible; hide Built; hide RestoreFiles; hide RemoveExtra; hide Resolves; hide CanonicalKeys;
  }

  /** If all entries roll back, no removal takes an original file. */
  lemma {:induction false} ExtrasAreNew(archive: Archive, t: Tree, before: Archive, listing: seq<string>, cfg: Config,
          x: string)
    requires IsOf(before, t.data, listing, cfg) && AllRollBack(archive, t, cfg) && x in t.data
    ensures !Removes(archive.files, PathsOf(before), x)
  {
    SnapshotLists(before, t.data, listing, cfg);
    var files := archive.files;
    forall i | 0 <= i < |files| && IsExtra(files[i], PathsOf(before)) ensures Canonical(files[i]) != x {
      assert EntryRollsBack(files, i, t, cfg);
      ResolvesToCanonical(files[i]);
      hide Resolves; hide Canonical; hide Visible; hide Built; hide PathsOf; hide CanonicalKeys; hide Writable;
      hide AllRollBack;
    }
  }

  lemma {:induction false} RollBackKeeps(u: Tree, t: Tree, before: Archive, archive: Archive, listing: seq<string>,
          cfg: Config, plan: Plan)
    requires IsOf(before, t.data, listing, cfg) && AllRollBack(archive, t, cfg) && t.data.Keys <= u.data.Keys
    ensures t.data.Keys <= RollBack(u, before, archive, cfg, plan).tree.data.Keys
  {
    var r := RestoreFiles(u, before.files, cfg, plan);
    RestoreGrows(u, before.files, cfg, plan);
    if r.end.Finished? {
      forall x | x in t.data ensures x in RemoveExtra(r.tree, archive.files, PathsOf(before), r.plan).tree.data {
        ExtrasAreNew(archive, t, before, listing, cfg, x);
        RemovalSpares(r.tree, archive.files, PathsOf(before), r.plan, x);
        assert x in r.tree.data;
        hide Removes; hide IsOf; hide AllRollBack; hide PathsOf; hide RemoveExtra; hide RestoreFiles;
      }
    }
    hide RestoreFiles; hide RemoveExtra; hide PathsOf; hide IsTree; hide IsOf; hide AllRollBack;
  }

  lemma {:induction false} RollBackIsSound(u: Tree, t: Tree, before: Archive, archive: Archive, listing: seq<string>,
          cfg: Config, plan: Plan)
    requires IsOf(before, t.data, listing, cfg) && DistinctPaths(archive.files) && AllRollBack(archive, t, cfg)
    requires Sound(u, t, archive.files, cfg)
    ensures Sound(RollBack(u, before, archive, cfg, plan).tree, t, archive.files, cfg)
  {
    var files := archive.files;
    RollBackKeepsDirs(u, before, archive, cfg, plan);
    RollBackKeeps(u, t, before, archive, listing, cfg, plan);
    var v := RollBack(u, before, archive, cfg, plan).tree;
    hide DistinctPaths; hide OutOfReach; hide Canonical; hide Writable; hide IsOf; hide AllRollBack;
    forall i | 0 <= i < |files| && OutOfReach(files[i], t.data) ensures Landed(v.data, t, files, i, cfg) {
      RollBackSpares(u, t.data, before, archive, listing, cfg, plan, i);
      assert Landed(u.data, t, files, i, cfg);
      hide RollBack;
    }
    hide RollBack;
  }

  lemma {:induction false} ConcludeKeepsFiles(d: Disk, plan: Plan)
    ensures Conclude(d, plan).disk.pending.Some? ==> Conclude(d, plan).disk.tree == d.tree
    ensures !Conclude(d, plan).end.Undone?
  {
  }

  // ------------------------------------------------------ over the start-ups

  /** Where a request stands between two start-ups. */
  ghost predicate Standing(d: Disk, t: Tree, p: Pending, cfg: Config) {
    && InProgress(d, t.data, p.archive, p.snapshot, cfg)
    && (d.pending.Some? ==> Sound(d.tree, t, p.archive.files, cfg))
  }

  lemma {:induction false} RestoredSound(d: Disk, p: Pending, t: Tree, listing: seq<string>, cfg: Config, plan: Plan)
    requires d.pending == Some(p) && p.snapshot in d.snapshots && DistinctPaths(p.archive.files)
    requires IsOf(d.snapshots[p.snapshot], t.data, listing, cfg) && AllRollBack(p.archive, t, cfg)
    requires Sound(d.tree, t, p.archive.files, cfg)
    ensures Restored(d, p, cfg, plan).disk.pending.Some? ==>
            Sound(Restored(d, p, cfg, plan).disk.tree, t, p.archive.files, cfg)
  {
    var files := p.archive.files;
    var r := RestoreFiles(d.tree, files, cfg, plan);
    RestoreIsSound(d.tree, t, files, cfg, plan);
    RollBackIsSound(r.tree, t, d.snapshots[p.snapshot], p.archive, listing, cfg, r.plan);
    ConcludeKeepsFiles(d.(tree := r.tree), r.plan);
    hide Sound; hide Accepts; hide IsOf; hide RestoreFiles; hide RollBack; hide DistinctPaths; hide Conclude;
    hide AllRollBack;
  }

  /** What it takes to end in a finished rollback. */
  lemma {:induction false} EndOfUndone(d: Disk, p: Pending, cfg: Config, plan: Plan)
    requires d.pending == Some(p) && p.snapshot in d.snapshots && Restored(d, p, cfg, plan).end.Undone?
    ensures var r := RestoreFiles(d.tree, p.archive.files, cfg, plan);
            var b := RollBack(r.tree, d.snapshots[p.snapshot], p.archive, cfg, r.plan);
            b.end.Finished? && Restored(d, p, cfg, plan).disk == d.(tree := b.tree)
  {
    var r := RestoreFiles(d.tree, p.archive.files, cfg, plan);
    ConcludeKeepsFiles(d.(tree := r.tree), r.plan);
    hide Accepts; hide RestoreFiles; hide RollBack; hide Conclude;
  }

  lemma {:induction false} WritesOff(u: Tree, orig: Data, files: seq<BackupFile>, cfg: Config, plan: Plan)
    requires AgreeOff(u.data, orig, Targets(files))
    ensures AgreeOff(RestoreFiles(u, files, cfg, plan).tree.data, orig, Targets(files))
  {
    RestoreFilesIs(u, files, cfg, plan);
    hide RestoreFiles; hide Targets;
    var v := RestoreFiles(u, files, cfg, plan).tree.data;
    forall x | x !in Targets(files) ensures Get(v, x) == Get(orig, x) {
      assert Get(v, x) == Get(u.data, x);
    }
  }

  lemma {:induction false} EntriesRollBack(data: Data, t: Tree, before: Archive, archive: Archive, listing: seq<string>,
          cfg: Config)
    requires IsOf(before, t.data, listing, cfg) && EitherOr(data, t, archive.files, cfg) && AllRollBack(archive, t, cfg)
    ensures forall i :: 0 <= i < |archive.files| ==> RollsBack(archive.files[i], data, t.data, PathsOf(before))
  {
    SnapshotLists(before, t.data, listing, cfg);
    var files := archive.files;
    forall i | 0 <= i < |files| ensures RollsBack(files[i], data, t.data, PathsOf(before)) {
      var f := files[i];
      assert EntryRollsBack(files, i, t, cfg);
      ResolvesToCanonical(f);
      assert OutOfReach(f, t.data) ==> Landed(data, t, files, i, cfg);
      hide Resolves; hide Canonical; hide Visible; hide Built; hide PathsOf; hide CanonicalKeys; hide EitherOr;
      hide AllRollBack; hide Writable;
    }
  }

  /** A failed write whose rollback goes through gives the original back. */
  lemma {:induction false} UndoneIsOriginal(d: Disk, p: Pending, t: Tree, listing: seq<string>, cfg: Config, plan: Plan)
    requires d.pending == Some(p) && p.snapshot in d.snapshots && Accepts(p.archive, cfg)
    requires IsOf(d.snapshots[p.snapshot], t.data, listing, cfg)
            && AgreeOff(d.tree.data, t.data, Targets(p.archive.files))
    requires Sound(d.tree, t, p.archive.files, cfg) && AllRollBack(p.archive, t, cfg)
    requires Restored(d, p, cfg, plan).end.Undone?
    ensures var e := Restored(d, p, cfg, plan).disk;
            e.tree.data == t.data && e.pending == d.pending && e.snapshots == d.snapshots
  {
    var files := p.archive.files;
    var before := d.snapshots[p.snapshot];
    var r := RestoreFiles(d.tree, files, cfg, plan);
    WritesOff(d.tree, t.data, files, cfg, plan);
    RestoreIsSound(d.tree, t, files, cfg, plan);
    EntriesRollBack(r.tree.data, t, before, p.archive, listing, cfg);
    EndOfUndone(d, p, cfg, plan);
    hide EitherOr; hide Accepts; hide RestoreFiles; hide RollBack; hide AgreeOff; hide Restored;
    hide AllRollBack; hide RollsBack; hide Built; hide IsListing; hide CanonicalKeys; hide Targets; hide PathsOf;
    RollBackRestoresIff(r.tree, t.data, before, p.archive, listing, cfg, r.plan);
  }

  lemma {:induction false} NothingWritten(t: Tree, u: Tree, files: seq<BackupFile>, cfg: Config)
    requires u.data == t.data && t.dirs <= u.dirs
    ensures Sound(u, t, files, cfg)
  {
    hide OutOfReach; hide Writable;
  }

  lemma {:induction false} StandingStays(d: Disk, t: Tree, p: Pending, lister: Data -> seq<string>, cfg: Config,
          plan: Plan)
    requires Lists(lister) && CanonicalKeys(t.data) && Standing(d, t, p, cfg) && AllRollBack(p.archive, t, cfg)
    ensures Standing(Attempt(d, lister, cfg, plan).disk, t, p, cfg)
  {
    AttemptProgress(d, t.data, p.archive, p.snapshot, lister, cfg, plan);
    assert IsListing(lister(d.tree.data), d.tree.data);
    if d.pending.Some? && Accepts(d.pending.value.archive, cfg) {
      var now := d.pending.value;
      if now.started {
        var listing: seq<string> :| IsListing(listing, t.data)
          && Built(t.data, listing, cfg) == Some(d.snapshots[p.snapshot]);
        RestoredSound(d, now, t, listing, cfg, plan);
      } else {
        StartedSound(d, now, t, lister(d.tree.data), cfg, plan);
      }
    }
    hide Sound; hide Accepts; hide Built; hide IsListing; hide SnapshotNameOk; hide CanonicalKeys; hide Restored;
    hide Started; hide Targets; hide AgreeOff; hide Overlay; hide AllRollBack;
  }

  lemma {:induction false} StartedSound(d: Disk, p: Pending, t: Tree, listing: seq<string>, cfg: Config, plan: Plan)
    requires d.pending == Some(p) && !p.started && CanonicalKeys(d.tree.data) && IsListing(listing, d.tree.data)
    requires DistinctPaths(p.archive.files) && AllRollBack(p.archive, t, cfg)
    requires d.tree.data == t.data && Sound(d.tree, t, p.archive.files, cfg)
    ensures var e := Started(d, p, listing, cfg, plan).disk; e.pending.Some? ==> Sound(e.tree, t, p.archive.files, cfg)
  {
    var snapshot := Built(d.tree.data, listing, cfg);
    StartedIs(d, p, listing, cfg, plan);
    if snapshot.Some? {
      var q := p.(started := true);
      assert IsOf(snapshot.value, d.tree.data, listing, cfg);
      hide IsOf; hide Started; hide AllRollBack;
      RestoredSound(Marked(d, p, snapshot.value), q, t, listing, cfg, Rest(Rest(plan)));
    }
    hide Sound; hide Built; hide IsListing; hide CanonicalKeys; hide Restored; hide DistinctPaths; hide AllRollBack;
  }

  lemma {:induction false} StandingThroughout(d: Disk, t: Tree, p: Pending, lister: Data -> seq<string>, cfg: Config,
          plans: seq<Plan>)
    requires Lists(lister) && CanonicalKeys(t.data) && Standing(d, t, p, cfg) && AllRollBack(p.archive, t, cfg)
    ensures Standing(Attempts(d, lister, cfg, plans), t, p, cfg)
    decreases |plans|
  {
    hide Standing; hide Attempt; hide Lists; hide CanonicalKeys; hide AllRollBack;
    if plans != [] {
      StandingStays(d, t, p, lister, cfg, plans[0]);
      StandingThroughout(Attempt(d, lister, cfg, plans[0]).disk, t, p, lister, cfg, plans[1..]);
    }
  }

  /** Wherever the request stands: if every entry rolls back, a start-up that ends with a
      finished rollback leaves the original files, the request, and its snapshot. */
  lemma {:induction false} UndoneAttempt(d: Disk, t: Tree, p: Pending, lister: Data -> seq<string>, cfg: Config,
          plan: Plan)
    requires Lists(lister) && CanonicalKeys(t.data) && Standing(d, t, p, cfg) && AllRollBack(p.archive, t, cfg)
    requires Attempt(d, lister, cfg, plan).end.Undone?
    ensures var e := Attempt(d, lister, cfg, plan).disk;
            e.tree.data == t.data && e.pending == Some(p.(started := true))
            && p.snapshot in e.snapshots && IsSnapshot(e.snapshots[p.snapshot], t.data, cfg)
  {
    assert IsListing(lister(d.tree.data), d.tree.data);
    var now := d.pending.value;
    if now.started {
      var listing: seq<string> :| IsListing(listing, t.data)
        && Built(t.data, listing, cfg) == Some(d.snapshots[p.snapshot]);
      UndoneIsOriginal(d, now, t, listing, cfg, plan);
    } else {
      var listing := lister(d.tree.data);
      var snapshot := Built(d.tree.data, listing, cfg);
      var q := now.(started := true);
      var marked := Marked(d, now, snapshot.value);
      StartedIs(d, now, listing, cfg, plan);
      UndoneIsOriginal(marked, q, t, listing, cfg, Rest(Rest(plan)));
    }
    hide Sound; hide Accepts; hide Built; hide IsListing; hide SnapshotNameOk; hide CanonicalKeys; hide Restored;
    hide Targets; hide AgreeOff; hide Overlay; hide AllRollBack;
  }

  lemma {:induction false} UndoneAfter(d: Disk, p: Pending, lister: Data -> seq<string>, cfg: Config,
          plans: seq<Plan>, plan: Plan)
    requires d.pending == Some(p) && !p.started && Lists(lister) && CanonicalKeys(d.tree.data)
    requires AllRollBack(p.archive, d.tree, cfg)
    requires Attempt(Attempts(d, lister, cfg, plans), lister, cfg, plan).end.Undone?
    ensures Attempt(Attempts(d, lister, cfg, plans), lister, cfg, plan).disk.tree.data == d.tree.data
  {
    NothingWritten(d.tree, d.tree, p.archive.files, cfg);
    assert Standing(d, d.tree, p, cfg);
    hide Attempt; hide Attempts; hide Lists; hide CanonicalKeys; hide Standing; hide AllRollBack;
    StandingThroughout(d, d.tree, p, lister, cfg, plans);
    UndoneAttempt(Attempts(d, lister, cfg, plans), d.tree, p, lister, cfg, plan);
  }

  // ------------------------------------------------- a rollback that cannot finish

  /** A finished rollback has written every file of the snapshot. */
  lemma {:induction false} FinishedNeedsNames(u: Tree, orig: Data, before: Archive, archive: Archive,
          listing: seq<string>, cfg: Config, plan: Plan)
    requires IsOf(before, orig, listing, cfg) && RollBack(u, before, archive, cfg, plan).end.Finished?
    ensures CanRollBack(orig, cfg)
  {
    FinishesIff(u, before.files, cfg, plan);
    forall k | k in orig && Visible(k) ensures Takes(k, cfg) {
      assert k in listing;
      var i :| 0 <= i < |listing| && listing[i] == k;
      SnapshotAt(before, orig, listing, cfg, i);
      assert !Refused(u, Canonical(before.files[i]), cfg);
      hide Canonical; hide Visible; hide Built; hide CanonicalKeys; hide Takes;
    }
    hide RestoreFiles; hide RemoveExtra;
  }

  /** If some visible file has a name the system does not take again, no rollback finishes. */
  lemma {:induction false} NoRollBackFinishes(d: Disk, orig: Data, p: Pending, lister: Data -> seq<string>, cfg: Config,
          plan: Plan)
    requires Lists(lister) && CanonicalKeys(orig) && InProgress(d, orig, p.archive, p.snapshot, cfg)
    requires Attempt(d, lister, cfg, plan).end.Undone?
    ensures CanRollBack(orig, cfg)
  {
    assert IsListing(lister(d.tree.data), d.tree.data);
    var now := d.pending.value;
    hide RestoreFiles; hide RollBack;
    if now.started {
      var listing: seq<string> :| IsListing(listing, orig)
        && Built(orig, listing, cfg) == Some(d.snapshots[p.snapshot]);
      EndOfUndone(d, now, cfg, plan);
      var r := RestoreFiles(d.tree, now.archive.files, cfg, plan);
      FinishedNeedsNames(r.tree, orig, d.snapshots[p.snapshot], now.archive, listing, cfg, r.plan);
    } else {
      var listing := lister(d.tree.data);
      var snapshot := Built(d.tree.data, listing, cfg);
      var q := now.(started := true);
      StartedIs(d, now, listing, cfg, plan);
      var marked := Marked(d, now, snapshot.value);
      EndOfUndone(marked, q, cfg, Rest(Rest(plan)));
      var r := RestoreFiles(d.tree, now.archive.files, cfg, Rest(Rest(plan)));
      FinishedNeedsNames(r.tree, orig, snapshot.value, now.archive, listing, cfg, r.plan);
    }
    hide Accepts; hide Built; hide IsListing; hide SnapshotNameOk; hide CanonicalKeys; hide Restored; hide CanRollBack;
    hide Targets; hide AgreeOff; hide Overlay;
  }

  lemma {:induction false} UnwritableRollsBack(d: Disk, p: Pending, listing: seq<string>, cfg: Config)
    requires d.pending == Some(p) && p.snapshot in d.snapshots && Accepts(d.snapshots[p.snapshot], cfg)
    requires IsOf(d.snapshots[p.snapshot], d.tree.data, listing, cfg) && IsTree(d.tree) && CanRollBack(d.tree.data, cfg)
    requires !Writable(p.archive.files, d.tree, cfg)
    ensures Restored(d, p, cfg, []).end.Undone?
  {
    var r := RestoreFiles(d.tree, p.archive.files, cfg, []);
    FinishesIff(d.tree, p.archive.files, cfg, []);
    RestoreGrows(d.tree, p.archive.files, cfg, []);
    FaultlessRollBack(r.tree, d.tree, d.snapshots[p.snapshot], p.archive, listing, cfg);
    hide Accepts; hide RestoreFiles; hide RollBack; hide IsOf; hide Writable; hide IsTree; hide CanRollBack;
  }

  /** A request that gets as far as writing and cannot write it all ends its first start-up,
      if nothing else fails, with a finished rollback exactly if a rollback can finish; the
      original files are back if every entry rolls back. */
  lemma {:induction false} UnwritableIsUndone(d: Disk, p: Pending, lister: Data -> seq<string>, cfg: Config)
    requires d.pending == Some(p) && !p.started && Lists(lister) && CanonicalKeys(d.tree.data) && IsTree(d.tree)
    requires Startable(p, d.tree.data, lister, cfg) && !Writable(p.archive.files, d.tree, cfg)
    ensures var r := Attempt(d, lister, cfg, []);
            && (r.end.Undone? <==> CanRollBack(d.tree.data, cfg))
            && (r.end.Undone? && AllRollBack(p.archive, d.tree, cfg) ==> r.disk.tree.data == d.tree.data)
  {
    SnapshotIsAccepted(p, d.tree.data, lister, cfg);
    var listing := lister(d.tree.data);
    var q := p.(started := true);
    var marked := Marked(d, p, Built(d.tree.data, listing, cfg).value);
    assert Attempt(d, lister, cfg, []) == Restored(marked, q, cfg, []) by {
      hide Accepts; hide Built; hide IsListing; hide SnapshotNameOk; hide Restored;
    }
    var none: seq<Plan> := [];
    assert Attempts(d, lister, cfg, none) == d;
    hide Attempt; hide Attempts; hide AllRollBack; hide CanRollBack; hide Writable; hide IsTree; hide Restored;
    hide Startable;
    if CanRollBack(d.tree.data, cfg) {
      UnwritableRollsBack(marked, q, listing, cfg);
    }
    if Attempt(d, lister, cfg, []).end.Undone? {
      HarmlessIfUnfinished(d, p, lister, cfg, none, []);
      if AllRollBack(p.archive, d.tree, cfg) {
        UndoneAfter(d, p, lister, cfg, none, []);
      }
    }
  }

  // ------------------------------------------------- a rollback that does not restore

  /** All goes well up to the write of entry `i`, which takes effect and is reported failed. */
  function FailsAt(i: nat): Plan {
    if i == 0 then [FailsLate] else [Fine] + FailsAt(i - 1)
  }

  lemma {:induction false} FailsAtStep(i: nat)
    ensures if i == 0 then Next(FailsAt(0)).FailsLate? && Rest(FailsAt(0)) == []
            else Next(FailsAt(i)).Fine? && Rest(FailsAt(i)) == FailsAt(i - 1)
  {
  }

  lemma {:induction false} WritablePrefix(t: Tree, files: seq<BackupFile>, cfg: Config, i: nat)
    requires i < |files| && Writable(files[..i + 1], t, cfg)
    ensures !Refused(t, Canonical(files[0]), cfg)
    ensures Writable(files[1..][..i], Stored(t, Canonical(files[0]), files[0].content), cfg)
  {
    assert files[..i + 1][1..] == files[1..][..i];
    WritableStep(files[..i + 1], t, cfg);
    hide Writable; hide Refused; hide Stored; hide Canonical;
  }

  lemma {:induction false} WritesUpTo(t: Tree, files: seq<BackupFile>, cfg: Config, i: nat)
    requires i < |files| && DistinctPaths(files) && Writable(files[..i + 1], t, cfg)
    ensures var r := RestoreFiles(t, files, cfg, FailsAt(i));
            r.end.Errored? && r.plan == [] && Get(r.tree.data, Canonical(files[i])) == Some(files[i].content)
    decreases i
  {
    hide Canonical; hide DistinctPaths; hide Targets; hide Writable; hide Refused; hide Stored; hide RestoreFiles;
    hide FailsAt;
    TailIsDistinct(files);
    WritablePrefix(t, files, cfg, i);
    FirstWrite(t, files, cfg, FailsAt(i));
    FailsAtStep(i);
    var after, rest := Stored(t, Canonical(files[0]), files[0].content), files[1..];
    if i == 0 {
      StoredThere(t, Canonical(files[0]), files[0].content);
    } else {
      assert rest[i - 1] == files[i];
      WritesUpTo(after, rest, cfg, i - 1);
    }
  }

  lemma {:induction false} StoredThere(t: Tree, path: string, content: Bytes)
    ensures Get(Stored(t, path, content).data, path) == Some(content)
  {
  }

  lemma {:induction false} FirstWrite(t: Tree, files: seq<BackupFile>, cfg: Config, plan: Plan)
    requires files != [] && !Refused(t, Canonical(files[0]), cfg)
    ensures var after := Stored(t, Canonical(files[0]), files[0].content);
            && (Next(plan).Fine? ==>
               RestoreFiles(t, files, cfg, plan) == RestoreFiles(after, files[1..], cfg, Rest(plan)))
            && (Next(plan).FailsLate? ==> RestoreFiles(t, files, cfg, plan) == Ran(after, Rest(plan), Errored))
  {
    hide Canonical; hide Stored; hide Unstored; hide Refused;
  }

  lemma {:induction false} FaultlessRemoval(t: Tree, files: seq<BackupFile>, listed: set<string>)
    ensures RemoveExtra(t, files, listed, []).end.Finished?
    decreases |files|
  {
    hide Resolves;
    if files != [] {
      var target := Resolves(files[0].path);
      FaultlessRemoval(t, files[1..], listed);
      if target.Some? {
        FaultlessRemoval(t.(data := t.data - {target.value}), files[1..], listed);
      }
    }
  }

  /** Without further faults, the rollback of the first start-up finishes. */
  lemma {:induction false} FaultlessRollBack(u: Tree, t: Tree, before: Archive, archive: Archive, listing: seq<string>,
          cfg: Config)
    requires IsOf(before, t.data, listing, cfg) && IsTree(u) && t.data.Keys <= u.data.Keys && CanRollBack(t.data, cfg)
    ensures RollBack(u, before, archive, cfg, []).end.Finished?
  {
    SnapshotLists(before, t.data, listing, cfg);
    forall i | 0 <= i < |before.files|
      ensures Takes(Canonical(before.files[i]), cfg) && Canonical(before.files[i]) in u.data
    {
      SnapshotAt(before, t.data, listing, cfg, i);
      assert listing[i] in listing;
      hide Canonical; hide Visible; hide Built; hide CanonicalKeys; hide Takes; hide IsTree;
    }
    RewritesAreWritable(u, before.files, cfg);
    FinishesIff(u, before.files, cfg, []);
    FaultlessRemoval(RestoreFiles(u, before.files, cfg, []).tree, archive.files, PathsOf(before));
    hide RestoreFiles; hide RemoveExtra; hide PathsOf; hide IsTree; hide Writable; hide CanRollBack; hide IsOf;
  }

  /** The failure that shows that an entry does not roll back: of its own write, or, if the
      rollback deletes its file, of any. */
  function ShowsAt(f: BackupFile, i: nat): Plan {
    if Resolves(f.path).Some? then [Fails({})] else FailsAt(i)
  }

  lemma {:induction false} WritesShow(t: Tree, files: seq<BackupFile>, cfg: Config, i: nat)
    requires i < |files| && DistinctPaths(files) && !EntryRollsBack(files, i, t, cfg)
    ensures var r := RestoreFiles(t, files, cfg, ShowsAt(files[i], i));
            r.end.Errored? && r.plan == []
            && (Resolves(files[i].path).None? ==> Get(r.tree.data, Canonical(files[i])) == Some(files[i].content))
  {
    hide Resolves; hide Canonical; hide Visible; hide DistinctPaths; hide Writable;
    if Resolves(files[i].path).None? {
      WritesUpTo(t, files, cfg, i);
      hide RestoreFiles; hide FailsAt;
    }
  }

  lemma {:induction false} FailureShows(d: Disk, p: Pending, listing: seq<string>, cfg: Config, i: nat)
    requires d.pending == Some(p) && p.snapshot in d.snapshots && Accepts(d.snapshots[p.snapshot], cfg)
    requires IsOf(d.snapshots[p.snapshot], d.tree.data, listing, cfg) && Accepts(p.archive, cfg)
    requires IsTree(d.tree) && CanRollBack(d.tree.data, cfg)
    requires i < |p.archive.files| && !EntryRollsBack(p.archive.files, i, d.tree, cfg)
    ensures var r := Restored(d, p, cfg, ShowsAt(p.archive.files[i], i));
            r.end.Undone? && r.disk.tree.data != d.tree.data
  {
    var t, before, files := d.tree, d.snapshots[p.snapshot], p.archive.files;
    var r := RestoreFiles(t, files, cfg, ShowsAt(files[i], i));
    WritesShow(t, files, cfg, i);
    WritesOff(t, t.data, files, cfg, ShowsAt(files[i], i));
    RestoreGrows(t, files, cfg, ShowsAt(files[i], i));
    FaultlessRollBack(r.tree, t, before, p.archive, listing, cfg);
    RollBackRestoresIff(r.tree, t.data, before, p.archive, listing, cfg, []);
    SnapshotLists(before, t.data, listing, cfg);
    ResolvesToCanonical(files[i]);
    assert !RollsBack(files[i], r.tree.data, t.data, PathsOf(before)) by {
      hide Resolves; hide Canonical; hide Visible; hide Built; hide PathsOf; hide CanonicalKeys; hide RollBack;
      hide RestoreFiles; hide Writable;
    }
    hide Accepts; hide RestoreFiles; hide RollBack; hide RollsBack; hide EntryRollsBack; hide Built; hide IsListing;
    hide CanonicalKeys; hide Targets; hide PathsOf; hide ShowsAt; hide IsTree; hide CanRollBack;
  }

  /** Where an entry does not roll back, a failure at the first start-up shows it. */
  lemma {:induction false} StartShows(d: Disk, p: Pending, lister: Data -> seq<string>, cfg: Config, i: nat)
    requires d.pending == Some(p) && !p.started && Lists(lister) && CanonicalKeys(d.tree.data) && IsTree(d.tree)
    requires Startable(p, d.tree.data, lister, cfg) && CanRollBack(d.tree.data, cfg)
    requires i < |p.archive.files| && !EntryRollsBack(p.archive.files, i, d.tree, cfg)
    ensures var r := Attempt(d, lister, cfg, [Fine, Fine] + ShowsAt(p.archive.files[i], i));
            r.end.Undone? && r.disk.tree.data != d.tree.data
  {
    SnapshotIsAccepted(p, d.tree.data, lister, cfg);
    var listing := lister(d.tree.data);
    var q := p.(started := true);
    var plan := [Fine, Fine] + ShowsAt(p.archive.files[i], i);
    assert Rest(Rest(plan)) == ShowsAt(p.archive.files[i], i);
    hide EntryRollsBack; hide ShowsAt; hide CanRollBack; hide IsTree;
    FailureShows(Marked(d, p, Built(d.tree.data, listing, cfg).value), q, listing, cfg, i);
    hide Accepts; hide Built; hide IsListing; hide SnapshotNameOk; hide CanonicalKeys; hide Restored;
  }

  /** A finished rollback, whenever it happens, leaves the original files. */
  ghost predicate UndoneIsHarmless(d: Disk, lister: Data -> seq<string>, cfg: Config)
    requires Lists(lister)
  {
    forall plans: seq<Plan>, plan: Plan ::
      var r := Attempt(Attempts(d, lister, cfg, plans), lister, cfg, plan);
      r.end.Undone? ==> r.disk.tree.data == d.tree.data
  }

  lemma {:induction false} HarmlessIfUnfinished(d: Disk, p: Pending, lister: Data -> seq<string>, cfg: Config,
          plans: seq<Plan>, plan: Plan)
    requires d.pending == Some(p) && !p.started && Lists(lister) && CanonicalKeys(d.tree.data)
    requires Attempt(Attempts(d, lister, cfg, plans), lister, cfg, plan).end.Undone?
    ensures CanRollBack(d.tree.data, cfg)
  {
    hide Attempt; hide Attempts; hide Lists; hide CanonicalKeys; hide CanRollBack; hide InProgress;
    RestoreIsRestartable(d, p, lister, cfg, plans);
    NoRollBackFinishes(Attempts(d, lister, cfg, plans), d.tree.data, p, lister, cfg, plan);
  }

  /** A requested restore that gets as far as writing and fails is undone, for every history
      of interrupted start-ups and every point of failure, exactly if every entry of its
      archive rolls back, or no rollback can finish. */
  lemma {:induction false} FailedRestoreIsUndoneIff(d: Disk, p: Pending, lister: Data -> seq<string>, cfg: Config)
    requires d.pending == Some(p) && !p.started && Lists(lister) && CanonicalKeys(d.tree.data) && IsTree(d.tree)
    requires Startable(p, d.tree.data, lister, cfg)
    ensures UndoneIsHarmless(d, lister, cfg)
            <==> (CanRollBack(d.tree.data, cfg) ==> AllRollBack(p.archive, d.tree, cfg))
  {
    hide Attempt; hide Lists; hide CanonicalKeys; hide Startable; hide EntryRollsBack; hide CanRollBack; hide IsTree;
    if CanRollBack(d.tree.data, cfg) ==> AllRollBack(p.archive, d.tree, cfg) {
      hide Attempts; hide AllRollBack;
      forall plans: seq<Plan>, plan: Plan | Attempt(Attempts(d, lister, cfg, plans), lister, cfg, plan).end.Undone?
        ensures Attempt(Attempts(d, lister, cfg, plans), lister, cfg, plan).disk.tree.data == d.tree.data
      {
        HarmlessIfUnfinished(d, p, lister, cfg, plans, plan);
        UndoneAfter(d, p, lister, cfg, plans, plan);
      }
    } else {
      var i :| 0 <= i < |p.archive.files| && !EntryRollsBack(p.archive.files, i, d.tree, cfg);
      StartShows(d, p, lister, cfg, i);
      var none: seq<Plan> := [];
      assert Attempts(d, lister, cfg, none) == d;
    }
  }

  /** Archives the program writes, of whatever directory, always roll back. */
  lemma {:induction false} OwnArchivesRollBack(archive: Archive, other: Data, t: Tree, cfg: Config)
    requires CanonicalKeys(other) && IsSnapshot(archive, other, cfg)
    ensures AllRollBack(archive, t, cfg)
  {
    var listing: seq<string> :| IsListing(listing, other) && Built(other, listing, cfg) == Some(archive);
    forall i | 0 <= i < |archive.files| ensures EntryRollsBack(archive.files, i, t, cfg) {
      SnapshotLists(archive, other, listing, cfg);
      SnapshotAt(archive, other, listing, cfg, i);
      var f := archive.files[i];
      assert listing[i] in listing;
      CanonicalIsStable(f.path);
      hide SafeRelativePath; hide Built; hide Visible; hide Resolves; hide Canonical; hide Writable;
    }
  }

  lemma {:induction false} DoubledParts(x: string, y: string)
    requires '/' !in x && '/' !in y
    ensures Parts(x + "//" + y) == [x, "", y]
  {
    var parts := [x, "", y];
    assert parts[1..] == ["", y] && ["", y][1..] == [y];
    assert Join([y], "/") == y;
    assert Join(["", y], "/") == "/" + y;
    assert Join(parts, "/") == x + "/" + ("/" + y) == x + "//" + y;
    forall p, k | p in parts && 0 <= k < |p| ensures p[k] !in "/" {
      assert p[k] in p;
    }
    assert ['/'] == "/";
    SplitJoin(parts, '/', "/");
  }

  lemma {:induction false} TwoNames(x: string, y: string)
    requires x != "" && x != "." && y != "" && y != "."
    ensures Components([x, "", y]) == [x, y] && Join([x, y], "/") == x + "/" + y
  {
    assert [x, "", y][1..] == ["", y] && ["", y][1..] == [y] && [x, y][1..] == [y];
    assert Components([y]) == [y];
    assert Components(["", y]) == [y];
    assert Join([y], "/") == y;
  }

  lemma {:induction false} FlagHasNoSlash()
    ensures '/' !in RESTART_FLAG
  {
  }

  lemma {:induction false} DoubledSlash(x: string, y: string)
    requires IsName(x) && IsName(y) && x != BACKUP_DIR
    ensures var raw, c := x + "//" + y, x + "/" + y;
            SafeRelativePath(raw) == Some(c) && Resolves(raw) == Some(c) && raw != c
  {
    var raw, c := x + "//" + y, x + "/" + y;
    DoubledParts(x, y);
    TwoNames(x, y);
    FlagHasNoSlash();
    hide Parts; hide Components; hide Join;
    assert c[|x|] == '/';
    assert x[0] in x && raw[0] == x[0];
    assert |raw| == |c| + 1;
  }

  /** It is the raw name that is compared: a doubled slash hides an original file from the
      comparison, and a failed restore that can roll back deletes it. */
  lemma {:induction false} DoubledSlashLosesFile(d: Disk, p: Pending, lister: Data -> seq<string>, cfg: Config, i: nat,
          x: string, y: string) returns (plan: Plan)
    requires d.pending == Some(p) && !p.started && Lists(lister) && CanonicalKeys(d.tree.data) && IsTree(d.tree)
    requires Startable(p, d.tree.data, lister, cfg) && CanRollBack(d.tree.data, cfg)
    requires IsName(x) && IsName(y) && x != BACKUP_DIR
    requires i < |p.archive.files| && p.archive.files[i].path == x + "//" + y && x + "/" + y in d.tree.data
    ensures Attempt(d, lister, cfg, plan).end.Undone? && Attempt(d, lister, cfg, plan).disk.tree.data != d.tree.data
  {
    DoubledSlash(x, y);
    assert !EntryRollsBack(p.archive.files, i, d.tree, cfg) by {
      hide SafeRelativePath; hide Resolves; hide IsName; hide Startable; hide Visible; hide Writable;
    }
    StartShows(d, p, lister, cfg, i);
    plan := [Fine, Fine] + ShowsAt(p.archive.files[i], i);
  }

  /** A file that snapshots skip, a `.tmp` file or a nested file named as the restart flag, is
      not written back, and if the archive names it, a failed restore deletes it. */
  lemma {:induction false} SkippedFileIsLost(d: Disk, p: Pending, lister: Data -> seq<string>, cfg: Config, i: nat,
          path: string) returns (plan: Plan)
    requires d.pending == Some(p) && !p.started && Lists(lister) && CanonicalKeys(d.tree.data) && IsTree(d.tree)
    requires Startable(p, d.tree.data, lister, cfg) && CanRollBack(d.tree.data, cfg)
    requires SafeRelativePath(path) == Some(path) && !Visible(path) && path in d.tree.data
    requires i < |p.archive.files| && p.archive.files[i].path == path
    ensures Attempt(d, lister, cfg, plan).end.Undone? && Attempt(d, lister, cfg, plan).disk.tree.data != d.tree.data
  {
    CanonicalIsStable(path);
    assert !EntryRollsBack(p.archive.files, i, d.tree, cfg) by {
      hide SafeRelativePath; hide Resolves; hide Startable; hide Visible; hide Writable;
    }
    StartShows(d, p, lister, cfg, i);
    plan := [Fine, Fine] + ShowsAt(p.archive.files[i], i);
  }
}

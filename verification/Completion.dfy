/** Which requests to restore complete, and which stay for good. */
module Completion {
  import opened Options
  import opened Text
  import opened Paths
  import opened Backup
  import opened Restore
  import opened Writing

  // ---------------------------------------------------- requests that complete

  /** The request is valid, and the original directory can be backed up into a snapshot that
      would be accepted: a start-up gets as far as writing. */
  ghost predicate Startable(p: Pending, orig: Data, lister: Data -> seq<string>, cfg: Config)
    requires Lists(lister)
  {
    && Accepts(p.archive, cfg) && SnapshotNameOk(p.snapshot)
    && IsListing(lister(orig), orig) && Backable(orig, lister(orig), cfg)
    && forall k :: k in orig && Visible(k) ==> cfg.storeOk(k, orig[k])
  }

  /** And what it is to write can be written. */
  ghost predicate Completable(p: Pending, t: Tree, lister: Data -> seq<string>, cfg: Config)
    requires Lists(lister)
  {
    Startable(p, t.data, lister, cfg) && Writable(p.archive.files, t, cfg)
  }

  lemma {:induction false} SnapshotIsAccepted(p: Pending, orig: Data, lister: Data -> seq<string>, cfg: Config)
    requires Lists(lister) && CanonicalKeys(orig) && Accepts(p.archive, cfg) && SnapshotNameOk(p.snapshot)
    ensures IsListing(lister(orig), orig)
    ensures Startable(p, orig, lister, cfg)
            <==> Built(orig, lister(orig), cfg).Some? && Accepts(Built(orig, lister(orig), cfg).value, cfg)
  {
    var listing := lister(orig);
    assert IsListing(listing, orig);
    var snapshot := Built(orig, listing, cfg);
    if snapshot.Some? {
      BackupAcceptedIff(snapshot.value, orig, listing, cfg);
    }
    hide Accepts; hide Backable; hide IsListing; hide Visible; hide SnapshotNameOk; hide CanonicalKeys;
  }

  /** What a start-up without faults leaves of a request that can complete: the request and the
      restart flag are gone, and the files are the original with the archive's over it. */
  lemma {:induction false} FaultlessStart(d: Disk, p: Pending, lister: Data -> seq<string>, cfg: Config)
    requires d.pending == Some(p) && !p.started && Lists(lister) && CanonicalKeys(d.tree.data)
    requires Completable(p, d.tree, lister, cfg)
    ensures var r := Attempt(d, lister, cfg, []);
            && r.disk.pending.None? && r.end.Finished?
            && r.disk.tree.data == Overlay(d.tree.data, p.archive.files) - {RESTART_FLAG}
            && p.snapshot in r.disk.snapshots && IsSnapshot(r.disk.snapshots[p.snapshot], d.tree.data, cfg)
  {
    SnapshotIsAccepted(p, d.tree.data, lister, cfg);
    FinishesIff(d.tree, p.archive.files, cfg, []);
    RestoreFilesIs(d.tree, p.archive.files, cfg, []);
    assert IsSnapshot(Built(d.tree.data, lister(d.tree.data), cfg).value, d.tree.data, cfg);
    hide IsSnapshot; hide Overlay; hide Targets; hide AgreeOff;
    hide Accepts; hide Backable; hide IsListing; hide Visible; hide SnapshotNameOk; hide RollBack; hide RestoreFiles;
    hide CanonicalKeys; hide Built; hide Writable;
  }

  /** Where a request that cannot start stands: not a file changed, and the snapshot, once
      taken, of the original. */
  ghost predicate Stuck(d: Disk, orig: Data, p: Pending, lister: Data -> seq<string>, cfg: Config)
    requires Lists(lister)
  {
    && d.tree.data == orig && d.pending.Some?
    && d.pending.value.archive == p.archive && d.pending.value.snapshot == p.snapshot
    && (d.pending.value.started ==>
          p.snapshot in d.snapshots && IsListing(lister(orig), orig)
          && Built(orig, lister(orig), cfg) == Some(d.snapshots[p.snapshot]))
  }

  lemma {:induction false} RefusedStays(d: Disk, p: Pending, cfg: Config, plan: Plan)
    requires p.snapshot in d.snapshots && !Accepts(d.snapshots[p.snapshot], cfg)
    ensures Restored(d, p, cfg, plan) == Applied(d, Errored)
  {
    hide Accepts;
  }

  lemma {:induction false} StuckStart(d: Disk, p: Pending, listing: seq<string>, cfg: Config, plan: Plan)
    requires d.pending == Some(p) && IsListing(listing, d.tree.data)
    requires var snapshot := Built(d.tree.data, listing, cfg); snapshot.Some? ==> !Accepts(snapshot.value, cfg)
    ensures var r := Started(d, p, listing, cfg, plan);
            && r.disk.tree.data == d.tree.data && !r.end.Finished?
            && (r.disk.pending == d.pending
                || (r.disk.pending == Some(p.(started := true)) && p.snapshot in r.disk.snapshots
                    && Built(d.tree.data, listing, cfg) == Some(r.disk.snapshots[p.snapshot])))
  {
    var snapshot := Built(d.tree.data, listing, cfg);
    if snapshot.Some? {
      var q := p.(started := true);
      RefusedStays(Marked(d, p, snapshot.value), q, cfg, Rest(Rest(plan)));
    }
    hide Accepts; hide Built; hide IsListing; hide Restored;
  }

  lemma {:induction false} StuckStays(d: Disk, orig: Data, p: Pending, lister: Data -> seq<string>, cfg: Config,
          plan: Plan)
    requires Lists(lister) && CanonicalKeys(orig) && Stuck(d, orig, p, lister, cfg) && !Startable(p, orig, lister, cfg)
    ensures Stuck(Attempt(d, lister, cfg, plan).disk, orig, p, lister, cfg)
            && !Attempt(d, lister, cfg, plan).end.Finished?
  {
    var now := d.pending.value;
    assert IsListing(lister(orig), orig);
    if Accepts(p.archive, cfg) && SnapshotNameOk(p.snapshot) {
      SnapshotIsAccepted(p, orig, lister, cfg);
      if now.started {
        RefusedStays(d, now, cfg, plan);
      } else {
        StuckStart(d, now, lister(orig), cfg, plan);
      }
    }
    hide Accepts; hide Built; hide IsListing; hide Startable; hide SnapshotNameOk; hide CanonicalKeys; hide Started;
    hide Restored;
  }

  lemma {:induction false} StuckThroughout(d: Disk, orig: Data, p: Pending, lister: Data -> seq<string>, cfg: Config,
          plans: seq<Plan>)
    requires Lists(lister) && CanonicalKeys(orig) && Stuck(d, orig, p, lister, cfg) && !Startable(p, orig, lister, cfg)
    ensures Stuck(Attempts(d, lister, cfg, plans), orig, p, lister, cfg)
    decreases |plans|
  {
    hide Stuck; hide Attempt; hide Lists; hide CanonicalKeys; hide Startable;
    if plans != [] {
      StuckStays(d, orig, p, lister, cfg, plans[0]);
      StuckThroughout(Attempt(d, lister, cfg, plans[0]).disk, orig, p, lister, cfg, plans[1..]);
    }
  }

  /** Where a request that can start and never write it all stands. */
  ghost predicate Barred(d: Disk, t: Tree, p: Pending, cfg: Config) {
    InProgress(d, t.data, p.archive, p.snapshot, cfg) && d.pending.Some? && t.dirs <= d.tree.dirs
  }

  lemma {:induction false} RemovalKeepsDirs(t: Tree, files: seq<BackupFile>, listed: set<string>, plan: Plan)
    ensures RemoveExtra(t, files, listed, plan).tree.dirs == t.dirs
  {
    RemoveExtraAt(t, files, listed, plan, "");
  }

  lemma {:induction false} RollBackKeepsDirs(t: Tree, before: Archive, archive: Archive, cfg: Config, plan: Plan)
    ensures t.dirs <= RollBack(t, before, archive, cfg, plan).tree.dirs
  {
    var r := RestoreFiles(t, before.files, cfg, plan);
    RestoreGrows(t, before.files, cfg, plan);
    RemovalKeepsDirs(r.tree, archive.files, PathsOf(before), r.plan);
    hide RestoreFiles; hide RemoveExtra; hide PathsOf; hide IsTree;
  }

  /** A restore whose writes do not all work leaves the request, and every directory. */
  lemma {:induction false} RestoredBarred(d: Disk, p: Pending, cfg: Config, plan: Plan)
    requires d.pending == Some(p) && !Writable(p.archive.files, d.tree, cfg)
    ensures var r := Restored(d, p, cfg, plan);
            r.disk.pending == d.pending && !r.end.Finished? && d.tree.dirs <= r.disk.tree.dirs
  {
    if p.snapshot in d.snapshots {
      var r := RestoreFiles(d.tree, p.archive.files, cfg, plan);
      FinishesIff(d.tree, p.archive.files, cfg, plan);
      RestoreGrows(d.tree, p.archive.files, cfg, plan);
      RollBackKeepsDirs(r.tree, d.snapshots[p.snapshot], p.archive, cfg, r.plan);
    }
    hide RestoreFiles; hide RollBack; hide Accepts; hide Writable; hide IsTree; hide Conclude;
  }

  lemma {:induction false} StillUnwritable(d: Disk, t: Tree, p: Pending, cfg: Config)
    requires Barred(d, t, p, cfg) && !Writable(p.archive.files, t, cfg)
    ensures !Writable(p.archive.files, d.tree, cfg)
  {
    if Writable(p.archive.files, d.tree, cfg) {
      forall x | x in t.data && x !in Targets(p.archive.files) ensures x in d.tree.data {
        assert Get(d.tree.data, x) == Get(t.data, x);
      }
      WritableBefore(p.archive.files, t, d.tree, cfg);
    }
    hide Writable; hide Targets; hide IsSnapshot;
  }

  lemma {:induction false} BarredStays(d: Disk, t: Tree, p: Pending, lister: Data -> seq<string>, cfg: Config,
          plan: Plan)
    requires Lists(lister) && CanonicalKeys(t.data) && Barred(d, t, p, cfg) && !Writable(p.archive.files, t, cfg)
    ensures Barred(Attempt(d, lister, cfg, plan).disk, t, p, cfg) && !Attempt(d, lister, cfg, plan).end.Finished?
  {
    AttemptProgress(d, t.data, p.archive, p.snapshot, lister, cfg, plan);
    StillUnwritable(d, t, p, cfg);
    assert IsListing(lister(d.tree.data), d.tree.data);
    var now := d.pending.value;
    assert now.archive == p.archive;
    if now.started {
      RestoredBarred(d, now, cfg, plan);
    } else {
      var listing, q := lister(d.tree.data), now.(started := true);
      StartedIs(d, now, listing, cfg, plan);
      if Built(d.tree.data, listing, cfg).Some? {
        var snapshot := Built(d.tree.data, listing, cfg).value;
        RestoredBarred(Marked(d, now, snapshot), q, cfg, Rest(Rest(plan)));
      }
    }
    hide InProgress; hide Writable; hide Accepts; hide Built; hide IsListing; hide SnapshotNameOk; hide CanonicalKeys;
    hide Restored; hide Started;
  }

  lemma {:induction false} BarredThroughout(d: Disk, t: Tree, p: Pending, lister: Data -> seq<string>, cfg: Config,
          plans: seq<Plan>)
    requires Lists(lister) && CanonicalKeys(t.data) && Barred(d, t, p, cfg) && !Writable(p.archive.files, t, cfg)
    ensures Barred(Attempts(d, lister, cfg, plans), t, p, cfg)
    decreases |plans|
  {
    hide Barred; hide Attempt; hide Lists; hide CanonicalKeys; hide Writable;
    if plans != [] {
      BarredStays(d, t, p, lister, cfg, plans[0]);
      BarredThroughout(Attempt(d, lister, cfg, plans[0]).disk, t, p, lister, cfg, plans[1..]);
    }
  }

  lemma {:induction false} StaysIncomplete(d: Disk, p: Pending, lister: Data -> seq<string>, cfg: Config,
          plans: seq<Plan>)
    requires d.pending == Some(p) && !p.started && Lists(lister) && CanonicalKeys(d.tree.data)
    requires !Completable(p, d.tree, lister, cfg)
    ensures var e := Attempts(d, lister, cfg, plans);
            e.pending.Some? && AgreeOff(e.tree.data, d.tree.data, Targets(p.archive.files))
            && (!Startable(p, d.tree.data, lister, cfg) ==> e.tree.data == d.tree.data)
  {
    hide Attempts; hide Lists; hide CanonicalKeys; hide Startable; hide Writable; hide IsSnapshot; hide Targets;
    hide Built;
    hide IsListing;
    if Startable(p, d.tree.data, lister, cfg) {
      BarredThroughout(d, d.tree, p, lister, cfg, plans);
    } else {
      StuckThroughout(d, d.tree.data, p, lister, cfg, plans);
    }
  }

  lemma {:induction false} FaultlessStops(d: Disk, p: Pending, lister: Data -> seq<string>, cfg: Config)
    requires d.pending == Some(p) && !p.started && Lists(lister) && CanonicalKeys(d.tree.data)
    requires !Completable(p, d.tree, lister, cfg)
    ensures !Attempt(d, lister, cfg, []).end.Finished?
  {
    hide Attempt; hide Lists; hide CanonicalKeys; hide Startable; hide Writable; hide IsSnapshot; hide Targets;
    hide Built;
    hide IsListing;
    if Startable(p, d.tree.data, lister, cfg) {
      BarredStays(d, d.tree, p, lister, cfg, []);
    } else {
      StuckStays(d, d.tree.data, p, lister, cfg, []);
    }
  }

  /** A request can complete at all exactly if a start-up without faults completes it, and
      that is if it is valid, the directory can be backed up into an acceptable snapshot, and
      the archive can be written over it. Otherwise it stays for good: over any start-ups with
      any faults, no data file but the archive's own ever changes, and if no start-up gets as
      far as writing, none at all. */
  lemma {:induction false} CompletesIff(d: Disk, p: Pending, lister: Data -> seq<string>, cfg: Config)
    requires d.pending == Some(p) && !p.started && Lists(lister) && CanonicalKeys(d.tree.data)
    ensures Completable(p, d.tree, lister, cfg) <==> Attempt(d, lister, cfg, []).end.Finished?
    ensures Completable(p, d.tree, lister, cfg) <==> exists plans :: Attempts(d, lister, cfg, plans).pending.None?
    ensures !Completable(p, d.tree, lister, cfg) ==>
              forall plans :: Attempts(d, lister, cfg, plans).pending.Some?
                && AgreeOff(Attempts(d, lister, cfg, plans).tree.data, d.tree.data, Targets(p.archive.files))
    ensures !Startable(p, d.tree.data, lister, cfg) ==>
              forall plans :: Attempts(d, lister, cfg, plans).tree.data == d.tree.data
  {
    hide Attempt; hide Attempts; hide Lists; hide CanonicalKeys; hide Startable; hide Writable; hide Targets;
    hide AgreeOff;
    if Completable(p, d.tree, lister, cfg) {
      FaultlessStart(d, p, lister, cfg);
      assert Attempts(d, lister, cfg, [[]]).pending.None? by {
        OnceMore(d, lister, cfg, []);
      }
      assert exists plans :: Attempts(d, lister, cfg, plans).pending.None?;
    } else {
      FaultlessStops(d, p, lister, cfg);
      forall plans: seq<Plan>
        ensures Attempts(d, lister, cfg, plans).pending.Some?
        ensures AgreeOff(Attempts(d, lister, cfg, plans).tree.data, d.tree.data, Targets(p.archive.files))
        ensures !Startable(p, d.tree.data, lister, cfg) ==> Attempts(d, lister, cfg, plans).tree.data == d.tree.data
      {
        StaysIncomplete(d, p, lister, cfg, plans);
      }
      assert !exists plans :: Attempts(d, lister, cfg, plans).pending.None?;
    }
  }

  lemma {:induction false} OnceMore(d: Disk, lister: Data -> seq<string>, cfg: Config, plan: Plan)
    requires Lists(lister)
    ensures Attempts(d, lister, cfg, [plan]) == Attempt(d, lister, cfg, plan).disk
  {
    hide Attempt; hide Lists;
  }

  // ------------------------------------------- valid archives that never complete

  function OneFile(path: string): BackupFile {
    BackupFile(path, [], true)
  }

  lemma {:induction false} PlainNames(names: seq<string>)
    requires names != [] && forall i :: 0 <= i < |names| ==> IsName(names[i])
    requires names[0] != BACKUP_DIR && Join(names, "/") != RESTART_FLAG
    ensures SafeRelativePath(Join(names, "/")) == Some(Join(names, "/"))
  {
    PlainPathsAreSafe(names);
  }

  lemma {:induction false} NoBytes(files: seq<BackupFile>)
    requires forall i :: 0 <= i < |files| ==> files[i].content == []
    ensures TotalBytes(files) == 0
    decreases |files|
  {
    if files != [] {
      NoBytes(files[..|files| - 1]);
    }
  }

  lemma {:induction false} PlainFiles()
    ensures SafeRelativePath("a\0") == Some("a\0") && SafeRelativePath("a") == Some("a")
            && SafeRelativePath("a/b") == Some("a/b")
  {
    assert Join(["a\0"], "/") == "a\0" && Join(["a"], "/") == "a";
    assert ["a", "b"][1..] == ["b"] && Join(["b"], "/") == "b";
    assert Join(["a", "b"], "/") == "a/b";
    PlainNames(["a\0"]);
    PlainNames(["a"]);
    PlainNames(["a", "b"]);
  }

  lemma {:induction false} PlacesTaken(t: Tree, cfg: Config)
    ensures Refused(t, "a\0", cfg) && "a" in Ancestors("a/b")
  {
    assert "a\0"[1] == '\0';
    assert "a/b"[1] == '/' && "a/b"[..1] == "a";
  }

  /** The check accepts a name with a NUL, and a file beside a file under it; no directory
      takes either, so such a request never completes. */
  lemma {:induction false} AcceptedButUnwritable(t: Tree, cfg: Config)
    requires cfg.storeOk("a\0", []) && cfg.storeOk("a", []) && cfg.storeOk("a/b", [])
    ensures var nul := Archive(true, [OneFile("a\0")]); Accepts(nul, cfg) && !Writable(nul.files, t, cfg)
    ensures var nested := Archive(true, [OneFile("a"), OneFile("a/b")]);
            Accepts(nested, cfg) && !Writable(nested.files, t, cfg)
  {
    PlainFiles();
    PlacesTaken(t, cfg);
    hide SafeRelativePath; hide Refused; hide Ancestors;
    var nul, nested := [OneFile("a\0")], [OneFile("a"), OneFile("a/b")];
    NoBytes(nul);
    NoBytes(nested);
    hide TotalBytes;
    assert Canonical(nul[0]) == "a\0" && Canonical(nested[0]) == "a" && Canonical(nested[1]) == "a/b";
  }
}

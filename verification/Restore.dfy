/** What the restore guarantees: over every sequence of start-ups with faults
    anywhere, when a rollback brings everything back, and what a backup is worth. */
module Restore {
  import opened Options
  import opened Paths
  import opened Backup

  function Get(data: Data, x: string): Option<Bytes> {
    if x in data then Some(data[x]) else None
  }

  /** The two directories agree on all files but these. */
  ghost predicate AgreeOff(a: Data, b: Data, paths: set<string>) {
    forall x :: x !in paths ==> Get(a, x) == Get(b, x)
  }

  function Targets(files: seq<BackupFile>): set<string> {
    set i | 0 <= i < |files| :: Canonical(files[i])
  }

  /** The directory with all the archive's files written over it. */
  function Overlay(data: Data, files: seq<BackupFile>): Data
    decreases |files|
  {
    if files == [] then data else Overlay(data[Canonical(files[0]) := files[0].content], files[1..])
  }

  lemma {:induction false} TargetsStep(files: seq<BackupFile>)
    requires files != []
    ensures Targets(files) == {Canonical(files[0])} + Targets(files[1..])
  {
    hide Canonical;
    forall x | x in {Canonical(files[0])} + Targets(files[1..]) ensures x in Targets(files) {
      if x != Canonical(files[0]) {
        var i :| 0 <= i < |files| - 1 && Canonical(files[1..][i]) == x;
        assert files[i + 1] == files[1..][i];
      }
    }
  }

  /** One write touches its own file only, and is done if it is not refused. */
  lemma {:induction false} WriteIs(t: Tree, path: string, content: Bytes, cfg: Config, f: Fault)
    ensures var w := Write(t, path, content, cfg, f);
            && (w.tree.data == t.data || w.tree.data == t.data[path := content])
            && (w.end.Finished? <==> f.Fine? && !Refused(t, path, cfg))
            && (w.end.Finished? ==> w.tree == Stored(t, path, content))
            && !w.end.Undone?
  {
    hide Refused; hide Ancestors;
  }

  /** Restoring touches the archive's files only, and when it finishes has written them all. */
  lemma {:induction false} RestoreFilesIs(t: Tree, files: seq<BackupFile>, cfg: Config, plan: Plan)
    ensures AgreeOff(RestoreFiles(t, files, cfg, plan).tree.data, t.data, Targets(files))
    ensures RestoreFiles(t, files, cfg, plan).end.Finished? ==>
              RestoreFiles(t, files, cfg, plan).tree.data == Overlay(t.data, files)
    decreases |files|
  {
    if files != [] {
      TargetsStep(files);
      WriteIs(t, Canonical(files[0]), files[0].content, cfg, Next(plan));
      hide Canonical; hide Targets; hide Write; hide Refused; hide Ancestors;
      var w := Write(t, Canonical(files[0]), files[0].content, cfg, Next(plan));
      if w.end.Finished? {
        RestoreFilesIs(w.tree, files[1..], cfg, Rest(plan));
      }
    }
  }

  lemma {:induction false} OverlayOff(data: Data, files: seq<BackupFile>)
    ensures AgreeOff(Overlay(data, files), data, Targets(files))
    decreases |files|
  {
    if files != [] {
      TargetsStep(files);
      hide Canonical; hide Targets;
      OverlayOff(data[Canonical(files[0]) := files[0].content], files[1..]);
    }
  }

  /** The outcome of a full restore does not depend on what its files held before. */
  lemma {:induction false} OverlayForgets(a: Data, b: Data, files: seq<BackupFile>)
    requires AgreeOff(a, b, Targets(files))
    ensures Overlay(a, files) == Overlay(b, files)
    decreases |files|
  {
    if files == [] {
      SameGets(a, b);
    } else {
      TargetsStep(files);
      hide Canonical; hide Targets;
      var a1, b1 := a[Canonical(files[0]) := files[0].content], b[Canonical(files[0]) := files[0].content];
      forall x | x !in Targets(files[1..]) ensures Get(a1, x) == Get(b1, x) {
        if x != Canonical(files[0]) {
          assert x !in Targets(files);
        }
      }
      OverlayForgets(a1, b1, files[1..]);
    }
  }

  lemma {:induction false} SameGets(a: Data, b: Data)
    requires AgreeOff(a, b, {})
    ensures a == b
  {
    forall x ensures x in a <==> x in b {
      assert Get(a, x) == Get(b, x);
    }
    forall x | x in a ensures a[x] == b[x] {
      assert Get(a, x) == Get(b, x);
    }
  }

  /** Each file of a valid archive ends up with the archive's content. */
  lemma {:induction false} OverlayAt(data: Data, files: seq<BackupFile>, i: nat)
    requires DistinctPaths(files) && i < |files|
    ensures Get(Overlay(data, files), Canonical(files[i])) == Some(files[i].content)
    decreases |files|
  {
    var after := data[Canonical(files[0]) := files[0].content];
    var rest := files[1..];
    forall k, l | 0 <= k < l < |rest| ensures Canonical(rest[k]) != Canonical(rest[l]) {
      assert rest[k] == files[k + 1] && rest[l] == files[l + 1];
    }
    hide Canonical;
    if i == 0 {
      OverlayOff(after, rest);
      assert Canonical(files[0]) !in Targets(rest) by {
        forall k | 0 <= k < |rest| ensures Canonical(rest[k]) != Canonical(files[0]) {
          assert rest[k] == files[k + 1];
        }
      }
    } else {
      OverlayAt(after, rest, i - 1);
    }
  }

  // -------------------------------------------------------------- snapshots

  /** Keys are canonical: the check gives each back unchanged or refuses it. */
  ghost predicate CanonicalKeys(data: Data) {
    forall k :: k in data && SafeRelativePath(k).Some? ==> SafeRelativePath(k) == Some(k)
  }

  /** A snapshot of exactly this directory. */
  ghost predicate IsSnapshot(a: Archive, data: Data, cfg: Config) {
    exists listing: seq<string> :: IsListing(listing, data) && Built(data, listing, cfg) == Some(a)
  }

  lemma {:induction false} SnapAt(data: Data, listing: seq<string>, i: nat)
    requires (forall k :: k in listing ==> k in data) && i < |listing|
    ensures |Snap(data, listing)| == |listing|
    ensures Snap(data, listing)[i] == BackupFile(SafeRelativePath(listing[i]).GetOr(""), data[listing[i]], true)
    decreases |listing|
  {
    hide SafeRelativePath;
    var n := |listing| - 1;
    if i < n {
      SnapAt(data, listing[..n], i);
    } else if n > 0 {
      SnapAt(data, listing[..n], 0);
    }
  }

  /** A snapshot lists the visible files under their own names with their bytes. */
  lemma {:induction false} SnapshotAt(a: Archive, data: Data, listing: seq<string>, cfg: Config, i: nat)
    requires CanonicalKeys(data) && IsListing(listing, data) && Built(data, listing, cfg) == Some(a) && i < |listing|
    ensures |a.files| == |listing| && a.files[i] == BackupFile(listing[i], data[listing[i]], true)
    ensures Canonical(a.files[i]) == listing[i] && SafeRelativePath(listing[i]) == Some(listing[i])
  {
    SnapAt(data, listing, i);
    assert listing[i] in listing;
    hide SafeRelativePath; hide Visible;
  }

  lemma {:induction false} SnapshotLists(a: Archive, data: Data, listing: seq<string>, cfg: Config)
    requires CanonicalKeys(data) && IsListing(listing, data) && Built(data, listing, cfg) == Some(a)
    ensures |a.files| == |listing| && DistinctPaths(a.files)
    ensures forall x :: x in Targets(a.files) <==> x in listing
    ensures forall x :: x in PathsOf(a) <==> x in listing
  {
    forall i | 0 <= i < |listing|
      ensures |a.files| == |listing| && a.files[i].path == listing[i] && Canonical(a.files[i]) == listing[i]
    {
      SnapshotAt(a, data, listing, cfg, i);
    }
    if listing == [] {
      assert a.files == [];
    }
    hide Canonical; hide Built; hide SafeRelativePath; hide Visible;
    forall x | x in listing ensures x in Targets(a.files) && x in PathsOf(a) {
      var i :| 0 <= i < |listing| && listing[i] == x;
      assert Canonical(a.files[i]) == x && a.files[i].path == x;
    }
  }

  /** Restoring a directory's own snapshot over anything gives its visible files back
      and leaves the others. */
  lemma {:induction false} SnapshotRoundTrip(a: Archive, data: Data, other: Data, listing: seq<string>, cfg: Config,
          x: string)
    requires CanonicalKeys(data) && IsListing(listing, data) && Built(data, listing, cfg) == Some(a)
    ensures Get(Overlay(other, a.files), x) == if x in data && Visible(x) then Some(data[x]) else Get(other, x)
  {
    SnapshotLists(a, data, listing, cfg);
    OverlayOff(other, a.files);
    if x in listing {
      var i :| 0 <= i < |listing| && listing[i] == x;
      SnapshotAt(a, data, listing, cfg, i);
      OverlayAt(other, a.files, i);
    }
    hide Built; hide Visible; hide Overlay; hide Targets;
  }

  /** A backup just made is accepted exactly if the content of every file in it is. */
  lemma {:induction false} BackupAcceptedIff(a: Archive, data: Data, listing: seq<string>, cfg: Config)
    requires CanonicalKeys(data) && IsListing(listing, data) && Built(data, listing, cfg) == Some(a)
    ensures Accepts(a, cfg) <==> forall k :: k in data && Visible(k) ==> cfg.storeOk(k, data[k])
  {
    SnapshotLists(a, data, listing, cfg);
    forall i | 0 <= i < |listing| ensures FileOk(a.files[i], cfg) <==> cfg.storeOk(listing[i], data[listing[i]]) {
      SnapshotAt(a, data, listing, cfg, i);
    }
    assert a.current && |a.files| <= MAX_FILES && TotalBytes(a.files) <= cfg.maxBytes;
    hide FileOk; hide Built; hide Visible; hide TotalBytes; hide SafeRelativePath;
    if Accepts(a, cfg) {
      forall k | k in data && Visible(k) ensures cfg.storeOk(k, data[k]) {
        assert k in listing;
        var i :| 0 <= i < |listing| && listing[i] == k;
        assert FileOk(a.files[i], cfg);
      }
    }
    if forall k :: k in data && Visible(k) ==> cfg.storeOk(k, data[k]) {
      forall i | 0 <= i < |a.files| ensures FileOk(a.files[i], cfg) {
        assert listing[i] in listing;
      }
    }
  }

  // --------------------------------------------------------------- rollback

  lemma {:induction false} ResolvesToCanonical(f: BackupFile)
    ensures Resolves(f.path).Some? ==> Resolves(f.path) == Some(Canonical(f))
  {
    hide SafeRelativePath;
  }

  /** This file is one the second half of a rollback removes. */
  predicate IsExtra(f: BackupFile, listed: set<string>) {
    f.path !in listed && Resolves(f.path).Some?
  }

  ghost predicate Removes(files: seq<BackupFile>, listed: set<string>, x: string) {
    exists i :: 0 <= i < |files| && IsExtra(files[i], listed) && Canonical(files[i]) == x
  }

  lemma {:induction false} RemovesStep(files: seq<BackupFile>, listed: set<string>, x: string)
    requires files != []
    ensures Removes(files, listed, x)
            <==> (IsExtra(files[0], listed) && Canonical(files[0]) == x) || Removes(files[1..], listed, x)
  {
    hide IsExtra; hide Canonical;
    var rest := files[1..];
    if Removes(rest, listed, x) {
      var i :| 0 <= i < |rest| && IsExtra(rest[i], listed) && Canonical(rest[i]) == x;
      assert rest[i] == files[i + 1];
    }
    if Removes(files, listed, x) {
      var i :| 0 <= i < |files| && IsExtra(files[i], listed) && Canonical(files[i]) == x;
      assert i > 0 ==> rest[i - 1] == files[i];
    }
  }

  /** Removal takes away nothing but archive targets, and finished, exactly the extras. */
  lemma {:induction false} RemoveExtraAt(t: Tree, files: seq<BackupFile>, listed: set<string>, plan: Plan, x: string)
    ensures var r := RemoveExtra(t, files, listed, plan);
            && r.tree.dirs == t.dirs
            && (x !in Targets(files) ==> Get(r.tree.data, x) == Get(t.data, x))
            && (r.end.Finished? ==> Get(r.tree.data, x) == if Removes(files, listed, x) then None else Get(t.data, x))
    decreases |files|
  {
    if files != [] {
      TargetsStep(files);
      RemovesStep(files, listed, x);
      ResolvesToCanonical(files[0]);
      var f := Next(plan);
      hide Canonical; hide Resolves; hide Targets; hide Removes;
      if !IsExtra(files[0], listed) || Canonical(files[0]) !in t.data {
        RemoveExtraAt(t, files[1..], listed, plan, x);
      } else if f.Fine? {
        RemoveExtraAt(t.(data := t.data - {Canonical(files[0])}), files[1..], listed, Rest(plan), x);
      }
    }
  }

  /** Where a rollback stands while it runs: off the archive's targets all is as it was. */
  lemma {:induction false} RollBackOff(t: Tree, orig: Data, before: Archive, archive: Archive,
          listing: seq<string>, cfg: Config, plan: Plan)
    requires CanonicalKeys(orig) && IsListing(listing, orig) && Built(orig, listing, cfg) == Some(before)
    requires AgreeOff(t.data, orig, Targets(archive.files))
    ensures AgreeOff(RollBack(t, before, archive, cfg, plan).tree.data, orig, Targets(archive.files))
  {
    var r := RestoreFiles(t, before.files, cfg, plan);
    forall x | x !in Targets(archive.files) ensures Get(r.tree.data, x) == Get(orig, x) {
      SnapshotPartly(t, orig, before, listing, cfg, plan, x);
    }
    if r.end.Finished? {
      forall x | x !in Targets(archive.files)
        ensures Get(RollBack(t, before, archive, cfg, plan).tree.data, x) == Get(orig, x)
      {
        RemoveExtraAt(r.tree, archive.files, PathsOf(before), r.plan, x);
      }
    }
  }

  /** Writing back a snapshot, even in part, never takes a file away from the original. */
  lemma {:induction false} SnapshotPartly(t: Tree, orig: Data, before: Archive, listing: seq<string>, cfg: Config,
          plan: Plan, x: string)
    requires CanonicalKeys(orig) && IsListing(listing, orig) && Built(orig, listing, cfg) == Some(before)
    requires Get(t.data, x) == Get(orig, x)
    ensures Get(RestoreFiles(t, before.files, cfg, plan).tree.data, x) == Get(orig, x)
  {
    forall i | 0 <= i < |before.files| && Canonical(before.files[i]) == x
      ensures Get(orig, x) == Some(before.files[i].content)
    {
      SnapshotLists(before, orig, listing, cfg);
      SnapshotAt(before, orig, listing, cfg, i);
      assert listing[i] in listing;
    }
    hide Built; hide IsListing; hide CanonicalKeys;
    WritesKeep(t, before.files, cfg, plan, x, Get(orig, x));
  }

  lemma {:induction false} WritesKeep(t: Tree, files: seq<BackupFile>, cfg: Config, plan: Plan, x: string,
          v: Option<Bytes>)
    requires Get(t.data, x) == v
            && forall i :: 0 <= i < |files| && Canonical(files[i]) == x ==> v == Some(files[i].content)
    ensures Get(RestoreFiles(t, files, cfg, plan).tree.data, x) == v
    decreases |files|
  {
    if files != [] {
      WriteIs(t, Canonical(files[0]), files[0].content, cfg, Next(plan));
      hide Canonical; hide Write; hide Refused; hide Ancestors;
      var w := Write(t, Canonical(files[0]), files[0].content, cfg, Next(plan));
      assert Get(w.tree.data, x) == v;
      var rest := files[1..];
      forall i | 0 <= i < |rest| && Canonical(rest[i]) == x ensures v == Some(rest[i].content) {
        assert rest[i] == files[i + 1];
      }
      if w.end.Finished? {
        WritesKeep(w.tree, rest, cfg, Rest(plan), x, v);
      }
    }
  }

  /** This entry's file is the original's after a rollback of `data` that went through. */
  ghost predicate RollsBack(f: BackupFile, data: Data, orig: Data, listed: set<string>) {
    || f.path in listed
    || if Resolves(f.path).Some? then Canonical(f) !in orig
       else Canonical(f) in listed || Get(data, Canonical(f)) == Get(orig, Canonical(f))
  }

  /** A finished rollback, file by file. */
  lemma {:induction false} RolledBackAt(t: Tree, orig: Data, before: Archive, archive: Archive,
          listing: seq<string>, cfg: Config, plan: Plan, x: string)
    requires CanonicalKeys(orig) && IsListing(listing, orig) && Built(orig, listing, cfg) == Some(before)
    requires RollBack(t, before, archive, cfg, plan).end.Finished?
    ensures Get(RollBack(t, before, archive, cfg, plan).tree.data, x)
            == if Removes(archive.files, PathsOf(before), x) then None
               else if x in listing then Get(orig, x) else Get(t.data, x)
  {
    var r := RestoreFiles(t, before.files, cfg, plan);
    RestoreFilesIs(t, before.files, cfg, plan);
    SnapshotRoundTrip(before, orig, t.data, listing, cfg, x);
    RemoveExtraAt(r.tree, archive.files, PathsOf(before), r.plan, x);
    hide Removes; hide Built; hide Visible; hide RestoreFiles; hide RemoveExtra; hide PathsOf; hide Overlay;
    hide CanonicalKeys;
  }

  /** A finished rollback brings the directory back exactly if every archive entry rolls back. */
  lemma {:induction false} RollBackRestoresIff(t: Tree, orig: Data, before: Archive, archive: Archive,
          listing: seq<string>, cfg: Config, plan: Plan)
    requires CanonicalKeys(orig) && IsListing(listing, orig) && Built(orig, listing, cfg) == Some(before)
    requires AgreeOff(t.data, orig, Targets(archive.files)) && Accepts(archive, cfg)
    requires RollBack(t, before, archive, cfg, plan).end.Finished?
    ensures RollBack(t, before, archive, cfg, plan).tree.data == orig
            <==> forall i :: 0 <= i < |archive.files| ==> RollsBack(archive.files[i], t.data, orig, PathsOf(before))
  {
    var after := RollBack(t, before, archive, cfg, plan).tree.data;
    var listed := PathsOf(before);
    SnapshotLists(before, orig, listing, cfg);
    if forall i :: 0 <= i < |archive.files| ==> RollsBack(archive.files[i], t.data, orig, listed) {
      forall x ensures Get(after, x) == Get(orig, x) {
        RolledBackAt(t, orig, before, archive, listing, cfg, plan, x);
        BackAt(t.data, orig, archive.files, listed, x);
      }
      SameGets(after, orig);
    }
    if after == orig {
      forall i | 0 <= i < |archive.files| ensures RollsBack(archive.files[i], t.data, orig, listed) {
        RolledBackAt(t, orig, before, archive, listing, cfg, plan, Canonical(archive.files[i]));
        AwayAt(t.data, orig, archive.files, listed, cfg, i, after);
      }
    }
    hide Built; hide RollBack; hide IsListing;
  }

  lemma {:induction false} BackAt(data: Data, orig: Data, files: seq<BackupFile>, listed: set<string>, x: string)
    requires forall i :: 0 <= i < |files| ==> RollsBack(files[i], data, orig, listed)
    requires AgreeOff(data, orig, Targets(files))
    requires forall k :: k in listed ==> SafeRelativePath(k) == Some(k)
    ensures (if Removes(files, listed, x) then None else if x in listed then Get(orig, x) else Get(data, x))
            == Get(orig, x)
  {
    hide Resolves;
    if Removes(files, listed, x) {
      var i :| 0 <= i < |files| && IsExtra(files[i], listed) && Canonical(files[i]) == x;
      assert RollsBack(files[i], data, orig, listed);
    } else if x !in listed && x in Targets(files) {
      var i :| 0 <= i < |files| && Canonical(files[i]) == x;
      assert RollsBack(files[i], data, orig, listed) && !IsExtra(files[i], listed);
    }
  }

  lemma {:induction false} AwayAt(data: Data, orig: Data, files: seq<BackupFile>, listed: set<string>, cfg: Config,
          i: nat, after: Data)
    requires i < |files| && DistinctPaths(files)
    requires var x := Canonical(files[i]);
             Get(orig, x)
             == if Removes(files, listed, x) then None else if x in listed then Get(orig, x) else Get(data, x)
    ensures RollsBack(files[i], data, orig, listed)
  {
    hide Resolves; hide Canonical;
    var x := Canonical(files[i]);
    if Removes(files, listed, x) {
      var j :| 0 <= j < |files| && IsExtra(files[j], listed) && Canonical(files[j]) == x;
      assert j == i;
    }
  }

  // ------------------------------------------------- any number of start-ups

  /** A way of listing directories; which order it uses does not matter. */
  ghost predicate Lists(lister: Data -> seq<string>) {
    forall data :: IsListing(lister(data), data)
  }

  ghost function Attempt(d: Disk, lister: Data -> seq<string>, cfg: Config, plan: Plan): Applied
    requires Lists(lister)
  {
    assert IsListing(lister(d.tree.data), d.tree.data);
    Apply(d, lister(d.tree.data), cfg, plan)
  }

  /** The disk after these start-ups, each with its own faults. */
  ghost function Attempts(d: Disk, lister: Data -> seq<string>, cfg: Config, plans: seq<Plan>): Disk
    requires Lists(lister)
    decreases |plans|
  {
    if plans == [] then d else Attempts(Attempt(d, lister, cfg, plans[0]).disk, lister, cfg, plans[1..])
  }

  /** Where a requested restore of `archive` over `orig` can stand between two start-ups. */
  ghost predicate InProgress(d: Disk, orig: Data, archive: Archive, name: string, cfg: Config) {
    match d.pending
    case None => AgreeOff(d.tree.data, Overlay(orig, archive.files), {RESTART_FLAG})
    case Some(p) =>
      && p.archive == archive && p.snapshot == name
      && if !p.started then d.tree.data == orig
         else AgreeOff(d.tree.data, orig, Targets(archive.files))
              && name in d.snapshots && IsSnapshot(d.snapshots[name], orig, cfg)
  }

  lemma {:induction false} ConcludeProgress(d: Disk, orig: Data, archive: Archive, name: string, cfg: Config,
          plan: Plan)
    requires InProgress(d, orig, archive, name, cfg) && d.pending.Some? && d.pending.value.started
    requires d.tree.data == Overlay(orig, archive.files)
    ensures InProgress(Conclude(d, plan).disk, orig, archive, name, cfg)
    ensures Conclude(d, plan).end.Finished? ==> Conclude(d, plan).disk.pending.None?
  {
    hide Overlay; hide Targets; hide IsSnapshot;
  }

  lemma {:induction false} RestoredProgress(d: Disk, orig: Data, cfg: Config, plan: Plan)
    requires d.pending.Some? && d.pending.value.started && CanonicalKeys(orig)
    requires InProgress(d, orig, d.pending.value.archive, d.pending.value.snapshot, cfg)
    ensures var p := d.pending.value;
            && InProgress(Restored(d, p, cfg, plan).disk, orig, p.archive, p.snapshot, cfg)
            && (Restored(d, p, cfg, plan).end.Finished? ==> Restored(d, p, cfg, plan).disk.pending.None?)
  {
    var p := d.pending.value;
    var before := d.snapshots[p.snapshot];
    if Accepts(before, cfg) {
      var r := RestoreFiles(d.tree, p.archive.files, cfg, plan);
      RestoreFilesIs(d.tree, p.archive.files, cfg, plan);
      assert AgreeOff(r.tree.data, orig, Targets(p.archive.files)) by {
        hide RestoreFiles; hide Targets;
        forall x | x !in Targets(p.archive.files) ensures Get(r.tree.data, x) == Get(orig, x) {
          assert Get(r.tree.data, x) == Get(d.tree.data, x);
        }
      }
      OverlayForgets(d.tree.data, orig, p.archive.files);
      var listing: seq<string> :| IsListing(listing, orig) && Built(orig, listing, cfg) == Some(before);
      RollBackOff(r.tree, orig, before, p.archive, listing, cfg, r.plan);
      if r.end.Finished? {
        ConcludeProgress(d.(tree := r.tree), orig, p.archive, p.snapshot, cfg, r.plan);
      }
    }
    hide Overlay; hide Targets; hide IsSnapshot; hide Accepts; hide RestoreFiles; hide RollBack; hide Conclude;
    hide Built; hide IsListing; hide AgreeOff; hide CanonicalKeys;
  }

  /** The disk once the snapshot is taken and the request marked as started. */
  function Marked(d: Disk, p: Pending, snapshot: Archive): Disk {
    d.(snapshots := d.snapshots[p.snapshot := snapshot], pending := Some(p.(started := true)))
  }

  /** A start-up that takes the snapshot either stops on the way or goes on from it. */
  lemma {:induction false} StartedIs(d: Disk, p: Pending, listing: seq<string>, cfg: Config, plan: Plan)
    requires d.pending == Some(p) && forall k :: k in listing ==> k in d.tree.data
    ensures var r := Started(d, p, listing, cfg, plan); var snapshot := Built(d.tree.data, listing, cfg);
            || (snapshot.Some?
                && r == Restored(Marked(d, p, snapshot.value), p.(started := true), cfg, Rest(Rest(plan))))
            || (!r.end.Undone? && !r.end.Finished? && r.disk.tree == d.tree
                && (r.disk.pending == d.pending || (snapshot.Some? && r.disk == Marked(d, p, snapshot.value))))
  {
    hide Built; hide Restored;
  }

  lemma {:induction false} MarkedProgress(d: Disk, orig: Data, p: Pending, listing: seq<string>, cfg: Config,
          snapshot: Archive)
    requires CanonicalKeys(orig) && IsListing(listing, orig) && d.tree.data == orig
            && Built(orig, listing, cfg) == Some(snapshot)
    ensures InProgress(Marked(d, p, snapshot), orig, p.archive, p.snapshot, cfg)
  {
    assert IsSnapshot(snapshot, orig, cfg);
    hide IsSnapshot; hide Built; hide IsListing; hide Targets;
  }

  lemma {:induction false} StartedProgress(d: Disk, orig: Data, listing: seq<string>, cfg: Config, plan: Plan)
    requires d.pending.Some? && !d.pending.value.started && CanonicalKeys(orig) && IsListing(listing, d.tree.data)
    requires InProgress(d, orig, d.pending.value.archive, d.pending.value.snapshot, cfg)
    ensures var p := d.pending.value;
            && InProgress(Started(d, p, listing, cfg, plan).disk, orig, p.archive, p.snapshot, cfg)
            && (Started(d, p, listing, cfg, plan).end.Finished? ==>
               Started(d, p, listing, cfg, plan).disk.pending.None?)
  {
    var p := d.pending.value;
    var snapshot := Built(d.tree.data, listing, cfg);
    StartedIs(d, p, listing, cfg, plan);
    assert d.tree.data == orig;
    hide Started; hide Overlay; hide Targets; hide IsSnapshot; hide Restored; hide Built; hide AgreeOff;
    hide CanonicalKeys;
    if snapshot.Some? {
      MarkedProgress(d, orig, p, listing, cfg, snapshot.value);
      RestoredProgress(Marked(d, p, snapshot.value), orig, cfg, Rest(Rest(plan)));
    }
  }

  lemma {:induction false} AttemptProgress(d: Disk, orig: Data, archive: Archive, name: string,
          lister: Data -> seq<string>, cfg: Config, plan: Plan)
    requires Lists(lister) && CanonicalKeys(orig) && InProgress(d, orig, archive, name, cfg)
    ensures InProgress(Attempt(d, lister, cfg, plan).disk, orig, archive, name, cfg)
    ensures Attempt(d, lister, cfg, plan).end.Finished? ==> Attempt(d, lister, cfg, plan).disk.pending.None?
  {
    assert IsListing(lister(d.tree.data), d.tree.data);
    if d.pending.Some? {
      if d.pending.value.started {
        RestoredProgress(d, orig, cfg, plan);
      } else {
        StartedProgress(d, orig, lister(d.tree.data), cfg, plan);
      }
    }
    hide InProgress; hide Accepts; hide SnapshotNameOk; hide Restored; hide Started; hide CanonicalKeys; hide IsListing;
  }

  /** The restore can be interrupted anywhere and tried any number of times: while the
      request is on disk, the data differs from the original at most in the archive's own
      files and, once marked started, the snapshot is of the original, never of a half-
      restored directory; once the request is gone, the data is the original with the
      whole archive written over it, whatever becomes of the restart flag. */
  lemma {:induction false} RestoreIsRestartable(d: Disk, p: Pending, lister: Data -> seq<string>, cfg: Config,
          plans: seq<Plan>)
    requires d.pending == Some(p) && !p.started && Lists(lister) && CanonicalKeys(d.tree.data)
    ensures InProgress(Attempts(d, lister, cfg, plans), d.tree.data, p.archive, p.snapshot, cfg)
  {
    hide Attempts;
    AttemptsProgress(d, d.tree.data, p.archive, p.snapshot, lister, cfg, plans);
  }

  lemma {:induction false} AttemptsProgress(d: Disk, orig: Data, archive: Archive, name: string,
          lister: Data -> seq<string>, cfg: Config, plans: seq<Plan>)
    requires Lists(lister) && CanonicalKeys(orig) && InProgress(d, orig, archive, name, cfg)
    ensures InProgress(Attempts(d, lister, cfg, plans), orig, archive, name, cfg)
    decreases |plans|
  {
    hide InProgress; hide Attempt; hide Lists; hide CanonicalKeys;
    if plans != [] {
      AttemptProgress(d, orig, archive, name, lister, cfg, plans[0]);
      AttemptsProgress(Attempt(d, lister, cfg, plans[0]).disk, orig, archive, name, lister, cfg, plans[1..]);
    }
  }

  /** A request touches no data file, whatever happens to its three writes; and if it gets
      onto the disk, its snapshot is there before it, of the data as they were. */
  lemma {:induction false} RequestIsHarmless(d: Disk, archive: Archive, name: string, flag: Bytes,
          lister: Data -> seq<string>, cfg: Config, plan: Plan)
    requires Lists(lister)
    ensures IsListing(lister(d.tree.data), d.tree.data)
    ensures var r := Stage(d, archive, name, flag, lister(d.tree.data), cfg, plan);
            && AgreeOff(r.disk.tree.data, d.tree.data, {RESTART_FLAG})
            && (r.disk.pending == d.pending
                || (r.disk.pending == Some(Pending(archive, name, false)) && RESTART_FLAG in r.disk.tree.data
                    && name in r.disk.snapshots && IsSnapshot(r.disk.snapshots[name], d.tree.data, cfg)))
            && (r.end.Finished? ==>
                  r.disk.pending == Some(Pending(archive, name, false))
                    && Get(r.disk.tree.data, RESTART_FLAG) == Some(flag))
  {
    assert IsListing(lister(d.tree.data), d.tree.data);
    hide Built; hide IsListing;
  }
}

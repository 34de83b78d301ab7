/** The restore of `src/services/backup.rs`: a staged archive applied at start-up,
    with a failure or a crash possible at every single file operation. */
module Backup {
  import opened Options
  import opened Paths

  newtype Byte = x: int | 0 <= x < 256
  type Bytes = seq<Byte>

  /** The regular files under the data directory, outside `backups/`, by canonical path. */
  type Data = map<string, Bytes>

  const MAX_FILES := 4096

  /** `intact` is whether base64, recorded size and SHA-256 agree with the content. */
  datatype BackupFile = BackupFile(path: string, content: Bytes, intact: bool)

  /** `current` is whether format, format version and schema version are supported. */
  datatype Archive = Archive(current: bool, files: seq<BackupFile>)

  datatype Pending = Pending(archive: Archive, snapshot: string, started: bool)

  /** The files, and the directories below the data directory by canonical path. */
  datatype Tree = Tree(data: Data, dirs: set<string>)

  datatype Disk = Disk(tree: Tree, pending: Option<Pending>, snapshots: map<string, Archive>)

  /** What happens to one file operation: it works; it fails, without its effect, although
      some directories may have been made for it, or with it; or the process dies likewise. */
  datatype Fault = Fine | Fails(made: set<string>) | FailsLate | Halts(made: set<string>) | HaltsLate

  type Plan = seq<Fault>

  /** How a start-up ends; `Undone` returns the error of a failed write after a rollback
      that went through. */
  datatype End = Finished | Errored | Undone | Halted

  function Next(plan: Plan): Fault {
    if plan == [] then Fine else plan[0]
  }

  function Rest(plan: Plan): Plan {
    if plan == [] then [] else plan[1..]
  }

  predicate Happens(f: Fault) {
    f.Fine? || f.FailsLate? || f.HaltsLate?
  }

  function EndOf(f: Fault): End {
    match f
    case Fine => Finished
    case Fails(_) => Errored
    case FailsLate => Errored
    case Halts(_) => Halted
    case HaltsLate => Halted
  }

  /** What the program runs with: the size cap, whether the content of a known store file
      decodes and every file is UTF-8, and what the file system finds short enough: the path
      of a file with the name of its temporary file, and the path of a directory. */
  datatype Config = Config(
    maxBytes: nat,
    storeOk: (string, Bytes) -> bool,
    fits: string -> bool,
    dirFits: string -> bool)

  // -------------------------------------------------------------- one write

  /** The directories a path lies under. */
  function Ancestors(path: string): set<string> {
    set i | 0 <= i < |path| && path[i] == '/' :: path[..i]
  }

  /** Names the system takes: none with a NUL, none too long. */
  predicate Takes(path: string, cfg: Config) {
    '\0' !in path && cfg.fits(path)
  }

  /** The system always refuses to write here: the name, a directory in the file's place, or
      a file in a directory's. */
  predicate Refused(t: Tree, path: string, cfg: Config) {
    !Takes(path, cfg) || path in t.dirs || !(Ancestors(path) !! t.data.Keys)
  }

  function Stored(t: Tree, path: string, content: Bytes): Tree {
    Tree(t.data[path := content], t.dirs + Ancestors(path))
  }

  /** The directories made for a write that then comes to nothing: those the fault says, or,
      when it is the system that refuses, all that it takes; none if a NUL is among them. */
  function Made(path: string, cfg: Config, f: Fault): set<string> {
    if f.Fails? || f.Halts? then Ancestors(path) * f.made
    else if exists a :: a in Ancestors(path) && '\0' in a then {}
    else set a | a in Ancestors(path) && cfg.dirFits(a)
  }

  /** What an unsuccessful write leaves: some of the directories made for it. */
  function Unstored(t: Tree, path: string, cfg: Config, f: Fault): Tree {
    if Ancestors(path) !! t.data.Keys then t.(dirs := t.dirs + Made(path, cfg, f)) else t
  }

  datatype Outcome = Outcome(tree: Tree, end: End)

  /** `write_file_atomic`: make the directories, write a temporary file, rename it. */
  function Write(t: Tree, path: string, content: Bytes, cfg: Config, f: Fault): Outcome {
    if Refused(t, path, cfg) then Outcome(Unstored(t, path, cfg, f), if f.Fine? then Errored else EndOf(f))
    else Outcome(if Happens(f) then Stored(t, path, content) else Unstored(t, path, cfg, f), EndOf(f))
  }

  // --------------------------------------------------- building and validating

  /** A path lies under another if a slash and something follow it. */
  lemma {:induction false} AncestorIff(path: string, a: string)
    ensures a in Ancestors(path) <==> exists rest: string :: path == a + "/" + rest
  {
    if a in Ancestors(path) {
      var i :| 0 <= i < |path| && path[i] == '/' && path[..i] == a;
      assert path == a + "/" + path[i + 1..];
    }
    if rest: string :| path == a + "/" + rest {
      assert path[|a|] == '/' && path[..|a|] == a;
    }
  }

  /** One write, case by case: under a file nothing happens at all; what the system takes is
      stored, with its directories, unless the fault prevents it; what it refuses or a fault
      prevents leaves the files alone, and of its directories those the fault says, or, for a
      name refused without a fault, all it takes; and it never counts as done. */
  lemma {:induction false} WriteMeans(t: Tree, path: string, content: Bytes, cfg: Config, f: Fault)
    ensures var w := Write(t, path, content, cfg, f);
            var below := exists k: string, rest: string :: k in t.data && path == k + "/" + rest;
            var taken := '\0' !in path && cfg.fits(path) && path !in t.dirs && !below;
            && (w.end.Finished? <==> taken && f.Fine?)
            && (w.end.Halted? <==> f.Halts? || f.HaltsLate?)
            && w.tree.data == (if taken && !f.Fails? && !f.Halts? then t.data[path := content] else t.data)
            && (below ==> w.tree == t)
            && (taken && !f.Fails? && !f.Halts? ==> w.tree.dirs == t.dirs + Ancestors(path))
            && (!below && (f.Fails? || f.Halts?) ==> w.tree.dirs == t.dirs + Ancestors(path) * f.made)
            && (!below && !taken && f.Fine? && (forall a :: a in Ancestors(path) ==> '\0' !in a && cfg.dirFits(a)) ==>
                  w.tree.dirs == t.dirs + Ancestors(path))
  {
    var below := exists k: string, rest: string :: k in t.data && path == k + "/" + rest;
    assert below <==> !(Ancestors(path) !! t.data.Keys) by {
      if below {
        var k: string, rest: string :| k in t.data && path == k + "/" + rest;
        AncestorIff(path, k);
      }
      if k :| k in Ancestors(path) && k in t.data.Keys {
        AncestorIff(path, k);
        var rest: string :| path == k + "/" + rest;
      }
    }
    hide Ancestors;
  }

  function TotalBytes(files: seq<BackupFile>): nat {
    if files == [] then 0 else TotalBytes(files[..|files| - 1]) + |files[|files| - 1].content|
  }

  function Canonical(f: BackupFile): string {
    SafeRelativePath(f.path).GetOr("")
  }

  predicate FileOk(f: BackupFile, cfg: Config) {
    SafeRelativePath(f.path).Some? && f.intact && cfg.storeOk(Canonical(f), f.content)
  }

  ghost predicate DistinctPaths(files: seq<BackupFile>) {
    forall i, j :: 0 <= i < j < |files| ==> Canonical(files[i]) != Canonical(files[j])
  }

  ghost predicate Accepts(a: Archive, cfg: Config) {
    && a.current && |a.files| <= MAX_FILES && TotalBytes(a.files) <= cfg.maxBytes
    && DistinctPaths(a.files)
    && forall i :: 0 <= i < |a.files| ==> FileOk(a.files[i], cfg)
  }

  function Snap(data: Data, listing: seq<string>): seq<BackupFile>
    requires forall k :: k in listing ==> k in data
  {
    if listing == [] then []
    else
      var path := listing[|listing| - 1];
      Snap(data, listing[..|listing| - 1]) + [BackupFile(SafeRelativePath(path).GetOr(""), data[path], true)]
  }

  predicate Backable(data: Data, listing: seq<string>, cfg: Config)
    requires forall k :: k in listing ==> k in data
  {
    && |listing| <= MAX_FILES && TotalBytes(Snap(data, listing)) <= cfg.maxBytes
    && forall k :: k in listing ==> SafeRelativePath(k).Some?
  }

  /** `listing` is what `collect_files` finds, in some order. */
  ghost predicate IsListing(listing: seq<string>, data: Data) {
    && (forall k :: k in listing <==> k in data && Visible(k))
    && (forall i, j :: 0 <= i < j < |listing| ==> listing[i] != listing[j])
  }

  function Built(data: Data, listing: seq<string>, cfg: Config): Option<Archive>
    requires forall k :: k in listing ==> k in data
  {
    if Backable(data, listing, cfg) then Some(Archive(true, Snap(data, listing))) else None
  }

  lemma {:induction false} SnapStep(data: Data, listing: seq<string>, i: nat)
    requires i < |listing| && forall k :: k in listing ==> k in data
    ensures Snap(data, listing[..i + 1])
            == Snap(data, listing[..i]) + [BackupFile(SafeRelativePath(listing[i]).GetOr(""), data[listing[i]], true)]
    ensures TotalBytes(Snap(data, listing[..i + 1])) == TotalBytes(Snap(data, listing[..i])) + |data[listing[i]]|
    ensures forall k :: k in listing[..i + 1] <==> k in listing[..i] || k == listing[i]
  {
    hide SafeRelativePath;
    assert listing[..i + 1][..i] == listing[..i];
  }

  lemma {:induction false} SnapGrows(data: Data, listing: seq<string>, i: nat)
    requires i <= |listing| && forall k :: k in listing ==> k in data
    ensures TotalBytes(Snap(data, listing[..i])) <= TotalBytes(Snap(data, listing))
    decreases |listing| - i
  {
    if i == |listing| {
      assert listing[..i] == listing;
    } else {
      SnapStep(data, listing, i);
      SnapGrows(data, listing, i + 1);
    }
  }

  method BuildArchive(data: Data, listing: seq<string>, cfg: Config) returns (a: Option<Archive>)
    requires forall k :: k in listing ==> k in data
    ensures a == Built(data, listing, cfg)
    ensures a.Some? <==>
            && |listing| <= 4096 && TotalBytes(Snap(data, listing)) <= cfg.maxBytes
            && forall k :: k in listing ==> SafeRelativePath(k).Some?
  {
    hide SafeRelativePath; hide Snap; hide TotalBytes;
    if |listing| > MAX_FILES {
      return None;
    }
    var total := 0;
    var files: seq<BackupFile> := [];
    assert Snap(data, listing[..0]) == [] && TotalBytes([]) == 0 by { SnapEmpty(data, listing); }
    for i := 0 to |listing|
      invariant files == Snap(data, listing[..i]) && total == TotalBytes(files) <= cfg.maxBytes
      invariant forall k :: k in listing[..i] ==> SafeRelativePath(k).Some?
    {
      var relative := SafeRelativePath(listing[i]);
      SnapStep(data, listing, i);
      if relative.None? {
        assert listing[i] in listing;
        return None;
      }
      total := total + |data[listing[i]]|;
      if total > cfg.maxBytes {
        SnapGrows(data, listing, i + 1);
        return None;
      }
      files := files + [BackupFile(relative.value, data[listing[i]], true)];
    }
    assert listing[..|listing|] == listing;
    return Some(Archive(true, files));
  }

  lemma {:induction false} SnapEmpty(data: Data, listing: seq<string>)
    requires forall k :: k in listing ==> k in data
    ensures Snap(data, listing[..0]) == [] && TotalBytes([]) == 0
  {
  }

  lemma {:induction false} TotalStep(files: seq<BackupFile>, i: nat)
    requires i < |files|
    ensures TotalBytes(files[..i + 1]) == TotalBytes(files[..i]) + |files[i].content|
  {
    assert files[..i + 1][..i] == files[..i];
  }

  lemma {:induction false} TotalGrows(files: seq<BackupFile>, i: nat)
    requires i <= |files|
    ensures TotalBytes(files[..i]) <= TotalBytes(files)
    decreases |files| - i
  {
    if i == |files| {
      assert files[..i] == files;
    } else {
      TotalStep(files, i);
      TotalGrows(files, i + 1);
    }
  }

  lemma {:induction false} AcceptsMeans(a: Archive, cfg: Config)
    ensures Accepts(a, cfg) <==>
            && a.current && |a.files| <= 4096 && TotalBytes(a.files) <= cfg.maxBytes
            && (forall i :: 0 <= i < |a.files| ==>
                  a.files[i].intact && SafeRelativePath(a.files[i].path).Some?
                  && cfg.storeOk(SafeRelativePath(a.files[i].path).value, a.files[i].content))
            && forall i, j :: 0 <= i < j < |a.files| ==>
                 SafeRelativePath(a.files[i].path) != SafeRelativePath(a.files[j].path)
  {
    hide SafeRelativePath; hide TotalBytes;
    if forall i :: 0 <= i < |a.files| ==> SafeRelativePath(a.files[i].path).Some? {
      forall i | 0 <= i < |a.files| ensures SafeRelativePath(a.files[i].path) == Some(Canonical(a.files[i])) {
      }
    }
  }

  /** The bytes of an archive are those of its files together. */
  lemma {:induction false} TotalIsSum(files: seq<BackupFile>, more: seq<BackupFile>, file: BackupFile)
    ensures TotalBytes([]) == 0 && TotalBytes([file]) == |file.content|
    ensures TotalBytes(files + more) == TotalBytes(files) + TotalBytes(more)
    decreases |more|
  {
    assert [file][..0] == [];
    if more == [] {
      assert files + more == files;
    } else {
      var n := |more| - 1;
      TotalIsSum(files, more[..n], file);
      assert (files + more)[..|files + more| - 1] == files + more[..n];
    }
  }

  /** `validate_archive`. */
  method ValidateArchive(a: Archive, cfg: Config) returns (ok: bool)
    ensures ok == Accepts(a, cfg)
    ensures ok <==>
            && a.current && |a.files| <= 4096 && TotalBytes(a.files) <= cfg.maxBytes
            && (forall i :: 0 <= i < |a.files| ==>
                  a.files[i].intact && SafeRelativePath(a.files[i].path).Some?
                  && cfg.storeOk(SafeRelativePath(a.files[i].path).value, a.files[i].content))
            && forall i, j :: 0 <= i < j < |a.files| ==>
                 SafeRelativePath(a.files[i].path) != SafeRelativePath(a.files[j].path)
  {
    AcceptsMeans(a, cfg);
    hide SafeRelativePath; hide TotalBytes;
    if !a.current || |a.files| > MAX_FILES {
      return false;
    }
    var seen: set<string> := {};
    var total := 0;
    assert TotalBytes(a.files[..0]) == 0 by { SnapEmpty(map[], []); }
    for i := 0 to |a.files|
      invariant forall k :: 0 <= k < i ==> FileOk(a.files[k], cfg) && Canonical(a.files[k]) in seen
      invariant forall x :: x in seen ==> SeenIn(a.files, i, x)
      invariant DistinctPaths(a.files[..i])
      invariant total == TotalBytes(a.files[..i]) <= cfg.maxBytes
    {
      var file := a.files[i];
      var relative := SafeRelativePath(file.path);
      if relative.None? {
        assert !FileOk(a.files[i], cfg);
        return false;
      }
      if relative.value in seen {
        assert SeenIn(a.files, i, relative.value);
        return false;
      }
      TotalStep(a.files, i);
      if !file.intact {
        assert !FileOk(a.files[i], cfg);
        return false;
      }
      total := total + |file.content|;
      if total > cfg.maxBytes {
        TotalGrows(a.files, i + 1);
        return false;
      }
      if !cfg.storeOk(relative.value, file.content) {
        assert !FileOk(a.files[i], cfg);
        return false;
      }
      forall x | x in seen + {relative.value} ensures SeenIn(a.files, i + 1, x) {
        if x in seen {
          assert SeenIn(a.files, i, x);
        } else {
          assert Canonical(a.files[i]) == x;
        }
      }
      seen := seen + {relative.value};
    }
    assert a.files[..|a.files|] == a.files;
    return true;
  }

  ghost predicate SeenIn(files: seq<BackupFile>, n: nat, x: string) {
    exists k :: 0 <= k < n && k < |files| && Canonical(files[k]) == x
  }

  // ------------------------------------------------------------ file by file

  /** The data directory, the faults still to come, and how the work ended. */
  datatype Ran = Ran(tree: Tree, plan: Plan, end: End)

  /** `restore_files`: one atomic write after the other, up to the first that goes wrong. */
  function RestoreFiles(t: Tree, files: seq<BackupFile>, cfg: Config, plan: Plan): (r: Ran)
    ensures !r.end.Undone?
    decreases |files|
  {
    if files == [] then Ran(t, plan, Finished)
    else
      var w := Write(t, Canonical(files[0]), files[0].content, cfg, Next(plan));
      if w.end.Finished? then RestoreFiles(w.tree, files[1..], cfg, Rest(plan)) else Ran(w.tree, Rest(plan), w.end)
  }

  function PathsOf(a: Archive): set<string> {
    set i | 0 <= i < |a.files| :: a.files[i].path
  }

  /** The second half of a rollback: files the archive names and the snapshot does not
      list are removed, if the name as written leads to a file. */
  function RemoveExtra(t: Tree, files: seq<BackupFile>, listed: set<string>, plan: Plan): (r: Ran)
    ensures !r.end.Undone?
    decreases |files|
  {
    if files == [] then Ran(t, plan, Finished)
    else
      var target := Resolves(files[0].path);
      if files[0].path in listed || target.None? || target.value !in t.data
      then RemoveExtra(t, files[1..], listed, plan)
      else
        var f := Next(plan);
        var after := if Happens(f) then t.(data := t.data - {target.value}) else t;
        if f.Fine? then RemoveExtra(after, files[1..], listed, Rest(plan)) else Ran(after, Rest(plan), EndOf(f))
  }

  function RollBack(t: Tree, before: Archive, archive: Archive, cfg: Config, plan: Plan): (r: Ran)
    ensures !r.end.Undone?
  {
    var r := RestoreFiles(t, before.files, cfg, plan);
    if r.end.Finished? then RemoveExtra(r.tree, archive.files, PathsOf(before), r.plan) else r
  }

  // ---------------------------------------------------------------- a request

  /** `restore`, once confirmed and validated: the snapshot first, then the restart flag,
      then the request itself. Nothing else of the data is touched. */
  function Stage(d: Disk, archive: Archive, name: string, flag: Bytes, listing: seq<string>, cfg: Config,
          plan: Plan): Applied
    requires forall k :: k in listing ==> k in d.tree.data
  {
    var snapshot := Built(d.tree.data, listing, cfg);
    if snapshot.None? then Applied(d, Errored)
    else
      var f, h := Next(plan), Next(Rest(Rest(plan)));
      var saved := if Happens(f) then d.(snapshots := d.snapshots[name := snapshot.value]) else d;
      if !f.Fine? then Applied(saved, EndOf(f))
      else
        var w := Write(d.tree, RESTART_FLAG, flag, cfg, Next(Rest(plan)));
        var flagged := saved.(tree := w.tree);
        if !w.end.Finished? then Applied(flagged, w.end)
        else Applied(if Happens(h) then flagged.(pending := Some(Pending(archive, name, false))) else flagged, EndOf(h))
  }

  // ------------------------------------------------------------- one start-up

  datatype Applied = Applied(disk: Disk, end: End)

  /** The names the program gives: behind the prefix anything but slashes of either kind. */
  lemma {:induction false} SnapshotNameIff(name: string)
    ensures SnapshotNameOk(name) <==>
            exists rest: string :: name == "backup-" + rest && '/' !in rest && '\\' !in rest
  {
    if SnapshotNameOk(name) {
      var rest := name[7..];
      assert name == "backup-" + rest;
    }
    if rest: string :| name == "backup-" + rest && '/' !in rest && '\\' !in rest {
      assert name[..7] == "backup-" && name[7..] == rest;
      assert forall c :: c in name <==> c in "backup-" || c in rest;
    }
  }

  predicate SnapshotNameOk(name: string) {
    |name| >= 7 && name[..7] == "backup-" && '/' !in name && '\\' !in name
  }

  /** The last steps: the request goes first, then, as well as may be, the restart flag. */
  function Conclude(d: Disk, plan: Plan): Applied {
    var f, g := Next(plan), Next(Rest(plan));
    var done := if Happens(f) then d.(pending := None) else d;
    if !f.Fine? then Applied(done, EndOf(f))
    else
      Applied(if Happens(g) then done.(tree := done.tree.(data := done.tree.data - {RESTART_FLAG})) else done,
              if g.Halts? || g.HaltsLate? then Halted else Finished)
  }

  /** From the snapshot on: restore, and roll back if a write fails. */
  ghost function Restored(d: Disk, p: Pending, cfg: Config, plan: Plan): Applied {
    if p.snapshot !in d.snapshots || !Accepts(d.snapshots[p.snapshot], cfg) then Applied(d, Errored)
    else
      var r := RestoreFiles(d.tree, p.archive.files, cfg, plan);
      match r.end
      case Finished => Conclude(d.(tree := r.tree), r.plan)
      case Halted => Applied(d.(tree := r.tree), Halted)
      case _ =>
        var b := RollBack(r.tree, d.snapshots[p.snapshot], p.archive, cfg, r.plan);
        Applied(d.(tree := b.tree), if b.end.Finished? then Undone else b.end)
  }

  /** Before the snapshot: it is taken anew until the request is marked started. */
  ghost function Started(d: Disk, p: Pending, listing: seq<string>, cfg: Config, plan: Plan): Applied
    requires forall k :: k in listing ==> k in d.tree.data
  {
    var snapshot := Built(d.tree.data, listing, cfg);
    if snapshot.None? then Applied(d, Errored)
    else
      var f, g := Next(plan), Next(Rest(plan));
      var saved := if Happens(f) then d.(snapshots := d.snapshots[p.snapshot := snapshot.value]) else d;
      if !f.Fine? then Applied(saved, EndOf(f))
      else
        var q := p.(started := true);
        var marked := if Happens(g) then saved.(pending := Some(q)) else saved;
        if !g.Fine? then Applied(marked, EndOf(g)) else Restored(marked, q, cfg, Rest(Rest(plan)))
  }

  /** `apply_pending_restore`. */
  ghost function Apply(d: Disk, listing: seq<string>, cfg: Config, plan: Plan): Applied
    requires forall k :: k in listing ==> k in d.tree.data
  {
    match d.pending
    case None => Applied(d, Finished)
    case Some(p) =>
      if !Accepts(p.archive, cfg) || !SnapshotNameOk(p.snapshot) then Applied(d, Errored)
      else if p.started then Restored(d, p, cfg, plan)
      else Started(d, p, listing, cfg, plan)
  }

  /** The directories `BackupService` works on. */
  class BackupService {
    var data: Data
    var dirs: set<string>
    var pending: Option<Pending>
    var snapshots: map<string, Archive>

    function View(): Disk
      reads this
    {
      Disk(Tree(data, dirs), pending, snapshots)
    }

    constructor (d: Disk)
      ensures View() == d
    {
      data, dirs, pending, snapshots := d.tree.data, d.tree.dirs, d.pending, d.snapshots;
    }

    method RequestRestore(archive: Archive, confirmed: bool, name: string, flag: Bytes, listing: seq<string>,
            cfg: Config, plan: Plan)
      returns (end: End)
      requires forall k :: k in listing ==> k in data
      modifies this
      ensures confirmed && Accepts(archive, cfg) ==>
                Stage(old(View()), archive, name, flag, listing, cfg, plan) == Applied(View(), end)
      ensures !(confirmed && Accepts(archive, cfg)) ==> View() == old(View()) && end.Errored?
    {
      if !confirmed {
        return Errored;
      }
      var ok := ValidateArchive(archive, cfg);
      if !ok {
        return Errored;
      }
      var current := BuildArchive(data, listing, cfg);
      if current.None? {
        return Errored;
      }
      var f, h := Next(plan), Next(Rest(Rest(plan)));
      if Happens(f) {
        snapshots := snapshots[name := current.value];
      }
      if !f.Fine? {
        return EndOf(f);
      }
      var flagged := WriteAtomic(RESTART_FLAG, flag, cfg, Next(Rest(plan)));
      if !flagged.Finished? {
        return flagged;
      }
      if Happens(h) {
        pending := Some(Pending(archive, name, false));
      }
      return EndOf(h);
    }

    method WriteAtomic(path: string, content: Bytes, cfg: Config, f: Fault) returns (end: End)
      modifies this
      ensures pending == old(pending) && snapshots == old(snapshots)
      ensures Write(old(View()).tree, path, content, cfg, f) == Outcome(View().tree, end)
    {
      if !(Ancestors(path) !! data.Keys) {
        return if f.Fine? then Errored else EndOf(f);
      }
      if path in dirs || !Takes(path, cfg) {
        dirs := dirs + Made(path, cfg, f);
        return if f.Fine? then Errored else EndOf(f);
      }
      if Happens(f) {
        dirs := dirs + Ancestors(path);
        data := data[path := content];
      } else {
        dirs := dirs + Made(path, cfg, f);
      }
      return EndOf(f);
    }

    method RestoreAll(files: seq<BackupFile>, cfg: Config, plan: Plan) returns (end: End, rest: Plan)
      modifies this
      ensures pending == old(pending) && snapshots == old(snapshots)
      ensures RestoreFiles(old(View()).tree, files, cfg, plan) == Ran(View().tree, rest, end)
    {
      rest := plan;
      for i := 0 to |files|
        invariant pending == old(pending) && snapshots == old(snapshots)
        invariant RestoreFiles(old(View()).tree, files, cfg, plan) == RestoreFiles(View().tree, files[i..], cfg, rest)
      {
        assert files[i..][1..] == files[i + 1..];
        end := WriteAtomic(Canonical(files[i]), files[i].content, cfg, Next(rest));
        rest := Rest(rest);
        if !end.Finished? {
          return;
        }
      }
      assert files[|files|..] == [];
      return Finished, rest;
    }

    method RemoveUnlisted(files: seq<BackupFile>, listed: set<string>, plan: Plan) returns (end: End, rest: Plan)
      modifies this
      ensures pending == old(pending) && snapshots == old(snapshots)
      ensures RemoveExtra(old(View()).tree, files, listed, plan) == Ran(View().tree, rest, end)
    {
      rest := plan;
      for i := 0 to |files|
        invariant pending == old(pending) && snapshots == old(snapshots)
        invariant RemoveExtra(old(View()).tree, files, listed, plan)
                == RemoveExtra(View().tree, files[i..], listed, rest)
      {
        assert files[i..][1..] == files[i + 1..];
        var target := Resolves(files[i].path);
        if files[i].path !in listed && target.Some? && target.value in data {
          var f := Next(rest);
          rest := Rest(rest);
          if Happens(f) {
            data := data - {target.value};
          }
          if !f.Fine? {
            return EndOf(f), rest;
          }
        }
      }
      assert files[|files|..] == [];
      return Finished, rest;
    }

    method ApplyPendingRestore(listing: seq<string>, cfg: Config, plan: Plan) returns (end: End)
      requires forall k :: k in listing ==> k in data
      modifies this
      ensures Apply(old(View()), listing, cfg, plan) == Applied(View(), end)
    {
      if pending.None? {
        return Finished;
      }
      var p := pending.value;
      var ok := ValidateArchive(p.archive, cfg);
      if !ok || !SnapshotNameOk(p.snapshot) {
        return Errored;
      }
      var rest := plan;
      if !p.started {
        var snapshot := BuildArchive(data, listing, cfg);
        if snapshot.None? {
          return Errored;
        }
        var f, g := Next(rest), Next(Rest(rest));
        if Happens(f) {
          snapshots := snapshots[p.snapshot := snapshot.value];
        }
        if !f.Fine? {
          return EndOf(f);
        }
        p := p.(started := true);
        if Happens(g) {
          pending := Some(p);
        }
        if !g.Fine? {
          return EndOf(g);
        }
        rest := Rest(Rest(rest));
      }
      end := RestoreFrom(p, cfg, rest);
    }

    method RestoreFrom(p: Pending, cfg: Config, plan: Plan) returns (end: End)
      modifies this
      ensures Restored(old(View()), p, cfg, plan) == Applied(View(), end)
    {
      if p.snapshot !in snapshots {
        return Errored;
      }
      var before := snapshots[p.snapshot];
      var ok := ValidateArchive(before, cfg);
      if !ok {
        return Errored;
      }
      var restored, rest := RestoreAll(p.archive.files, cfg, plan);
      if restored.Halted? {
        return Halted;
      }
      if !restored.Finished? {
        var back, rest2 := RestoreAll(before.files, cfg, rest);
        if !back.Finished? {
          return back;
        }
        var extra, _ := RemoveUnlisted(p.archive.files, PathsOf(before), rest2);
        return if extra.Finished? then Undone else extra;
      }
      var f, g := Next(rest), Next(Rest(rest));
      if Happens(f) {
        pending := None;
      }
      if !f.Fine? {
        return EndOf(f);
      }
      if Happens(g) {
        data := data - {RESTART_FLAG};
      }
      return if g.Halts? || g.HaltsLate? then Halted else Finished;
    }
  }
}

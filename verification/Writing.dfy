/** Which writes the system takes: when a list of files can be written at all, whatever
    goes right, and what a directory keeps while files are written. */
module Writing {
  import opened Options
  import opened Backup
  import opened Restore

  /** Each file lies in its directories, and no path is both a file and a directory. */
  ghost predicate IsTree(t: Tree) {
    (forall k :: k in t.data ==> Ancestors(k) <= t.dirs) && t.dirs !! t.data.Keys
  }

  /** The files of an archive can be written one after the other: the system takes every
      name, no target is a directory or lies under a file, and none lies under another. */
  ghost predicate Writable(files: seq<BackupFile>, t: Tree, cfg: Config) {
    && (forall i :: 0 <= i < |files| ==> !Refused(t, Canonical(files[i]), cfg))
    && (forall i, j :: 0 <= i < |files| && 0 <= j < |files| ==> Canonical(files[i]) !in Ancestors(Canonical(files[j])))
  }

  /** A directory could take the files, said of their canonical paths alone: names without a
      NUL and short enough, no directory in their places, no file above them, and none of
      them above another. */
  lemma {:induction false} WritableIff(files: seq<BackupFile>, t: Tree, cfg: Config)
    ensures Writable(files, t, cfg) <==>
            && (forall i :: 0 <= i < |files| ==>
                  '\0' !in Canonical(files[i]) && cfg.fits(Canonical(files[i])) && Canonical(files[i]) !in t.dirs)
            && (forall i, k: string :: 0 <= i < |files| && k in t.data ==> !IsUnder(Canonical(files[i]), k))
            && forall i, j :: 0 <= i < |files| && 0 <= j < |files| ==>
               !IsUnder(Canonical(files[i]), Canonical(files[j]))
  {
    hide Canonical; hide Ancestors; hide IsUnder;
    forall path: string, a: string ensures a in Ancestors(path) <==> IsUnder(path, a) {
      UnderIff(path, a);
    }
    if Writable(files, t, cfg) {
      forall i, k: string | 0 <= i < |files| && k in t.data ensures !IsUnder(Canonical(files[i]), k) {
        assert !Refused(t, Canonical(files[i]), cfg);
        UnderIff(Canonical(files[i]), k);
      }
    }
    if forall i, k: string :: 0 <= i < |files| && k in t.data ==> !IsUnder(Canonical(files[i]), k) {
      forall i | 0 <= i < |files| ensures Ancestors(Canonical(files[i])) !! t.data.Keys {
        forall a | a in Ancestors(Canonical(files[i])) ensures a !in t.data {
          UnderIff(Canonical(files[i]), a);
        }
      }
    }
  }

  /** The path is the other, a slash, and something more. */
  ghost predicate IsUnder(path: string, a: string) {
    exists rest: string :: path == a + "/" + rest
  }

  lemma {:induction false} UnderIff(path: string, a: string)
    ensures a in Ancestors(path) <==> IsUnder(path, a)
  {
    AncestorIff(path, a);
    hide Ancestors;
  }

  lemma {:induction false} NotUnderItself(path: string)
    ensures path !in Ancestors(path)
  {
  }

  /** A write refuses later ones only above or below it. */
  lemma {:induction false} RefusedAfter(t: Tree, path: string, content: Bytes, other: string, cfg: Config)
    ensures Refused(Stored(t, path, content), other, cfg)
            <==> Refused(t, other, cfg) || other in Ancestors(path) || path in Ancestors(other)
  {
    hide Ancestors; hide Takes;
  }

  lemma {:induction false} WritableStep(files: seq<BackupFile>, t: Tree, cfg: Config)
    requires files != []
    ensures Writable(files, t, cfg)
            <==> !Refused(t, Canonical(files[0]), cfg)
                 && Writable(files[1..], Stored(t, Canonical(files[0]), files[0].content), cfg)
  {
    var c, rest := Canonical(files[0]), files[1..];
    var after := Stored(t, c, files[0].content);
    assert forall i :: 0 <= i < |rest| ==> rest[i] == files[i + 1];
    assert forall i :: 0 < i < |files| ==> files[i] == rest[i - 1];
    forall i | 0 <= i < |rest|
      ensures Refused(after, Canonical(rest[i]), cfg)
              <==> Refused(t, Canonical(rest[i]), cfg) || Canonical(rest[i]) in Ancestors(c)
                   || c in Ancestors(Canonical(rest[i]))
    {
      RefusedAfter(t, c, files[0].content, Canonical(rest[i]), cfg);
    }
    NotUnderItself(c);
    hide Canonical; hide Ancestors; hide Refused; hide Stored;
    if Writable(rest, after, cfg) && !Refused(t, c, cfg) {
      forall i, j | 0 <= i < |files| && 0 <= j < |files|
        ensures Canonical(files[i]) !in Ancestors(Canonical(files[j]))
      {
        assert i > 0 ==> !Refused(after, Canonical(rest[i - 1]), cfg);
        assert j > 0 ==> !Refused(after, Canonical(rest[j - 1]), cfg);
      }
    }
  }

  /** Writing all files works exactly if they are writable: some faults may finish only
      then, and without faults it does finish. */
  lemma {:induction false} FinishesIff(t: Tree, files: seq<BackupFile>, cfg: Config, plan: Plan)
    ensures RestoreFiles(t, files, cfg, plan).end.Finished? ==> Writable(files, t, cfg)
    ensures Writable(files, t, cfg) ==>
              RestoreFiles(t, files, cfg, []).end.Finished? && RestoreFiles(t, files, cfg, []).plan == []
    ensures !Writable(files, t, cfg) ==>
              RestoreFiles(t, files, cfg, []).end.Errored? && RestoreFiles(t, files, cfg, []).plan == []
    decreases |files|
  {
    if files != [] {
      var c := Canonical(files[0]);
      WritableStep(files, t, cfg);
      WriteIs(t, c, files[0].content, cfg, Next(plan));
      WriteIs(t, c, files[0].content, cfg, Fine);
      assert Refused(t, c, cfg) ==> Write(t, c, files[0].content, cfg, Fine).end.Errored?;
      hide Canonical; hide Write; hide Refused; hide Ancestors; hide Stored; hide Writable;
      FinishesIff(Stored(t, c, files[0].content), files[1..], cfg, Rest(plan));
    }
  }

  /** The entry's place is as it was, or holds the entry, and the entries up to it are writable. */
  ghost predicate Landed(after: Data, t: Tree, files: seq<BackupFile>, i: nat, cfg: Config)
    requires i < |files|
  {
    var x := Canonical(files[i]);
    Get(after, x) == Get(t.data, x) || (Get(after, x) == Some(files[i].content) && Writable(files[..i + 1], t, cfg))
  }

  lemma {:induction false} LandsLater(after: Data, t: Tree, files: seq<BackupFile>, i: nat, cfg: Config)
    requires 0 < i < |files| && DistinctPaths(files) && !Refused(t, Canonical(files[0]), cfg)
    requires Landed(after, Stored(t, Canonical(files[0]), files[0].content), files[1..], i - 1, cfg)
    ensures Landed(after, t, files, i, cfg)
  {
    assert files[..i + 1][1..] == files[1..][..i] && files[1..][i - 1] == files[i];
    assert Canonical(files[0]) != Canonical(files[i]);
    hide Canonical; hide Writable; hide Refused; hide Ancestors;
    WritableStep(files[..i + 1], t, cfg);
  }

  /** An entry's content gets into the directory only if the entries up to it are writable. */
  lemma {:induction false} LandsIfWritable(t: Tree, files: seq<BackupFile>, cfg: Config, plan: Plan, i: nat)
    requires DistinctPaths(files) && i < |files|
    ensures Landed(RestoreFiles(t, files, cfg, plan).tree.data, t, files, i, cfg)
    decreases |files|
  {
    var c, rest := Canonical(files[0]), files[1..];
    var w := Write(t, c, files[0].content, cfg, Next(plan));
    TailIsDistinct(files);
    WriteIs(t, c, files[0].content, cfg, Next(plan));
    hide DistinctPaths; hide Write; hide Refused; hide Stored;
    if i == 0 {
      assert files[..1] == [files[0]];
      FirstLands(t, files[0], cfg, Next(plan));
      hide Canonical; hide Targets; hide Writable;
      if w.end.Finished? {
        RestoreFilesIs(w.tree, rest, cfg, Rest(plan));
      }
    } else {
      hide Canonical; hide Targets; hide Landed;
      if w.end.Finished? {
        LandsIfWritable(w.tree, rest, cfg, Rest(plan), i - 1);
        LandsLater(RestoreFiles(t, files, cfg, plan).tree.data, t, files, i, cfg);
      } else {
        NotYet(t, files, w.tree.data, i, cfg);
      }
    }
  }

  lemma {:induction false} NotYet(t: Tree, files: seq<BackupFile>, after: Data, i: nat, cfg: Config)
    requires 0 < i < |files| && DistinctPaths(files)
    requires after == t.data || after == t.data[Canonical(files[0]) := files[0].content]
    ensures Landed(after, t, files, i, cfg)
  {
    assert Canonical(files[0]) != Canonical(files[i]);
    hide Canonical; hide Writable;
  }

  lemma {:induction false} FirstLands(t: Tree, file: BackupFile, cfg: Config, f: Fault)
    ensures var w := Write(t, Canonical(file), file.content, cfg, f);
            w.tree.data == t.data
              || (Get(w.tree.data, Canonical(file)) == Some(file.content) && Writable([file], t, cfg))
  {
    NotUnderItself(Canonical(file));
    hide Canonical; hide Ancestors; hide Takes;
  }

  lemma {:induction false} TailIsDistinct(files: seq<BackupFile>)
    requires DistinctPaths(files) && files != []
    ensures DistinctPaths(files[1..]) && Canonical(files[0]) !in Targets(files[1..])
  {
    var rest := files[1..];
    hide Canonical;
    assert forall k :: 0 <= k < |rest| ==> rest[k] == files[k + 1];
  }

  lemma {:induction false} NoneAbove(files: seq<BackupFile>, t: Tree, cfg: Config, i: nat)
    requires Writable(files, t, cfg) && i < |files|
    ensures Ancestors(Canonical(files[i])) !! Targets(files)
  {
    hide Canonical; hide Ancestors; hide Refused;
  }

  /** What cannot be written cannot be written later, while directories stay and no file but
      the targets goes. */
  lemma {:induction false} WritableBefore(files: seq<BackupFile>, t: Tree, u: Tree, cfg: Config)
    requires t.dirs <= u.dirs && forall x :: x in t.data && x !in Targets(files) ==> x in u.data
    requires Writable(files, u, cfg)
    ensures Writable(files, t, cfg)
  {
    forall i | 0 <= i < |files| ensures !Refused(t, Canonical(files[i]), cfg) {
      var c := Canonical(files[i]);
      assert !Refused(u, c, cfg);
      hide Canonical; hide Ancestors; hide Takes;
      NoneAbove(files, u, cfg, i);
    }
    hide Canonical; hide Ancestors; hide Refused;
  }

  lemma {:induction false} WriteGrows(t: Tree, path: string, content: Bytes, cfg: Config, f: Fault)
    ensures var u := Write(t, path, content, cfg, f).tree;
            t.dirs <= u.dirs && t.data.Keys <= u.data.Keys && (IsTree(t) ==> IsTree(u))
  {
    NotUnderItself(path);
    hide Ancestors; hide Takes;
  }

  /** While files are written, directories and files only come, and it stays a tree. */
  lemma {:induction false} RestoreGrows(t: Tree, files: seq<BackupFile>, cfg: Config, plan: Plan)
    ensures var u := RestoreFiles(t, files, cfg, plan).tree;
            t.dirs <= u.dirs && t.data.Keys <= u.data.Keys && (IsTree(t) ==> IsTree(u))
    decreases |files|
  {
    if files != [] {
      WriteGrows(t, Canonical(files[0]), files[0].content, cfg, Next(plan));
      hide Canonical; hide Write; hide IsTree;
      var w := Write(t, Canonical(files[0]), files[0].content, cfg, Next(plan));
      if w.end.Finished? {
        RestoreGrows(w.tree, files[1..], cfg, Rest(plan));
      }
    }
  }

  /** Files that are there can be written again. */
  lemma {:induction false} RewritesAreWritable(t: Tree, files: seq<BackupFile>, cfg: Config)
    requires IsTree(t)
            && forall i :: 0 <= i < |files| ==> Takes(Canonical(files[i]), cfg) && Canonical(files[i]) in t.data
    ensures Writable(files, t, cfg)
  {
    hide Canonical; hide Ancestors; hide Takes;
    forall i, j | 0 <= i < |files| && 0 <= j < |files| ensures Canonical(files[i]) !in Ancestors(Canonical(files[j])) {
      assert Ancestors(Canonical(files[j])) <= t.dirs;
    }
  }
}

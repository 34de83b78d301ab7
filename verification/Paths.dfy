/** Archive paths: `safe_relative_path` of `src/services/backup.rs`, on the path
    components of a POSIX system. */
module Paths {
  import opened Options
  import opened Text

  const RESTART_FLAG := "restart-required.json"
  const BACKUP_DIR := "backups"

  function Parts(raw: string): (parts: seq<string>)
    ensures |parts| >= 1
  {
    SplitAny(raw, "/")
  }

  /** Empty parts and inner dots are no components. */
  function Components(parts: seq<string>): seq<string> {
    if parts == [] then []
    else (if parts[0] == "" || parts[0] == "." then [] else [parts[0]]) + Components(parts[1..])
  }

  predicate IsNormal(part: string) {
    part != ".." && '\\' !in part
  }

  /** The canonical form of a path inside the data directory, or None. */
  function SafeRelativePath(raw: string): Option<string> {
    var parts := Parts(raw);
    var components := Components(parts);
    if raw == "" || raw[0] == '/' || parts[0] == "." then None
    else if exists i :: 0 <= i < |components| && !IsNormal(components[i]) then None
    else
      var relative := Join(components, "/");
      if (components != [] && components[0] == BACKUP_DIR) || relative == RESTART_FLAG then None else Some(relative)
  }

  /** The file this path names when the system resolves it: a path ending in a slash
      or a dot names no file. */
  function Resolves(raw: string): Option<string> {
    var parts := Parts(raw);
    if parts[|parts| - 1] == "" || parts[|parts| - 1] == "." then None else SafeRelativePath(raw)
  }

  predicate EndsWith(s: string, suffix: string) {
    |suffix| <= |s| && s[|s| - |suffix|..] == suffix
  }

  /** The files `collect_files` takes into a snapshot. */
  predicate Visible(path: string) {
    var parts := Parts(path);
    var name := parts[|parts| - 1];
    !(|parts| > 1 && parts[0] == BACKUP_DIR) && !EndsWith(name, ".tmp") && name != RESTART_FLAG
  }

  // ------------------------------------------------------------- properties

  lemma {:induction false} PartsHaveNoSlash(s: string)
    ensures forall p :: p in SplitAny(s, "/") ==> '/' !in p
    decreases |s|
  {
    var i := IndexOfAny(s, "/");
    if i < |s| {
      PartsHaveNoSlash(s[i + 1..]);
    }
  }

  lemma {:induction false} ComponentsAre(parts: seq<string>)
    ensures forall p :: p in Components(parts) <==> p in parts && p != "" && p != "."
    ensures parts != [] && parts[0] != "" && parts[0] != "." ==>
            Components(parts) != [] && Components(parts)[0] == parts[0]
  {
    if parts != [] {
      ComponentsAre(parts[1..]);
    }
  }

  lemma {:induction false} CleanStays(parts: seq<string>)
    requires forall i :: 0 <= i < |parts| ==> parts[i] != "" && parts[i] != "."
    ensures Components(parts) == parts
  {
    if parts != [] {
      CleanStays(parts[1..]);
    }
  }

  lemma {:induction false} FirstPart(s: string)
    requires s != "" && s[0] != '/'
    ensures SplitAny(s, "/")[0] != ""
  {
    assert IndexOfAny(s, "/") > 0;
  }

  lemma {:induction false} JoinNotEmpty(parts: seq<string>)
    requires parts != [] && parts[0] != "" && '/' !in parts[0]
    ensures Join(parts, "/") != "" && Join(parts, "/")[0] == parts[0][0] && parts[0][0] != '/'
  {
    assert parts[0][0] in parts[0];
  }

  /** A safe path's canonical form is safe, is its own canonical form, and names a file. */
  lemma {:induction false} CanonicalIsStable(raw: string)
    requires SafeRelativePath(raw).Some?
    ensures var c := SafeRelativePath(raw).value;
            SafeRelativePath(c) == Some(c) && Resolves(c) == Some(c) && c != RESTART_FLAG
  {
    var parts := Parts(raw);
    var components := Components(parts);
    var c := Join(components, "/");
    PartsHaveNoSlash(raw);
    ComponentsAre(parts);
    FirstPart(raw);
    forall p, k | p in components && 0 <= k < |p| ensures p[k] !in "/" {
      assert '/' !in p && p[k] in p;
    }
    SplitJoin(components, '/', "/");
    assert ['/'] == "/";
    assert Parts(c) == components;
    forall i | 0 <= i < |components| ensures components[i] != "" && components[i] != "." {
      assert components[i] in components;
    }
    CleanStays(components);
    assert components[0] in components;
    JoinNotEmpty(components);
    assert components[|components| - 1] in components;
  }

  /** What the check lets through never leaves the data directory or touches what is reserved. */
  lemma {:induction false} SafePathsStayInside(raw: string)
    requires SafeRelativePath(raw).Some?
    ensures var parts := Parts(SafeRelativePath(raw).value);
            && parts[0] != BACKUP_DIR && SafeRelativePath(raw).value != RESTART_FLAG
            && forall p :: p in parts ==> p != "" && p != "." && p != ".." && '\\' !in p
  {
    var c := SafeRelativePath(raw).value;
    var components := Components(Parts(raw));
    PartsHaveNoSlash(raw);
    ComponentsAre(Parts(raw));
    FirstPart(raw);
    forall p, k | p in components && 0 <= k < |p| ensures p[k] !in "/" {
      assert '/' !in p && p[k] in p;
    }
    SplitJoin(components, '/', "/");
    assert ['/'] == "/";
    assert Parts(c) == components;
    forall p | p in components ensures IsNormal(p) {
      var i :| 0 <= i < |components| && components[i] == p;
    }
  }

  /** A plain component. */
  predicate IsName(s: string) {
    s != "" && s != "." && IsNormal(s) && '/' !in s
  }

  /** Every path made of plain names is accepted as it is, unless it is reserved. */
  lemma {:induction false} PlainPathsAreSafe(names: seq<string>)
    requires names != [] && forall i :: 0 <= i < |names| ==> IsName(names[i])
    ensures var path := Join(names, "/");
            SafeRelativePath(path) == if names[0] == BACKUP_DIR || path == RESTART_FLAG then None else Some(path)
  {
    forall p, k | p in names && 0 <= k < |p| ensures p[k] !in "/" {
      var i :| 0 <= i < |names| && names[i] == p;
      assert p[k] in p;
    }
    assert ['/'] == "/";
    SplitJoin(names, '/', "/");
    CleanStays(names);
    JoinNotEmpty(names);
    hide Join; hide Components; hide SplitAny;
  }

  // ---------------------------------------------------------- paths as written

  /** The parts that are components: neither empty nor a dot. */
  function Named(parts: seq<string>): seq<string> {
    if parts == [] then []
    else if parts[0] == "" || parts[0] == "." then Named(parts[1..])
    else [parts[0]] + Named(parts[1..])
  }

  lemma {:induction false} ComponentsAreNamed(parts: seq<string>)
    ensures Components(parts) == Named(parts)
  {
    if parts != [] {
      ComponentsAreNamed(parts[1..]);
    }
  }

  lemma {:induction false} PartsOfJoin(parts: seq<string>)
    requires parts != [] && forall i :: 0 <= i < |parts| ==> '/' !in parts[i]
    ensures Parts(Join(parts, "/")) == parts
  {
    forall p, k | p in parts && 0 <= k < |p| ensures p[k] !in "/" {
      assert p[k] in p;
    }
    assert ['/'] == "/";
    SplitJoin(parts, '/', "/");
  }

  lemma {:induction false} JoinStarts(parts: seq<string>)
    requires parts != [] && '/' !in parts[0]
    ensures var raw := Join(parts, "/");
            (raw == "" || raw[0] == '/') <==> parts[0] == ""
  {
    assert parts[0] != "" ==> parts[0][0] in parts[0];
  }

  /** How any path is read, part by part: one that starts with a slash or a dot, or holds a
      double dot or a backslash, is refused; otherwise its components, neither empty nor a
      dot, are its canonical form, unless that is a reserved place. */
  lemma {:induction false} PathIsRead(parts: seq<string>)
    requires parts != [] && forall i :: 0 <= i < |parts| ==> '/' !in parts[i]
    ensures var named := Named(parts);
            SafeRelativePath(Join(parts, "/"))
            == if parts[0] == "" || parts[0] == "." || (exists p :: p in parts && (p == ".." || '\\' in p)) then None
               else if named[..1] == ["backups"] || Join(named, "/") == "restart-required.json" then None
               else Some(Join(named, "/"))
  {
    var raw, components := Join(parts, "/"), Components(parts);
    PartsOfJoin(parts);
    JoinStarts(parts);
    ComponentsAreNamed(parts);
    ComponentsAre(parts);
    hide Join; hide Components; hide Parts; hide Named;
    if p :| p in parts && (p == ".." || '\\' in p) {
      assert p in components;
      var i :| 0 <= i < |components| && components[i] == p;
      assert !IsNormal(components[i]);
    }
    if i :| 0 <= i < |components| && !IsNormal(components[i]) {
      assert components[i] in parts;
    }
  }

  /** Which paths name a file, and which files a snapshot takes, by their parts. */
  lemma {:induction false} PathLeadsTo(parts: seq<string>)
    requires parts != [] && forall i :: 0 <= i < |parts| ==> '/' !in parts[i]
    ensures var raw, last := Join(parts, "/"), parts[|parts| - 1];
            && Resolves(raw) == (if last == "" || last == "." then None else SafeRelativePath(raw))
            && (Visible(raw) <==>
                  && last != "restart-required.json" && !(exists stem: string :: last == stem + ".tmp")
                  && !(|parts| > 1 && parts[0] == "backups"))
  {
    var last := parts[|parts| - 1];
    PartsOfJoin(parts);
    if EndsWith(last, ".tmp") {
      assert last == last[..|last| - 4] + ".tmp";
    }
    hide Join; hide Parts; hide SafeRelativePath;
  }
}

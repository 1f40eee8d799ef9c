/**
 Removing a data directory except for one file in it (removeAllExcept in cli/cmd/uninstall.go).
 Paths are lists of components below the directory; the directory itself is [].
 */
module TreeRemoval {

  import opened Text

  type Path = seq<string>

  // ---------------------------------------------------------------- isInsideDir

  function Join(p: Path): string {
    if p == [] then "." else if |p| == 1 then p[0] else p[0] + "/" + Join(p[1..])
  }

  /** filepath.Rel of two cleaned paths: up to the common ancestor, then down. */
  function Rel(parent: Path, child: Path): string
    decreases |parent|
  {
    if parent <= child then Join(child[|parent|..])
    else if Rel(parent[..|parent| - 1], child) == "." then ".."
    else "../" + Rel(parent[..|parent| - 1], child)
  }

  /** isInsideDir tests the text of the relative path. */
  predicate IsInsideDir(child: Path, parent: Path) {
    !HasPrefix(Rel(parent, child), "..")
  }

  /** The test is true for an ancestor unless the next component on the way down starts with two
      dots, and false for everything else. */
  lemma InsideMeansAncestor(child: Path, parent: Path)
    ensures IsInsideDir(child, parent) <==> parent <= child && (parent == child || !HasPrefix(child[|parent|], ".."))
  {
    var r := Rel(parent, child);
    if parent <= child {
      var rest := child[|parent|..];
      if |rest| >= 2 {
        assert r == rest[0] + "/" + Join(rest[1..]);
        if HasPrefix(r, "..") {
          assert r[0] == '.' && r[1] == '.';
          assert |rest[0]| >= 2;
        }
        if HasPrefix(rest[0], "..") {
          assert r[..2] == rest[0][..2];
        }
      }
    } else {
      assert r[..2] == "..";
    }
  }

  // ---------------------------------------------------------------- trees and their walk

  datatype Tree = File | Dir(entries: seq<Entry>)
  datatype Entry = Entry(name: string, node: Tree)

  datatype WalkEntry = WalkEntry(path: Path, isDir: bool)

  predicate WellFormed(t: Tree) {
    t.Dir? ==>
      && (forall i, j :: 0 <= i < j < |t.entries| ==> t.entries[i].name != t.entries[j].name)
      && (forall i :: 0 <= i < |t.entries| ==> WellFormed(t.entries[i].node))
  }

  /** filepath.WalkDir: a directory before what is in it. */
  function Walk(path: Path, t: Tree): (ws: seq<WalkEntry>)
    ensures |ws| >= 1 && ws[0] == WalkEntry(path, t.Dir?)
    decreases t, 1
  {
    [WalkEntry(path, t.Dir?)] + if t.Dir? then WalkAll(path, t.entries) else []
  }

  function WalkAll(path: Path, es: seq<Entry>): seq<WalkEntry>
    decreases es, 0
  {
    if es == [] then [] else Walk(path + [es[0].name], es[0].node) + WalkAll(path, es[1..])
  }

  /** All that removal needs of the order: no path twice, and after the first entry every path comes
      after its parent. */
  ghost predicate ParentFirst(ws: seq<WalkEntry>, from: nat, root: Path) {
    && (forall i, j :: 0 <= i < j < |ws| ==> ws[i].path != ws[j].path)
    && (forall i :: from <= i < |ws| ==> HasParentBefore(ws, i, root))
  }

  ghost predicate HasParentBefore(ws: seq<WalkEntry>, i: nat, root: Path)
    requires i < |ws|
  {
    var p := ws[i].path;
    p != [] && (p[..|p| - 1] == root || exists j :: 0 <= j < i && ws[j].path == p[..|p| - 1])
  }

  /** Every path of a walk lies below its start. */
  lemma WalkIsBelow(path: Path, t: Tree)
    ensures forall i :: 0 <= i < |Walk(path, t)| ==> path <= Walk(path, t)[i].path
    decreases t, 1
  {
    if t.Dir? {
      WalkAllIsBelow(path, t.entries);
    }
  }

  lemma WalkAllIsBelow(path: Path, es: seq<Entry>)
    ensures forall i :: 0 <= i < |WalkAll(path, es)| ==>
              var p := WalkAll(path, es)[i].path;
              path < p && exists k :: 0 <= k < |es| && es[k].name == p[|path|]
    decreases es, 0
  {
    if es != [] {
      WalkIsBelow(path + [es[0].name], es[0].node);
      WalkAllIsBelow(path, es[1..]);
      var a := Walk(path + [es[0].name], es[0].node);
      var all := WalkAll(path, es);
      forall i | 0 <= i < |all|
        ensures path < all[i].path && exists k :: 0 <= k < |es| && es[k].name == all[i].path[|path|]
      {
        if i < |a| {
          assert all[i] == a[i] && es[0].name == all[i].path[|path|];
        } else {
          assert all[i] == WalkAll(path, es[1..])[i - |a|];
          var k :| 0 <= k < |es[1..]| && es[1..][k].name == all[i].path[|path|];
          assert es[k + 1].name == all[i].path[|path|];
        }
      }
    }
  }

  lemma WalkOrder(path: Path, t: Tree)
    requires WellFormed(t)
    ensures ParentFirst(Walk(path, t), 1, path)
    decreases t, 1
  {
    if t.Dir? {
      WalkAllOrder(path, t.entries);
      WalkAllIsBelow(path, t.entries);
      var b, ws := WalkAll(path, t.entries), Walk(path, t);
      assert forall i :: 1 <= i < |ws| ==> ws[i] == b[i - 1];
      forall i | 1 <= i < |ws| ensures HasParentBefore(ws, i, path) {
        Shifted([ws[0]], b, i - 1, path);
      }
    }
  }

  lemma Shifted(a: seq<WalkEntry>, b: seq<WalkEntry>, i: nat, root: Path)
    requires i < |b| && HasParentBefore(b, i, root)
    ensures HasParentBefore(a + b, |a| + i, root)
  {
    var p := b[i].path;
    if j :| 0 <= j < i && b[j].path == p[..|p| - 1] {
      assert (a + b)[|a| + j].path == p[..|p| - 1];
    }
  }

  lemma WalkAllOrder(path: Path, es: seq<Entry>)
    requires WellFormed(Dir(es))
    ensures ParentFirst(WalkAll(path, es), 0, path)
    decreases es, 0
  {
    if es != [] {
      var child := path + [es[0].name];
      var a, b, ws := Walk(child, es[0].node), WalkAll(path, es[1..]), WalkAll(path, es);
      RestWellFormed(es);
      WalkOrder(child, es[0].node);
      WalkAllOrder(path, es[1..]);
      WalkIsBelow(child, es[0].node);
      WalkAllIsBelow(path, es[1..]);
      Disjoint(path, es, a, b);
      forall i | 0 <= i < |ws| ensures HasParentBefore(ws, i, path) {
        if i < |a| {
          FirstChild(a, b, i, path, es[0].name);
        } else {
          Shifted(a, b, i - |a|, path);
        }
      }
    }
  }

  lemma RestWellFormed(es: seq<Entry>)
    requires es != [] && WellFormed(Dir(es))
    ensures WellFormed(es[0].node) && WellFormed(Dir(es[1..]))
    ensures forall k :: 0 <= k < |es[1..]| ==> es[1..][k].name != es[0].name
  {
    assert WellFormed(Dir(es).entries[0].node);
    assert forall k :: 0 <= k < |es[1..]| ==> es[1..][k] == Dir(es).entries[k + 1];
  }

  lemma FirstChild(a: seq<WalkEntry>, b: seq<WalkEntry>, i: nat, path: Path, name: string)
    requires i < |a| && a[0].path == path + [name] && ParentFirst(a, 1, path + [name])
    ensures HasParentBefore(a + b, i, path)
  {
    var p := a[i].path;
    assert (a + b)[i] == a[i];
    if i == 0 {
      assert p[..|p| - 1] == path;
    } else {
      assert HasParentBefore(a, i, path + [name]);
      var j := if p[..|p| - 1] == path + [name] then 0 else var j :| 0 <= j < i && a[j].path == p[..|p| - 1]; j;
      assert (a + b)[j].path == p[..|p| - 1];
    }
  }

  lemma Disjoint(path: Path, es: seq<Entry>, a: seq<WalkEntry>, b: seq<WalkEntry>)
    requires es != [] && (forall k :: 0 <= k < |es[1..]| ==> es[1..][k].name != es[0].name)
    requires forall i, j :: 0 <= i < j < |a| ==> a[i].path != a[j].path
    requires forall i, j :: 0 <= i < j < |b| ==> b[i].path != b[j].path
    requires forall i :: 0 <= i < |a| ==> path + [es[0].name] <= a[i].path
    requires forall i :: 0 <= i < |b| ==>
              path < b[i].path && exists k :: 0 <= k < |es[1..]| && es[1..][k].name == b[i].path[|path|]
    ensures forall i, j :: 0 <= i < j < |a + b| ==> (a + b)[i].path != (a + b)[j].path
  {
    forall i, j | 0 <= i < j < |a + b| ensures (a + b)[i].path != (a + b)[j].path {
      if i < |a| <= j {
        var q := b[j - |a|].path;
        var k :| 0 <= k < |es[1..]| && es[1..][k].name == q[|path|];
        assert a[i].path[|path|] == es[0].name;
      }
    }
  }

  // ---------------------------------------------------------------- removal

  predicate IsChild(c: Path, p: Path) {
    |c| == |p| + 1 && c[..|p|] == p
  }

  /** What a walk guarantees about any two of its entries, and about any part of it. */
  ghost predicate Ordered(ws: seq<WalkEntry>) {
    forall i, j :: 0 <= i < j < |ws| ==> ws[i].path != ws[j].path && !IsChild(ws[i].path, ws[j].path)
  }

  lemma ParentFirstIsOrdered(ws: seq<WalkEntry>)
    requires |ws| >= 1 && ws[0].path == [] && ParentFirst(ws, 1, [])
    ensures Ordered(ws)
  {
    forall i, j | 0 <= i < j < |ws| ensures !IsChild(ws[i].path, ws[j].path) {
      assert i > 0 ==> HasParentBefore(ws, i, []);
      assert ws[0].path != ws[j].path;
    }
  }

  function Paths(ws: seq<WalkEntry>): set<Path> {
    set i | 0 <= i < |ws| :: ws[i].path
  }

  /** With every path its parent. */
  ghost predicate Closed(nodes: set<Path>) {
    [] in nodes && forall p :: p in nodes && p != [] ==> p[..|p| - 1] in nodes
  }

  lemma WalkIsClosed(t: Tree)
    requires WellFormed(t)
    ensures Closed(Paths(Walk([], t))) && Ordered(Walk([], t))
  {
    var ws := Walk([], t);
    WalkOrder([], t);
    ParentFirstIsOrdered(ws);
    assert ws[0].path in Paths(ws);
    forall p | p in Paths(ws) && p != [] ensures p[..|p| - 1] in Paths(ws) {
      var i :| 0 <= i < |ws| && ws[i].path == p;
      assert HasParentBefore(ws, i, []);
    }
  }

  lemma {:induction false} PrefixIn(nodes: set<Path>, q: Path, n: nat)
    requires Closed(nodes) && q in nodes && n <= |q|
    ensures q[..n] in nodes
    decreases |q|
  {
    if n == |q| {
      assert q[..n] == q;
    } else {
      PrefixIn(nodes, q[..|q| - 1], n);
      assert q[..|q| - 1][..n] == q[..n];
    }
  }

  /** A directory tree on disk; removing a path in `faults` fails whatever the state. */
  class Disk {
    var nodes: set<Path>
    const faults: set<Path>

    constructor (nodes: set<Path>, faults: set<Path>)
      ensures this.nodes == nodes && this.faults == faults
    {
      this.nodes := nodes;
      this.faults := faults;
    }

    /** os.Remove: a file or an empty directory. */
    method Remove(p: Path) returns (ok: bool)
      modifies this
      ensures ok <==> p in old(nodes) && p !in faults && !exists c :: c in old(nodes) && IsChild(c, p)
      ensures nodes == if ok then old(nodes) - {p} else old(nodes)
    {
      ok := p in nodes && p !in faults && forall c :: c in nodes ==> !IsChild(c, p);
      if ok {
        nodes := nodes - {p};
      }
    }
  }

  /** The paths that cannot go: the directory itself, the excepted path and the faulty ones. */
  predicate Kept(q: Path, except: Option<Path>, faults: set<Path>) {
    q == [] || except == Some(q) || q in faults
  }

  /** A path stays exactly when something at or below it cannot go. */
  predicate Stays(p: Path, nodes: set<Path>, except: Option<Path>, faults: set<Path>) {
    exists q :: q in nodes && p <= q && Kept(q, except, faults)
  }

  /** A failure the code does not report: a directory above the excepted path. */
  predicate Excused(w: WalkEntry, except: Option<Path>) {
    w.isDir && except.Some? && IsInsideDir(except.value, w.path)
  }

  predicate Reported(w: WalkEntry, nodes: set<Path>, except: Option<Path>, faults: set<Path>) {
    && w.path != [] && except != Some(w.path)
    && Stays(w.path, nodes, except, faults) && !Excused(w, except)
  }

  /** The walk's callback collects everything but the root and the excepted path. */
  method Collect(ws: seq<WalkEntry>, except: Option<Path>) returns (entries: seq<WalkEntry>)
    requires Ordered(ws)
    ensures Ordered(entries)
    ensures forall w :: w in entries <==> w in ws && w.path != [] && except != Some(w.path)
  {
    entries := [];
    for i := 0 to |ws|
      invariant Ordered(entries)
      invariant forall w :: w in entries <==> w in ws[..i] && w.path != [] && except != Some(w.path)
    {
      if ws[i].path == [] || except == Some(ws[i].path) {
        continue;
      }
      assert forall k :: 0 <= k < |entries| ==> entries[k] in ws[..i];
      entries := entries + [ws[i]];
    }
  }

  /** The set of paths that stay obeys the rule the deletions follow: an entry stays exactly when it
      is faulty or one of its children stays. */
  ghost predicate StayRule(entries: seq<WalkEntry>, stay: set<Path>, faults: set<Path>) {
    forall i :: 0 <= i < |entries| ==>
      (entries[i].path in stay <==> entries[i].path in faults || HasChildIn(entries[i].path, stay))
  }

  ghost predicate HasChildIn(p: Path, nodes: set<Path>) {
    exists c :: c in nodes && IsChild(c, p)
  }

  /** The deletion loop, from the last entry to the first. */
  method RemoveEntries(disk: Disk, entries: seq<WalkEntry>, except: Option<Path>, ghost stay: set<Path>)
    returns (errs: seq<Path>)
    requires Ordered(entries) && StayRule(entries, stay, disk.faults)
    requires disk.nodes == Paths(entries) + stay
    modifies disk
    ensures disk.nodes == stay
    ensures forall p :: p in errs <==> exists w :: w in entries && w.path == p && p in stay && !Excused(w, except)
  {
    errs := [];
    var i := |entries|;
    assert entries[..i] == entries;
    while i > 0
      invariant 0 <= i <= |entries|
      invariant disk.nodes == Paths(entries[..i]) + stay
      invariant forall p :: p in errs <==>
                exists w :: w in entries[i..] && w.path == p && p in stay && !Excused(w, except)
    {
      i := i - 1;
      var w := entries[i];
      OneLess(entries, i);
      NoChildBefore(entries, i, stay);
      assert entries[i..] == [w] + entries[i + 1..];
      assert w.path in Paths(entries[..i + 1]) by { assert entries[..i + 1][i] == w; }
      assert HasChildIn(w.path, disk.nodes) <==> HasChildIn(w.path, stay);
      var ok := disk.Remove(w.path);
      assert ok <==> w.path !in stay;
      if !ok && !Excused(w, except) {
        errs := errs + [w.path];
      }
    }
    assert entries[0..] == entries;
  }

  lemma OneLess(entries: seq<WalkEntry>, i: nat)
    requires i < |entries| && Ordered(entries)
    ensures Paths(entries[..i]) == Paths(entries[..i + 1]) - {entries[i].path}
  {
    assert forall k :: 0 <= k < i ==> entries[..i][k] == entries[k] == entries[..i + 1][k];
    assert entries[..i + 1][i] == entries[i];
  }

  lemma NoChildBefore(entries: seq<WalkEntry>, i: nat, stay: set<Path>)
    requires i < |entries| && Ordered(entries)
    ensures HasChildIn(entries[i].path, Paths(entries[..i + 1]) + stay) <==> HasChildIn(entries[i].path, stay)
  {
    var p := entries[i].path;
    assert forall k :: 0 <= k < i + 1 ==> entries[..i + 1][k] == entries[k];
    if c :| c in stay && IsChild(c, p) {
      assert c in Paths(entries[..i + 1]) + stay;
    }
  }

  /** Whatever removals fail, what is left and what is reported are exactly determined. */
  method RemoveAllExcept(disk: Disk, tree: Tree, except: Option<Path>) returns (errs: seq<Path>)
    requires WellFormed(tree) && disk.nodes == Paths(Walk([], tree))
    modifies disk
    ensures forall p :: p in disk.nodes <==> p in old(disk.nodes) && Stays(p, old(disk.nodes), except, disk.faults)
    ensures forall p :: p in errs <==>
              exists w :: w in Walk([], tree) && w.path == p && Reported(w, old(disk.nodes), except, disk.faults)
  {
    var ws := Walk([], tree);
    WalkIsClosed(tree);
    var entries := Collect(ws, except);
    ghost var nodes := disk.nodes;
    ghost var stay := set p | p in nodes && Stays(p, nodes, except, disk.faults);
    forall i | 0 <= i < |entries|
      ensures entries[i].path in stay <==> entries[i].path in disk.faults || HasChildIn(entries[i].path, stay)
    {
      assert entries[i] in entries;
      PathIn(ws, entries[i]);
      StayStep(entries[i].path, nodes, stay, except, disk.faults);
    }
    EntriesAndStay(ws, entries, nodes, stay, except, disk.faults);
    errs := RemoveEntries(disk, entries, except, stay);
    forall w | w in entries ensures w.path in stay <==> Stays(w.path, nodes, except, disk.faults) {
      PathIn(ws, w);
    }
  }

  lemma PathIn(ws: seq<WalkEntry>, w: WalkEntry)
    requires w in ws
    ensures w.path in Paths(ws)
  {
    var i :| 0 <= i < |ws| && ws[i] == w;
  }

  lemma EntriesAndStay(ws: seq<WalkEntry>, entries: seq<WalkEntry>, nodes: set<Path>, stay: set<Path>,
                       except: Option<Path>, faults: set<Path>)
    requires nodes == Paths(ws)
    requires forall w :: w in entries <==> w in ws && w.path != [] && except != Some(w.path)
    requires forall p :: p in stay <==> p in nodes && Stays(p, nodes, except, faults)
    ensures nodes == Paths(entries) + stay
  {
    forall p ensures p in nodes <==> p in Paths(entries) + stay {
      if p in nodes {
        var i :| 0 <= i < |ws| && ws[i].path == p;
        if p == [] || except == Some(p) {
          assert p <= p && Kept(p, except, faults);
        } else {
          PathIn(entries, ws[i]);
        }
      }
      if p in Paths(entries) {
        var i :| 0 <= i < |entries| && entries[i].path == p;
        PathIn(ws, entries[i]);
      }
    }
  }

  lemma StayStep(p: Path, nodes: set<Path>, stay: set<Path>, except: Option<Path>, faults: set<Path>)
    requires Closed(nodes) && p in nodes && p != [] && except != Some(p)
    requires forall q :: q in stay <==> q in nodes && Stays(q, nodes, except, faults)
    ensures p in stay <==> p in faults || HasChildIn(p, stay)
  {
    if p in faults {
      assert p <= p && Kept(p, except, faults);
    } else if p in stay {
      StayGoesDown(p, nodes, except, faults);
    }
    if c :| c in stay && IsChild(c, p) {
      StayGoesUp(c, p, nodes, except, faults);
    }
  }

  lemma StayGoesDown(p: Path, nodes: set<Path>, except: Option<Path>, faults: set<Path>)
    requires Closed(nodes) && Stays(p, nodes, except, faults) && !Kept(p, except, faults)
    ensures exists c :: c in nodes && IsChild(c, p) && Stays(c, nodes, except, faults)
  {
    var q :| q in nodes && p <= q && Kept(q, except, faults);
    assert |p| == |q| ==> p == q;
    PrefixIn(nodes, q, |p| + 1);
    var c := q[..|p| + 1];
    assert c <= q && IsChild(c, p);
  }

  lemma StayGoesUp(c: Path, p: Path, nodes: set<Path>, except: Option<Path>, faults: set<Path>)
    requires IsChild(c, p) && Stays(c, nodes, except, faults)
    ensures Stays(p, nodes, except, faults)
  {
    var q :| q in nodes && c <= q && Kept(q, except, faults);
    assert p <= q;
  }

  // ---------------------------------------------------------------- without faults

  /** Whatever has something below it in a walk is a directory. */
  lemma AncestorIsDir(path: Path, t: Tree, w: WalkEntry, v: WalkEntry)
    requires WellFormed(t) && w in Walk(path, t) && v in Walk(path, t) && w.path < v.path
    ensures w.isDir
    decreases t, 1
  {
    if t.Dir? {
      WalkAllIsBelow(path, t.entries);
      WalkIsBelow(path, t);
      if w.path != path {
        AncestorIsDirAll(path, t.entries, w, v);
      }
    }
  }

  lemma AncestorIsDirAll(path: Path, es: seq<Entry>, w: WalkEntry, v: WalkEntry)
    requires WellFormed(Dir(es)) && w in WalkAll(path, es) && v in WalkAll(path, es) && w.path < v.path
    ensures w.isDir
    decreases es, 0
  {
    var child := path + [es[0].name];
    var a, b := Walk(child, es[0].node), WalkAll(path, es[1..]);
    RestWellFormed(es);
    WalkIsBelow(child, es[0].node);
    WalkAllIsBelow(path, es[1..]);
    assert w in a ==> w.path[|path|] == es[0].name;
    assert v in a ==> v.path[|path|] == es[0].name;
    if w in a {
      assert v.path[|path|] == w.path[|path|];
      AncestorIsDir(child, es[0].node, w, v);
    } else {
      assert v.path[|path|] == w.path[|path|];
      AncestorIsDirAll(path, es[1..], w, v);
    }
  }

  /** If files and empty directories can be removed, exactly the directory, the excepted path and
      its ancestors are left. */
  lemma OnlyTheWayDownIsLeft(nodes: set<Path>, except: Option<Path>, p: Path)
    requires Closed(nodes) && p in nodes
    ensures Stays(p, nodes, except, {}) <==> p == [] || (except.Some? && except.value in nodes && p <= except.value)
  {
    if p == [] {
      assert Kept([], except, {});
    }
    if except.Some? && except.value in nodes && p <= except.value {
      assert Kept(except.value, except, {});
    }
  }

  /** Then an error is reported exactly for an ancestor whose next component towards the excepted
      path starts with two dots: the check on the relative path takes it for a way out. */
  lemma ReportedWithoutFaults(tree: Tree, except: Option<Path>, w: WalkEntry)
    requires WellFormed(tree) && w in Walk([], tree)
    ensures Reported(w, Paths(Walk([], tree)), except, {}) <==>
              && except.Some? && except.value in Paths(Walk([], tree))
              && w.path != [] && w.path < except.value && HasPrefix(except.value[|w.path|], "..")
  {
    var ws := Walk([], tree);
    WalkIsClosed(tree);
    PathIn(ws, w);
    if except.Some? && except.value in Paths(ws) && w.path < except.value {
      var i :| 0 <= i < |ws| && ws[i].path == except.value;
      AncestorIsDir([], tree, w, ws[i]);
    }
    ReportedOnTheWay(Paths(ws), except, w);
  }

  /** A tree on which nothing fails and an error is reported: the excepted file is `d/..f`. */
  lemma TwoDotsAreReported()
    ensures var tree := Dir([Entry("d", Dir([Entry("..f", File)]))]);
            WellFormed(tree) && WalkEntry(["d"], true) in Walk([], tree)
            && Reported(WalkEntry(["d"], true), Paths(Walk([], tree)), Some(["d", "..f"]), {})
  {
    var f, inner := Entry("..f", File), Dir([Entry("..f", File)]);
    var tree := Dir([Entry("d", inner)]);
    var w, v := WalkEntry(["d"], true), WalkEntry(["d", "..f"], false);
    assert [] + ["d"] == ["d"] && ["d"] + ["..f"] == ["d", "..f"];
    assert [f][1..] == [] && [Entry("d", inner)][1..] == [];
    assert Walk(["d", "..f"], File) == [v];
    assert WalkAll(["d"], [f]) == [v] + WalkAll(["d"], []) == [v];
    assert Walk(["d"], inner) == [w] + [v];
    var ws := Walk([], tree);
    assert WalkAll([], tree.entries) == Walk(["d"], inner) + WalkAll([], []);
    assert ws == [WalkEntry([], true)] + ([w] + [v] + []);
    assert ws[1] == w && ws[2] == v;
    ReportedWithoutFaults(tree, Some(["d", "..f"]), w);
    PathIn(ws, v);
    assert "..f"[..2] == "..";
  }

  lemma ReportedOnTheWay(nodes: set<Path>, except: Option<Path>, w: WalkEntry)
    requires Closed(nodes) && w.path in nodes
    requires except.Some? && except.value in nodes && w.path < except.value ==> w.isDir
    ensures Reported(w, nodes, except, {}) <==>
              && except.Some? && except.value in nodes
              && w.path != [] && w.path < except.value && HasPrefix(except.value[|w.path|], "..")
  {
    OnlyTheWayDownIsLeft(nodes, except, w.path);
    if except.Some? {
      InsideMeansAncestor(except.value, w.path);
    }
  }

  /** With faults: a run that reports nothing has left only the directory, the excepted path and
      directories above it. */
  lemma SilentRunIsComplete(tree: Tree, except: Option<Path>, faults: set<Path>, p: Path)
    requires WellFormed(tree) && p in Paths(Walk([], tree))
    requires forall w :: w in Walk([], tree) ==> !Reported(w, Paths(Walk([], tree)), except, faults)
    requires Stays(p, Paths(Walk([], tree)), except, faults)
    ensures p == [] || (except.Some? && p <= except.value)
  {
    var ws := Walk([], tree);
    var i :| 0 <= i < |ws| && ws[i].path == p;
    assert !Reported(ws[i], Paths(ws), except, faults);
    if except.Some? {
      InsideMeansAncestor(except.value, p);
    }
  }
}

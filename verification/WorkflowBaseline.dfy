/**
 The baseline file of the workflow gate (scripts/check_workflow_shell_git_commits.py): loading,
 saving, the full scan and the refresh that only shrinks.
 */
module WorkflowBaseline {

  import opened Text
  import opened WorkflowGate

  // ---------------------------------------------------------------- the file

  /** An entry of a list of sites: a list of two items (as strings), or anything else. */
  datatype Entry = Pair(job: string, step: string) | OddEntry

  datatype Entries = List(items: seq<Entry>) | NotAList

  /** The "locations" value of the file. */
  datatype Locations = Locations(byPath: map<string, Entries>) | NotAMapping

  type Baseline = map<string, set<Site>>

  predicate Has(b: Baseline, path: string, s: Site) {
    path in b && s in b[path]
  }

  /** _load_baseline: a missing or malformed file reads as empty, malformed parts are skipped. */
  function Load(file: Option<Locations>): Baseline {
    if file.None? || file.value.NotAMapping? then map[]
    else
      var m := file.value.byPath;
      map p | p in m && m[p].List? :: set e | e in m[p].items && e.Pair? :: Site(e.job, e.step)
  }

  /** _save_baseline. */
  function Save(locations: map<string, seq<Site>>): Locations {
    Locations(map p | p in locations ::
                List(seq(|locations[p]|,
                         i requires 0 <= i < |locations[p]| => Pair(locations[p][i].job, locations[p][i].step))))
  }

  function Elements(ss: seq<Site>): set<Site> {
    set s | s in ss
  }

  /** Saving and loading is the identity on the sites of every file. */
  lemma LoadOfSave(locations: map<string, seq<Site>>)
    ensures Load(Some(Save(locations))) == map p | p in locations :: Elements(locations[p])
  {
    var b := Load(Some(Save(locations)));
    forall p | p in locations ensures b[p] == Elements(locations[p]) {
      var items := Save(locations).byPath[p].items;
      forall s ensures s in b[p] <==> s in locations[p] {
        if s in locations[p] {
          var i :| 0 <= i < |locations[p]| && locations[p][i] == s;
          assert items[i] == Pair(s.job, s.step);
        }
      }
    }
  }

  // ---------------------------------------------------------------- the tree

  datatype File = File(path: string, workflow: Workflow)

  /** The workflow files, in the order they are scanned; paths are distinct. */
  type Tree = seq<File>

  ghost predicate Distinct(tree: Tree) {
    forall i, j :: 0 <= i < j < |tree| ==> tree[i].path != tree[j].path
  }

  predicate Unparsable(tree: Tree) {
    exists i :: 0 <= i < |tree| && tree[i].workflow.YamlError?
  }

  ghost predicate TreeSite(tree: Tree, path: string, s: Site) {
    exists i :: 0 <= i < |tree| && tree[i].path == path && tree[i].workflow.Jobs? && IsSite(tree[i].workflow.jobs, s)
  }

  /** What the full scan demands: every file parses and every site is in the baseline. */
  ghost predicate Clean(tree: Tree, b: Baseline) {
    !Unparsable(tree) && forall p, s :: TreeSite(tree, p, s) ==> Has(b, p, s)
  }

  /** A baseline that records exactly the sites of a tree. */
  ghost predicate Records(b: Baseline, tree: Tree) {
    forall p, s :: Has(b, p, s) <==> TreeSite(tree, p, s)
  }

  lemma TreeSiteAppend(tree: Tree, n: nat, p: string, s: Site)
    requires n < |tree|
    ensures TreeSite(tree[..n + 1], p, s) <==>
              TreeSite(tree[..n], p, s)
              || (tree[n].path == p && tree[n].workflow.Jobs? && IsSite(tree[n].workflow.jobs, s))
  {
    assert forall i :: 0 <= i < n ==> tree[..n][i] == tree[i] == tree[..n + 1][i];
    assert tree[..n + 1][n] == tree[n];
    if TreeSite(tree[..n], p, s) {
      var i :| 0 <= i < n && tree[..n][i].path == p && tree[..n][i].workflow.Jobs?
         && IsSite(tree[..n][i].workflow.jobs, s);
      assert tree[..n + 1][i].path == p;
    }
  }

  // ---------------------------------------------------------------- the commands

  datatype Violation = ParseFailure(path: string) | NewSite(path: string, site: Site)

  /** _scan_and_compare. */
  method ScanAndCompare(file: File, baseline: Baseline) returns (violations: set<Violation>)
    ensures file.workflow.YamlError? ==> violations == {ParseFailure(file.path)}
    ensures file.workflow.Jobs? ==>
              forall v :: v in violations <==>
                v.NewSite? && v.path == file.path && IsSite(file.workflow.jobs, v.site)
                && !Has(baseline, file.path, v.site)
  {
    if file.workflow.YamlError? {
      return {ParseFailure(file.path)};
    }
    var hits := ScanFile(file.workflow.jobs);
    var allowed := if file.path in baseline then baseline[file.path] else {};
    violations := set s | s in hits && s !in allowed :: NewSite(file.path, s);
  }

  class Gate {
    var file: Option<Locations>

    constructor (file: Option<Locations>)
      ensures this.file == file
    {
      this.file := file;
    }

    /** cmd_scan_all. */
    method ScanAll(tree: Tree) returns (code: int)
      ensures code == 0 <==> Clean(tree, Load(file))
      ensures code == 0 || code == 1
    {
      var baseline := Load(file);
      var violations: set<Violation> := {};
      for i := 0 to |tree|
        invariant violations == {} <==> Clean(tree[..i], baseline)
      {
        var more := ScanAndCompare(tree[i], baseline);
        CleanAppend(tree, i, baseline);
        if tree[i].workflow.YamlError? {
          assert ParseFailure(tree[i].path) in more;
        } else if s :| IsSite(tree[i].workflow.jobs, s) && !Has(baseline, tree[i].path, s) {
          assert NewSite(tree[i].path, s) in more;
        }
        assert violations + more == {} <==> violations == {} && more == {};
        violations := violations + more;
      }
      assert tree[..|tree|] == tree;
      code := if violations == {} then 0 else 1;
    }

    /** cmd_refresh_baseline.  A refresh that is not forced succeeds exactly when the full scan of
        the same tree is clean, and then records exactly the sites of the tree. */
    method RefreshBaseline(tree: Tree, force: bool) returns (code: int)
      requires Distinct(tree)
      modifies this
      ensures code == 0 <==> !Unparsable(tree) && (force || Clean(tree, Load(old(file))))
      ensures code != 0 ==> file == old(file)
      ensures code == 0 ==> Records(Load(file), tree)
      ensures !force ==> Refreshed(Load(old(file)), tree, Load(file))
    {
      var previous := Load(file);
      var parsed, locations := ListSites(tree);
      if !parsed {
        return 1;
      }
      var additions := exists p | p in locations :: exists s | s in locations[p] :: !Has(previous, p, s);
      assert additions <==> !Clean(tree, previous) by {
        forall p, s | TreeSite(tree, p, s) ensures p in locations && s in locations[p] {
          assert InList(locations, p, s);
        }
        forall p, s | p in locations && s in locations[p] ensures TreeSite(tree, p, s) {
          assert InList(locations, p, s);
        }
      }
      if additions && !force {
        return 1;
      }
      file := Some(Save(locations));
      LoadOfSave(locations);
      forall p, s ensures Has(Load(file), p, s) <==> TreeSite(tree, p, s) {
        assert InList(locations, p, s) <==> TreeSite(tree, p, s);
      }
      return 0;
    }
  }

  predicate InList(l: map<string, seq<Site>>, p: string, s: Site) {
    p in l && s in l[p]
  }

  ghost predicate Lists(l: map<string, seq<Site>>, tree: Tree) {
    forall p, s :: InList(l, p, s) <==> TreeSite(tree, p, s)
  }

  /** The scanning loop of the refresh: the sites of every file that has any. */
  method ListSites(tree: Tree) returns (parsed: bool, locations: map<string, seq<Site>>)
    requires Distinct(tree)
    ensures parsed <==> !Unparsable(tree)
    ensures parsed ==> Lists(locations, tree)
  {
    locations := map[];
    for i := 0 to |tree|
      invariant !Unparsable(tree[..i])
      invariant forall j :: i <= j < |tree| ==> tree[j].path !in locations
      invariant Lists(locations, tree[..i])
    {
      if tree[i].workflow.YamlError? {
        return false, locations;
      }
      var hits := ScanFile(tree[i].workflow.jobs);
      var listed := Listed(hits);
      ListsStep(locations, tree, i, hits, listed);
      assert tree[..i + 1] == tree[..i] + [tree[i]];
      if hits != {} {
        locations := locations[tree[i].path := listed];
      }
    }
    assert tree[..|tree|] == tree;
    parsed := true;
  }

  lemma ListsStep(l: map<string, seq<Site>>, tree: Tree, n: nat, hits: set<Site>, listed: seq<Site>)
    requires n < |tree| && Lists(l, tree[..n]) && tree[n].path !in l && tree[n].workflow.Jobs?
    requires forall s :: s in hits <==> IsSite(tree[n].workflow.jobs, s)
    requires forall s :: s in listed <==> s in hits
    ensures Lists(if hits != {} then l[tree[n].path := listed] else l, tree[..n + 1])
  {
    var after := if hits != {} then l[tree[n].path := listed] else l;
    forall p, s ensures InList(after, p, s) <==> TreeSite(tree[..n + 1], p, s) {
      TreeSiteAppend(tree, n, p, s);
      assert InList(l, p, s) <==> TreeSite(tree[..n], p, s);
    }
  }

  lemma CleanAppend(tree: Tree, n: nat, b: Baseline)
    requires n < |tree|
    ensures Clean(tree[..n + 1], b) <==>
              Clean(tree[..n], b) && tree[n].workflow.Jobs? && forall s :: IsSite(tree[n].workflow.jobs, s) ==>
                Has(b, tree[n].path, s)
  {
    forall p, s ensures TreeSite(tree[..n + 1], p, s) <==>
              TreeSite(tree[..n], p, s)
              || (tree[n].path == p && tree[n].workflow.Jobs? && IsSite(tree[n].workflow.jobs, s)) {
      TreeSiteAppend(tree, n, p, s);
    }
    assert tree[..n + 1][n] == tree[n];
    assert forall i :: 0 <= i < n ==> tree[..n + 1][i] == tree[..n][i];
  }

  /** The elements of a set as a list. */
  method Listed(hits: set<Site>) returns (r: seq<Site>)
    ensures forall s :: s in r <==> s in hits
  {
    r := [];
    var left := hits;
    while left != {}
      invariant left <= hits && forall s :: s in r <==> s in hits - left
      decreases left
    {
      var s :| s in left;
      r := r + [s];
      left := left - {s};
    }
  }

  // ---------------------------------------------------------------- the ratchet

  /** What a refresh that is not forced does to the baseline. */
  ghost predicate Refreshed(before: Baseline, tree: Tree, after: Baseline) {
    if Clean(tree, before) then Records(after, tree) else after == before
  }

  /** Over any run of tree edits and refreshes that are not forced the baseline only shrinks. */
  lemma {:induction false} BaselineOnlyShrinks(bs: seq<Baseline>, trees: seq<Tree>, i: nat, j: nat, p: string, s: Site)
    requires |bs| == |trees| + 1 && i <= j < |bs|
    requires forall k :: 0 <= k < |trees| ==> Refreshed(bs[k], trees[k], bs[k + 1])
    requires Has(bs[j], p, s)
    ensures Has(bs[i], p, s)
    decreases j - i
  {
    if i < j {
      assert Refreshed(bs[j - 1], trees[j - 1], bs[j - 1 + 1]);
      BaselineOnlyShrinks(bs, trees, i, j - 1, p, s);
    }
  }

  /** So every site that ever passes the gate was in the initial baseline. */
  lemma PassingSitesAreOriginal(bs: seq<Baseline>, trees: seq<Tree>, j: nat, tree: Tree, p: string, s: Site)
    requires |bs| == |trees| + 1 && j < |bs|
    requires forall k :: 0 <= k < |trees| ==> Refreshed(bs[k], trees[k], bs[k + 1])
    requires Clean(tree, bs[j]) && TreeSite(tree, p, s)
    ensures Has(bs[0], p, s)
  {
    BaselineOnlyShrinks(bs, trees, 0, j, p, s);
  }
}

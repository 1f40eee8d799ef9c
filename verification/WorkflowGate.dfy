/**
 The gate against shell commits and pushes in workflows
 (scripts/check_workflow_shell_git_commits.py): the scan of one job, and the baseline that may
 only shrink.  What the regular expressions say about a step's script is part of the input.
 */
module WorkflowGate {

  // ---------------------------------------------------------------- one job

  /** A step: anything without a `run` string, or a script with its name (or index) and whether it
      runs `git commit` and `git push`. */
  datatype Step = NoScript | Script(key: string, commits: bool, pushes: bool)

  predicate Commits(steps: seq<Step>, j: int) {
    0 <= j < |steps| && steps[j].Script? && steps[j].commits
  }

  predicate Pushes(steps: seq<Step>, k: int) {
    0 <= k < |steps| && steps[k].Script? && steps[k].pushes
  }

  /** A commit at `j` that no step before `k` has pushed. */
  predicate Pending(steps: seq<Step>, j: int, k: int) {
    Commits(steps, j) && forall i :: j <= i < k ==> !Pushes(steps, i)
  }

  predicate AnyPending(steps: seq<Step>, k: int) {
    exists j :: 0 <= j < k && Pending(steps, j, k)
  }

  /** The rule: step `k` pushes a commit made at or before it that was not pushed earlier. */
  predicate Flagged(steps: seq<Step>, k: int) {
    Pushes(steps, k) && exists j :: 0 <= j <= k && Pending(steps, j, k)
  }

  /** The loop over the steps of a job, with its `commit_seen` flag. */
  method ScanJob(steps: seq<Step>) returns (hits: seq<nat>)
    ensures forall k :: k in hits <==> Flagged(steps, k)
    ensures forall a, b :: 0 <= a < b < |hits| ==> hits[a] < hits[b]
  {
    hits := [];
    var commitSeen := false;
    for idx := 0 to |steps|
      invariant forall k :: k in hits <==> k < idx && Flagged(steps, k)
      invariant forall a, b :: 0 <= a < b < |hits| ==> hits[a] < hits[b]
      invariant forall a :: 0 <= a < |hits| ==> hits[a] < idx
      invariant commitSeen <==> AnyPending(steps, idx)
    {
      var step := steps[idx];
      PendingStep(steps, idx);
      if step.NoScript? {
        continue;
      }
      if step.commits && step.pushes {
        hits := hits + [idx];
        commitSeen := false;
        continue;
      }
      if step.pushes && commitSeen {
        hits := hits + [idx];
        commitSeen := false;
        continue;
      }
      if step.commits {
        commitSeen := true;
      }
    }
  }

  lemma PendingStep(steps: seq<Step>, k: nat)
    requires k < |steps|
    ensures AnyPending(steps, k + 1) <==> !Pushes(steps, k) && (Commits(steps, k) || AnyPending(steps, k))
    ensures Flagged(steps, k) <==> Pushes(steps, k) && (Commits(steps, k) || AnyPending(steps, k))
  {
    var next := k + 1;
    if j :| 0 <= j < next && Pending(steps, j, next) {
      assert j < k ==> Pending(steps, j, k);
    }
    if Commits(steps, k) {
      assert Pending(steps, k, k);
    }
    if !Pushes(steps, k) {
      if Commits(steps, k) {
        assert Pending(steps, k, k + 1);
      }
      if j :| 0 <= j < k && Pending(steps, j, k) {
        assert Pending(steps, j, k + 1);
      }
    }
  }

  /** The first push at or after a commit is flagged. */
  lemma FirstPushIsFlagged(steps: seq<Step>, j: nat, k: nat)
    requires j <= k && Commits(steps, j) && Pushes(steps, k)
    ensures exists i :: j <= i <= k && Flagged(steps, i)
    decreases k - j
  {
    if forall i :: j <= i < k ==> !Pushes(steps, i) {
      assert Pending(steps, j, k) && Flagged(steps, k);
    } else {
      var i :| j <= i < k && Pushes(steps, i);
      FirstPushIsFlagged(steps, j, i);
    }
  }

  /** A job is reported exactly when some commit precedes or accompanies some push: splitting them
      over steps, or pushing in between, cannot hide a job. */
  lemma JobIsReported(steps: seq<Step>)
    ensures (exists k :: Flagged(steps, k)) <==> exists j, k :: 0 <= j <= k && Commits(steps, j) && Pushes(steps, k)
  {
    if j, k :| 0 <= j <= k && Commits(steps, j) && Pushes(steps, k) {
      FirstPushIsFlagged(steps, j, k);
    }
    if k :| Flagged(steps, k) {
      var j :| 0 <= j <= k && Pending(steps, j, k);
      assert Commits(steps, j) && Pushes(steps, k);
    }
  }

  // ---------------------------------------------------------------- one file

  datatype Job = NotAJob | Job(id: string, steps: seq<Step>)

  /** A workflow file: unparsable, or its jobs (none when the document is not a mapping). */
  datatype Workflow = YamlError | Jobs(jobs: seq<Job>)

  datatype Site = Site(job: string, step: string)

  ghost predicate IsSite(jobs: seq<Job>, s: Site) {
    exists i, k :: 0 <= i < |jobs| && jobs[i].Job? && jobs[i].id == s.job
                   && Flagged(jobs[i].steps, k) && jobs[i].steps[k].key == s.step
  }

  method ScanFile(jobs: seq<Job>) returns (hits: set<Site>)
    ensures forall s :: s in hits <==> IsSite(jobs, s)
  {
    hits := {};
    for i := 0 to |jobs|
      invariant forall s :: s in hits <==> IsSite(jobs[..i], s)
    {
      SiteAppend(jobs, i);
      if jobs[i].NotAJob? {
        continue;
      }
      var flagged := ScanJob(jobs[i].steps);
      hits := hits + set k | k in flagged :: Site(jobs[i].id, jobs[i].steps[k].key);
    }
    assert jobs[..|jobs|] == jobs;
  }

  lemma SiteAppend(jobs: seq<Job>, n: nat)
    requires n < |jobs|
    ensures forall s :: IsSite(jobs[..n + 1], s) <==>
              IsSite(jobs[..n], s)
              || (jobs[n].Job? && jobs[n].id == s.job
                  && exists k :: Flagged(jobs[n].steps, k) && jobs[n].steps[k].key == s.step)
  {
    forall s ensures IsSite(jobs[..n + 1], s) <==>
              IsSite(jobs[..n], s)
              || (jobs[n].Job? && jobs[n].id == s.job
                  && exists k :: Flagged(jobs[n].steps, k) && jobs[n].steps[k].key == s.step)
    {
      assert forall i :: 0 <= i < n ==> jobs[..n][i] == jobs[i] == jobs[..n + 1][i];
      assert jobs[..n + 1][n] == jobs[n];
      if IsSite(jobs[..n], s) {
        var i, k :| 0 <= i < n && jobs[..n][i].Job? && jobs[..n][i].id == s.job && Flagged(jobs[..n][i].steps, k)
           && jobs[..n][i].steps[k].key == s.step;
        assert jobs[..n + 1][i].Job?;
      }
    }
  }
}

/**
 Any number of concurrent temp-and-rename writers on one directory
 (cli/internal/compose/writer.go).  Every system call of a writer is one step; steps of
 different writers interleave freely, any call may fail, a process may die between two
 calls, and the machine may lose power, which loses unsynced file data and every directory
 change since the last directory sync.  Names and files are kept apart: a writer writes
 through the file it opened, but renames and removes by name, as the system calls do.
 */
module AtomicWriter {

  import opened Text

  type Name = string

  /** One call: replace `dst` by `data`, staging in the sibling `tmp`. */
  datatype Job = Job(dst: Name, tmp: Name, data: string)

  /** What does not change: the calls to run and the files that were there before. */
  datatype Setup = Setup(jobs: seq<Job>, files: map<Name, string>)
  {
    ghost predicate IsTarget(n: Name) {
      exists w :: 0 <= w < |jobs| && jobs[w].dst == n
    }
    /** No call stages under a name that another call replaces. */
    ghost predicate WellFormed() {
      forall w :: 0 <= w < |jobs| ==> !IsTarget(jobs[w].tmp)
    }
  }

  /** How a call ended: renamed; lost the O_EXCL race (or got no name); failed and its deferred
      removal worked; failed and its deferred removal failed too. */
  datatype Outcome = Success | NotOpened | Cleaned | Left

  datatype Phase =
    | Start | Opened | Written | Synced | Closed
    | Failing                     // an error after the open: the deferred removal is next
    | Committed                   // the rename worked
    | Returned(outcome: Outcome)
    | Crashed

  /** A writer, with the content of the file it created. */
  datatype Proc = Proc(phase: Phase, bytes: string, synced: bool)
  {
    /** Between its open and its rename or removal. */
    predicate Owns() {
      phase.Opened? || phase.Written? || phase.Synced? || phase.Closed? || phase.Failing?
    }
    /** It renamed, or died (possibly after renaming). */
    predicate MayHaveCommitted() {
      phase.Committed? || phase == Returned(Success) || phase.Crashed?
    }
  }

  /** A file: one that was there before under some name, or the one writer `w` created. */
  datatype FileId = Old(was: Name) | Of(w: nat)

  /** A directory, with the renames that led to it, oldest first. */
  datatype Dir = Dir(entries: map<Name, FileId>, log: seq<nat>)

  /** `past` holds the directories a power loss may still bring back. */
  datatype State = State(procs: seq<Proc>, now: Dir, past: seq<Dir>, outage: bool)

  datatype Step =
    | OpenOk | OpenFail
    | WriteSome(n: nat) | WriteOk | WriteFail
    | SyncOk | SyncFail | CloseOk | CloseFail
    | RenameOk | RenameFail
    | RemoveOk | RemoveFail
    | DirSync | ReturnOk | Crash

  datatype Event = Act(w: nat, step: Step) | PowerLoss(pick: nat, garbage: seq<string>)

  // ---------------------------------------------------------------- transitions

  predicate Enabled(c: Setup, s: State, e: Event) {
    match e
    case PowerLoss(pick, garbage) => pick <= |s.past| && |garbage| == |s.procs|
    case Act(w, step) =>
      w < |s.procs| == |c.jobs| &&
      var p := s.procs[w];
      match step
      case OpenOk => p.phase.Start? && c.jobs[w].tmp !in s.now.entries   // O_EXCL
      case OpenFail => p.phase.Start?
      case WriteSome(n) => p.phase.Opened? && |p.bytes| <= n <= |c.jobs[w].data|
      case WriteOk => p.phase.Opened?
      case WriteFail => p.phase.Opened?
      case SyncOk => p.phase.Written?
      case SyncFail => p.phase.Written?
      case CloseOk => p.phase.Synced?
      case CloseFail => p.phase.Synced?
      case RenameOk => p.phase.Closed? && c.jobs[w].tmp in s.now.entries
      case RenameFail => p.phase.Closed?
      case RemoveOk => p.phase.Failing? && c.jobs[w].tmp in s.now.entries
      case RemoveFail => p.phase.Failing?
      case DirSync => p.phase.Committed?
      case ReturnOk => p.phase.Committed?
      case Crash => p.Owns() || p.phase.Committed?
  }

  function Set(s: State, w: nat, p: Proc): State
    requires w < |s.procs|
  {
    s.(procs := s.procs[w := p])
  }

  function Changed(s: State, now: Dir): State {
    s.(now := now, past := s.past + [s.now])
  }

  /** What a power loss leaves of a writer: a running one is dead, unsynced data is lost. */
  function Dead(p: Proc, garbage: string): Proc {
    Proc(if p.Owns() || p.phase.Committed? then Crashed else p.phase,
         if p.synced then p.bytes else garbage, true)
  }

  function Next(c: Setup, s: State, e: Event): State
    requires Enabled(c, s, e)
  {
    match e
    case PowerLoss(pick, garbage) =>
      State(seq(|s.procs|, i requires 0 <= i < |s.procs| => Dead(s.procs[i], garbage[i])),
            (s.past + [s.now])[pick], [], true)
    case Act(w, step) =>
      var p, job := s.procs[w], c.jobs[w];
      match step
      case OpenOk =>
        Changed(Set(s, w, Proc(Opened, "", false)), s.now.(entries := s.now.entries[job.tmp := Of(w)]))
      case OpenFail => Set(s, w, p.(phase := Returned(NotOpened)))
      case WriteSome(n) => Set(s, w, Proc(Opened, job.data[..n], false))
      case WriteOk => Set(s, w, Proc(Written, job.data, false))
      case SyncOk => Set(s, w, p.(phase := Synced, synced := true))
      case CloseOk => Set(s, w, p.(phase := Closed))
      case WriteFail | SyncFail | CloseFail | RenameFail => Set(s, w, p.(phase := Failing))
      case RenameOk =>
        Changed(Set(s, w, p.(phase := Committed)),
                Dir((s.now.entries - {job.tmp})[job.dst := s.now.entries[job.tmp]], s.now.log + [w]))
      case RemoveOk =>
        Changed(Set(s, w, p.(phase := Returned(Cleaned))), s.now.(entries := s.now.entries - {job.tmp}))
      case RemoveFail => Set(s, w, p.(phase := Returned(Left)))
      case DirSync => s.(past := [])
      case ReturnOk => Set(s, w, p.(phase := Returned(Success)))
      case Crash => Set(s, w, p.(phase := Crashed))
  }

  ghost predicate Run(c: Setup, s: State, events: seq<Event>, t: State)
    decreases |events|
  {
    if events == [] then s == t
    else Enabled(c, s, events[0]) && Run(c, Next(c, s, events[0]), events[1..], t)
  }

  function Initial(c: Setup): State {
    State(seq(|c.jobs|, _ => Proc(Start, "", true)), Dir(map n | n in c.files :: Old(n), []), [], false)
  }

  // ---------------------------------------------------------------- what a directory shows

  /** The last writer of `t` in a log. */
  function LastCommit(c: Setup, log: seq<nat>, t: Name): (r: Option<nat>)
    ensures r.Some? ==> r.value in log && r.value < |c.jobs| && c.jobs[r.value].dst == t
  {
    if log == [] then None
    else
      var w := log[|log| - 1];
      if w < |c.jobs| && c.jobs[w].dst == t then Some(w) else LastCommit(c, log[..|log| - 1], t)
  }

  /** The bytes a reader of name `t` gets. */
  function Read(c: Setup, s: State, t: Name): Option<string> {
    if t !in s.now.entries then None
    else match s.now.entries[t]
      case Old(n) => if n in c.files then Some(c.files[n]) else None
      case Of(w) => if w < |s.procs| then Some(s.procs[w].bytes) else None
  }

  predicate NoDup(log: seq<nat>) {
    log == [] || (log[|log| - 1] !in log[..|log| - 1] && NoDup(log[..|log| - 1]))
  }

  // ---------------------------------------------------------------- the invariant

  /** A renamed writer's file is complete and on disk. */
  ghost predicate CommitOk(c: Setup, s: State, w: nat) {
    w < |s.procs| == |c.jobs| && s.procs[w].MayHaveCommitted() && s.procs[w].bytes == c.jobs[w].data
    && s.procs[w].synced
  }

  /** A writer's file is named by its temp name before its rename and by its target after it. */
  ghost predicate EntryOk(c: Setup, d: Dir, n: Name) {
    n in d.entries && d.entries[n].Of? ==>
      var w := d.entries[n].w;
      w < |c.jobs| && if w in d.log then n == c.jobs[w].dst else n == c.jobs[w].tmp
  }

  /** A writer that has not opened its file, and never will if its open failed. */
  predicate Unborn(s: State, w: nat) {
    w < |s.procs| && (s.procs[w].phase.Start? || s.procs[w].phase == Returned(NotOpened))
  }

  /** No name leads to a file that was not created. */
  ghost predicate NamesBorn(s: State, d: Dir) {
    forall n :: n in d.entries && d.entries[n].Of? ==> !Unborn(s, d.entries[n].w)
  }

  ghost predicate TargetOk(c: Setup, d: Dir, t: Name) {
    match LastCommit(c, d.log, t)
    case Some(w) => t in d.entries && d.entries[t] == Of(w)
    case None => if t in c.files then t in d.entries && d.entries[t] == Old(t) else t !in d.entries
  }

  ghost predicate DirOk(c: Setup, s: State, d: Dir) {
    && NoDup(d.log)
    && (forall w :: w in d.log ==> CommitOk(c, s, w))
    && (forall n :: n in d.entries ==> EntryOk(c, d, n))
    && (forall t :: c.IsTarget(t) ==> TargetOk(c, d, t))
    && NamesBorn(s, d)
  }

  ghost predicate ProcOk(c: Setup, s: State, w: nat)
    requires w < |s.procs| == |c.jobs|
  {
    var p, tmp := s.procs[w], c.jobs[w].tmp;
    var named := tmp in s.now.entries && s.now.entries[tmp] == Of(w);
    && (p.phase.Start? ==> p.synced)
    && (p.Owns() ==> named && HasPrefix(c.jobs[w].data, p.bytes))
    && (p.phase.Written? || p.phase.Synced? || p.phase.Closed? ==> p.bytes == c.jobs[w].data)
    && (p.phase.Synced? || p.phase.Closed? ==> p.synced)
    && (p.phase.Committed? ==> w in s.now.log)
    && (p.phase == Returned(Success) && !s.outage ==> w in s.now.log)
    && (p.phase == Returned(Cleaned) && !s.outage ==> !named)
  }

  ghost predicate Inv(c: Setup, s: State) {
    && |s.procs| == |c.jobs|
    && (forall w :: 0 <= w < |s.procs| ==> ProcOk(c, s, w))
    && DirOk(c, s, s.now)
    && (forall i :: 0 <= i < |s.past| ==> DirOk(c, s, s.past[i]))
  }

  // ---------------------------------------------------------------- it is inductive

  lemma InitialInv(c: Setup)
    ensures Inv(c, Initial(c))
  {
  }

  /** A directory stays good as long as nobody touches the files it committed. */
  lemma DirKept(c: Setup, s: State, t: State, d: Dir)
    requires DirOk(c, s, d)
    requires forall w :: w in d.log && CommitOk(c, s, w) ==> CommitOk(c, t, w)
    requires forall w :: Unborn(t, w) ==> Unborn(s, w)
    ensures DirOk(c, t, d)
  {
  }

  /** Steps that change one writer and no name. */
  lemma ProcInv(c: Setup, s: State, w: nat, p: Proc)
    requires Inv(c, s) && w < |s.procs|
    requires ProcOk(c, Set(s, w, p), w)
    requires CommitOk(c, s, w) ==> CommitOk(c, Set(s, w, p), w)
    requires Unborn(Set(s, w, p), w) ==> Unborn(s, w)
    ensures Inv(c, Set(s, w, p))
  {
    var t := Set(s, w, p);
    forall v | 0 <= v < |t.procs| ensures ProcOk(c, t, v) {
      assert v != w ==> ProcOk(c, s, v);
    }
    DirKept(c, s, t, s.now);
    forall i | 0 <= i < |s.past| ensures DirOk(c, t, s.past[i]) {
      DirKept(c, s, t, s.past[i]);
    }
  }

  /** Steps that also change the directory. */
  lemma ChangeInv(c: Setup, s: State, now: Dir)
    requires |s.procs| == |c.jobs|
    requires DirOk(c, s, s.now) && (forall i :: 0 <= i < |s.past| ==> DirOk(c, s, s.past[i]))
    requires DirOk(c, s, now)
    requires forall w :: 0 <= w < |s.procs| ==> ProcOk(c, Changed(s, now), w)
    ensures Inv(c, Changed(s, now))
  {
    var t := Changed(s, now);
    DirKept(c, s, t, s.now);
    DirKept(c, s, t, now);
    forall i | 0 <= i < |t.past| ensures DirOk(c, t, t.past[i]) {
      if i < |s.past| {
        DirKept(c, s, t, s.past[i]);
      }
    }
  }

  /** Replacing one writer keeps every directory good, if that writer had not renamed or its
      file stays complete. */
  lemma DirsKept(c: Setup, s: State, w: nat, p: Proc)
    requires Inv(c, s) && w < |s.procs|
    requires CommitOk(c, s, w) ==> CommitOk(c, Set(s, w, p), w)
    requires Unborn(Set(s, w, p), w) ==> Unborn(s, w)
    ensures DirOk(c, Set(s, w, p), s.now)
    ensures forall i :: 0 <= i < |s.past| ==> DirOk(c, Set(s, w, p), s.past[i])
  {
    var t := Set(s, w, p);
    DirKept(c, s, t, s.now);
    forall i | 0 <= i < |s.past| ensures DirOk(c, t, s.past[i]) {
      DirKept(c, s, t, s.past[i]);
    }
  }

  lemma OpenInv(c: Setup, s: State, w: nat)
    requires c.WellFormed() && Inv(c, s) && Enabled(c, s, Act(w, OpenOk))
    ensures Inv(c, Next(c, s, Act(w, OpenOk)))
  {
    var p := Proc(Opened, "", false);
    var t := Set(s, w, p);
    var now := s.now.(entries := s.now.entries[c.jobs[w].tmp := Of(w)]);
    DirsKept(c, s, w, p);
    assert DirOk(c, t, now) by {
      assert w !in now.log;
      forall n | n in now.entries ensures EntryOk(c, now, n) {
        assert n in s.now.entries ==> EntryOk(c, s.now, n);
      }
      forall n | c.IsTarget(n) ensures TargetOk(c, now, n) {
        assert TargetOk(c, s.now, n);
      }
    }
    forall v | 0 <= v < |t.procs| ensures ProcOk(c, Changed(t, now), v) {
      assert ProcOk(c, s, v);
    }
    ChangeInv(c, t, now);
  }

  lemma RemoveInv(c: Setup, s: State, w: nat)
    requires c.WellFormed() && Inv(c, s) && Enabled(c, s, Act(w, RemoveOk))
    ensures Inv(c, Next(c, s, Act(w, RemoveOk)))
  {
    var p := s.procs[w].(phase := Returned(Cleaned));
    var t := Set(s, w, p);
    var now := s.now.(entries := s.now.entries - {c.jobs[w].tmp});
    assert ProcOk(c, s, w);
    DirsKept(c, s, w, p);
    assert DirOk(c, t, now) by {
      forall n | n in now.entries ensures EntryOk(c, now, n) {
        assert EntryOk(c, s.now, n);
      }
      forall n | c.IsTarget(n) ensures TargetOk(c, now, n) {
        assert TargetOk(c, s.now, n);
      }
    }
    forall v | 0 <= v < |t.procs| ensures ProcOk(c, Changed(t, now), v) {
      assert ProcOk(c, s, v);
    }
    ChangeInv(c, t, now);
  }

  lemma RenameInv(c: Setup, s: State, w: nat)
    requires c.WellFormed() && Inv(c, s) && Enabled(c, s, Act(w, RenameOk))
    ensures Inv(c, Next(c, s, Act(w, RenameOk)))
  {
    var p := s.procs[w].(phase := Committed);
    var t := Set(s, w, p);
    var tmp, dst := c.jobs[w].tmp, c.jobs[w].dst;
    var now := Dir((s.now.entries - {tmp})[dst := s.now.entries[tmp]], s.now.log + [w]);
    assert ProcOk(c, s, w);
    DirsKept(c, s, w, p);
    assert DirOk(c, t, now) by {
      assert w !in s.now.log && now.log[..|s.now.log|] == s.now.log;
      assert CommitOk(c, t, w);
      forall n | n in now.entries ensures EntryOk(c, now, n) {
        assert n == dst || EntryOk(c, s.now, n);
      }
      forall n | c.IsTarget(n) ensures TargetOk(c, now, n) {
        assert TargetOk(c, s.now, n);
      }
    }
    assert c.IsTarget(dst);
    forall v | 0 <= v < |t.procs| ensures ProcOk(c, Changed(t, now), v) {
      assert ProcOk(c, s, v);
      assert !c.IsTarget(c.jobs[v].tmp);
    }
    ChangeInv(c, t, now);
  }

  lemma PowerLossInv(c: Setup, s: State, e: Event)
    requires Inv(c, s) && e.PowerLoss? && Enabled(c, s, e)
    ensures Inv(c, Next(c, s, e))
  {
    var t := Next(c, s, e);
    DirKept(c, s, t, (s.past + [s.now])[e.pick]);
    forall v | 0 <= v < |t.procs| ensures ProcOk(c, t, v) {
      assert ProcOk(c, s, v);
    }
  }

  lemma DirSyncInv(c: Setup, s: State)
    requires Inv(c, s)
    ensures Inv(c, s.(past := []))
  {
    var t := s.(past := []);
    DirKept(c, s, t, s.now);
    forall v | 0 <= v < |t.procs| ensures ProcOk(c, t, v) {
      assert ProcOk(c, s, v);
    }
  }

  lemma QuietInv(c: Setup, s: State, w: nat, step: Step)
    requires Inv(c, s) && Enabled(c, s, Act(w, step))
    requires !step.OpenOk? && !step.RenameOk? && !step.RemoveOk? && !step.DirSync?
    ensures Inv(c, Next(c, s, Act(w, step)))
  {
    var t := Next(c, s, Act(w, step));
    assert t == Set(s, w, t.procs[w]);
    assert ProcOk(c, s, w);
    assert w in s.now.log ==> CommitOk(c, s, w);
    ProcInv(c, s, w, t.procs[w]);
  }

  lemma StepInv(c: Setup, s: State, e: Event)
    requires c.WellFormed() && Inv(c, s) && Enabled(c, s, e)
    ensures Inv(c, Next(c, s, e))
  {
    match e
    case PowerLoss(_, _) => PowerLossInv(c, s, e);
    case Act(w, step) =>
      match step
      case OpenOk => OpenInv(c, s, w);
      case RenameOk => RenameInv(c, s, w);
      case RemoveOk => RemoveInv(c, s, w);
      case DirSync => DirSyncInv(c, s);
      case _ => QuietInv(c, s, w, step);
  }

  lemma {:induction false} RunInv(c: Setup, s: State, events: seq<Event>, t: State)
    requires c.WellFormed() && Inv(c, s) && Run(c, s, events, t)
    ensures Inv(c, t)
    decreases |events|
  {
    if events != [] {
      StepInv(c, s, events[0]);
      RunInv(c, Next(c, s, events[0]), events[1..], t);
    }
  }

  lemma Reached(c: Setup, events: seq<Event>, s: State)
    requires c.WellFormed() && Run(c, Initial(c), events, s)
    ensures Inv(c, s)
  {
    InitialInv(c);
    RunInv(c, Initial(c), events, s);
  }

  // ---------------------------------------------------------------- what every run keeps

  /** Whatever the interleaving, the failures, the crashes and the power losses: a target always
      reads as its initial content or as the complete data of one writer, namely the last one
      whose rename the directory shows. */
  lemma TargetIsAlwaysWhole(c: Setup, events: seq<Event>, s: State, t: Name)
    requires c.WellFormed() && c.IsTarget(t) && Run(c, Initial(c), events, s)
    ensures match LastCommit(c, s.now.log, t)
            case Some(w) => Read(c, s, t) == Some(c.jobs[w].data)
            case None => Read(c, s, t) == (if t in c.files then Some(c.files[t]) else None)
  {
    Reached(c, events, s);
    assert TargetOk(c, s.now, t);
  }

  /** Without a power loss the log is exactly the writers that renamed, each once: a writer that
      returned nil is in it, a writer that returned an error is not. */
  lemma ReturnMatchesCommit(c: Setup, events: seq<Event>, s: State, w: nat)
    requires c.WellFormed() && Run(c, Initial(c), events, s) && w < |s.procs| && s.procs[w].phase.Returned? && !s.outage
    ensures w in s.now.log <==> s.procs[w].phase == Returned(Success)
    ensures NoDup(s.now.log)
  {
    Reached(c, events, s);
    assert ProcOk(c, s, w);
  }

  /** Until a writer renames or removes its temp file, no peer deletes, replaces or writes it, not
      even a peer that drew the same temp name and lost the O_EXCL race. */
  lemma TempIsNeverTouchedByPeers(c: Setup, events: seq<Event>, s: State, w: nat)
    requires c.WellFormed() && Run(c, Initial(c), events, s) && w < |s.procs| && s.procs[w].Owns()
    ensures w < |c.jobs| && c.jobs[w].tmp in s.now.entries && s.now.entries[c.jobs[w].tmp] == Of(w)
    ensures HasPrefix(c.jobs[w].data, s.procs[w].bytes)
  {
    Reached(c, events, s);
    assert ProcOk(c, s, w);
  }

  /** Only a failed removal makes a writer return with its temp file left behind. */
  lemma {:induction false} LeftNeedsFailedRemoval(c: Setup, s: State, events: seq<Event>, t: State, w: nat)
    requires Run(c, s, events, t) && w < |s.procs| && Act(w, RemoveFail) !in events
    requires s.procs[w].phase != Returned(Left)
    ensures |t.procs| == |s.procs| && t.procs[w].phase != Returned(Left)
    decreases |events|
  {
    if events != [] {
      assert events[0] in events;
      LeftNeedsFailedRemoval(c, Next(c, s, events[0]), events[1..], t, w);
    }
  }

  /** In every run without power loss in which its own removal did not fail, a writer that has returned, in
      whatever way, leaves no name but its target for the file it created, and that only after a rename. */
  lemma ReturnLeavesNoTemp(c: Setup, events: seq<Event>, s: State, w: nat, n: Name)
    requires c.WellFormed() && Run(c, Initial(c), events, s) && w < |s.procs| && !s.outage
    requires s.procs[w].phase.Returned? && Act(w, RemoveFail) !in events
    requires n in s.now.entries && s.now.entries[n] == Of(w)
    ensures w < |c.jobs| && s.procs[w].phase == Returned(Success) && n == c.jobs[w].dst
  {
    Reached(c, events, s);
    LeftNeedsFailedRemoval(c, Initial(c), events, s, w);
    assert ProcOk(c, s, w);
    assert EntryOk(c, s.now, n);
    assert NamesBorn(s, s.now);
    assert w in s.now.log ==> CommitOk(c, s, w);
    assert s.procs[w].phase.outcome != NotOpened;
    assert s.procs[w].phase.outcome != Left;
    assert s.procs[w].phase.outcome != Cleaned;
  }

  // ---------------------------------------------------------------- writers can finish

  function After(c: Setup, s: State, events: seq<Event>): Option<State>
    decreases |events|
  {
    if events == [] then Some(s)
    else if Enabled(c, s, events[0]) then After(c, Next(c, s, events[0]), events[1..])
    else None
  }

  lemma {:induction false} AfterIsRun(c: Setup, s: State, events: seq<Event>)
    requires After(c, s, events).Some?
    ensures Run(c, s, events, After(c, s, events).value)
    decreases |events|
  {
    if events != [] {
      AfterIsRun(c, Next(c, s, events[0]), events[1..]);
    }
  }

  lemma AfterStep(c: Setup, s: State, e: Event, rest: seq<Event>)
    requires Enabled(c, s, e)
    ensures After(c, s, [e] + rest) == After(c, Next(c, s, e), rest)
  {
    assert ([e] + rest)[1..] == rest;
  }

  /** The calls of a write in which none fails. */
  function Calls(w: nat): seq<Event> {
    [Act(w, OpenOk), Act(w, WriteOk), Act(w, SyncOk), Act(w, CloseOk)]
    + [Act(w, RenameOk), Act(w, DirSync), Act(w, ReturnOk)]
  }

  function Staged(c: Setup, s: State, w: nat): State
    requires w < |s.procs| == |c.jobs|
  {
    Changed(Set(s, w, Proc(Closed, c.jobs[w].data, true)), s.now.(entries := s.now.entries[c.jobs[w].tmp := Of(w)]))
  }

  lemma Staging(c: Setup, s: State, w: nat, rest: seq<Event>)
    requires w < |s.procs| == |c.jobs| && s.procs[w].phase.Start? && c.jobs[w].tmp !in s.now.entries
    ensures After(c, s, [Act(w, OpenOk)] + ([Act(w, WriteOk)] + ([Act(w, SyncOk)] + ([Act(w, CloseOk)] + rest))))
              == After(c, Staged(c, s, w), rest)
  {
    var s1 := Next(c, s, Act(w, OpenOk));
    var s2 := Next(c, s1, Act(w, WriteOk));
    var s3 := Next(c, s2, Act(w, SyncOk));
    AfterStep(c, s, Act(w, OpenOk), [Act(w, WriteOk)] + ([Act(w, SyncOk)] + ([Act(w, CloseOk)] + rest)));
    AfterStep(c, s1, Act(w, WriteOk), [Act(w, SyncOk)] + ([Act(w, CloseOk)] + rest));
    AfterStep(c, s2, Act(w, SyncOk), [Act(w, CloseOk)] + rest);
    AfterStep(c, s3, Act(w, CloseOk), rest);
    assert Next(c, s3, Act(w, CloseOk)) == Staged(c, s, w);
  }

  lemma Committing(c: Setup, s: State, w: nat)
    requires w < |s.procs| == |c.jobs| && s.procs[w] == Proc(Closed, c.jobs[w].data, true)
    requires c.jobs[w].tmp in s.now.entries && s.now.entries[c.jobs[w].tmp] == Of(w)
    ensures var t := After(c, s, [Act(w, RenameOk)] + ([Act(w, DirSync)] + ([Act(w, ReturnOk)] + [])));
            && t.Some? && w < |t.value.procs| && t.value.procs[w].phase == Returned(Success)
            && t.value.now.log == s.now.log + [w] && t.value.past == []
            && Read(c, t.value, c.jobs[w].dst) == Some(c.jobs[w].data)
  {
    var s1 := Next(c, s, Act(w, RenameOk));
    var s2 := Next(c, s1, Act(w, DirSync));
    AfterStep(c, s, Act(w, RenameOk), [Act(w, DirSync)] + ([Act(w, ReturnOk)] + []));
    AfterStep(c, s1, Act(w, DirSync), [Act(w, ReturnOk)] + []);
    AfterStep(c, s2, Act(w, ReturnOk), []);
  }

  /** From every reachable state, a writer that draws a free name and whose calls work commits: it returns
      nil, its target reads as its data, and its commit survives every later power loss. */
  lemma UndisturbedWriteCommits(c: Setup, s: State, w: nat)
    requires c.WellFormed() && Inv(c, s) && w < |s.procs| && s.procs[w].phase.Start? && c.jobs[w].tmp !in s.now.entries
    ensures var t := After(c, s, Calls(w));
            && t.Some? && w < |t.value.procs| && t.value.procs[w].phase == Returned(Success)
            && t.value.now.log == s.now.log + [w] && t.value.past == []
            && Read(c, t.value, c.jobs[w].dst) == Some(c.jobs[w].data) && Run(c, s, Calls(w), t.value)
  {
    var rest := [Act(w, RenameOk)] + ([Act(w, DirSync)] + ([Act(w, ReturnOk)] + []));
    assert Calls(w) == [Act(w, OpenOk)] + ([Act(w, WriteOk)] + ([Act(w, SyncOk)] + ([Act(w, CloseOk)] + rest)));
    Staging(c, s, w, rest);
    Committing(c, Staged(c, s, w), w);
    AfterIsRun(c, s, Calls(w));
  }

  /** The error of the call a writer is about to make. */
  function Fails(p: Phase): Option<Step> {
    match p
    case Opened => Some(WriteFail)
    case Written => Some(SyncFail)
    case Synced => Some(CloseFail)
    case Closed => Some(RenameFail)
    case _ => None
  }

  /** From every reachable state, whichever call of a writer fails next, its removal comes next and, when it
      works, leaves no name for the file and the target as it was. */
  lemma EveryErrorIsCleanedUp(c: Setup, s: State, w: nat)
    requires c.WellFormed() && Inv(c, s) && w < |s.procs| && Fails(s.procs[w].phase).Some?
    ensures var fail := Act(w, Fails(s.procs[w].phase).value);
            && Enabled(c, s, fail) && Enabled(c, Next(c, s, fail), Act(w, RemoveOk))
            && var t := Next(c, Next(c, s, fail), Act(w, RemoveOk));
               && t.procs[w].phase == Returned(Cleaned) && t.now.entries == s.now.entries - {c.jobs[w].tmp}
               && (forall n :: n in t.now.entries ==> t.now.entries[n] != Of(w))
               && Read(c, t, c.jobs[w].dst) == Read(c, s, c.jobs[w].dst)
  {
    assert ProcOk(c, s, w);
    var fail := Act(w, Fails(s.procs[w].phase).value);
    var t := Next(c, Next(c, s, fail), Act(w, RemoveOk));
    assert c.IsTarget(c.jobs[w].dst) && !c.IsTarget(c.jobs[w].tmp);
    assert w in s.now.log ==> CommitOk(c, s, w);
    forall n | n in t.now.entries ensures t.now.entries[n] != Of(w) {
      assert EntryOk(c, s.now, n);
    }
  }

  // ---------------------------------------------------------------- durability

  ghost predicate Durable(s: State, log: seq<nat>) {
    log <= s.now.log && forall i :: 0 <= i < |s.past| ==> log <= s.past[i].log
  }

  lemma {:induction false} DurableRun(c: Setup, s: State, events: seq<Event>, t: State, log: seq<nat>)
    requires Run(c, s, events, t) && Durable(s, log)
    ensures Durable(t, log)
    decreases |events|
  {
    if events != [] {
      var u := Next(c, s, events[0]);
      assert forall i :: 0 <= i < |s.past| ==> (s.past + [s.now])[i] == s.past[i];
      DurableRun(c, u, events[1..], t, log);
    }
  }

  /** The directory sync is what makes a commit survive: once it has run, no later power loss can
      bring back a directory without the renames made so far. */
  lemma SyncedCommitsSurvive(c: Setup, s: State, w: nat, events: seq<Event>, t: State)
    requires Enabled(c, s, Act(w, DirSync)) && Run(c, Next(c, s, Act(w, DirSync)), events, t)
    ensures s.now.log <= t.now.log
  {
    DurableRun(c, Next(c, s, Act(w, DirSync)), events, t, s.now.log);
  }

  // ---------------------------------------------------------------- temp names

  /** uniqueTempName. */
  function TempName(dst: Name, pid: string, nonce: string): Name {
    dst + ".tmp-" + pid + "-" + nonce
  }

  /** Calls that replace only the deployment's two files are well formed, whatever names they draw. */
  lemma DeploymentIsWellFormed(c: Setup)
    requires forall w :: 0 <= w < |c.jobs| ==>
               && (c.jobs[w].dst == "compose.yml" || c.jobs[w].dst == "nats.conf")
               && exists pid, nonce :: c.jobs[w].tmp == TempName(c.jobs[w].dst, pid, nonce)
    ensures c.WellFormed()
  {
    forall w | 0 <= w < |c.jobs| ensures !c.IsTarget(c.jobs[w].tmp) {
      var dst := c.jobs[w].dst;
      var pid, nonce :| c.jobs[w].tmp == TempName(dst, pid, nonce);
      assert c.jobs[w].tmp[..|dst|] == dst && |c.jobs[w].tmp| > |dst|;
      assert c.jobs[w].tmp[|dst|] == '.';
      assert dst == "nats.conf" ==> c.jobs[w].tmp[0] == 'n';
    }
  }
}

/**
  Updates and lookups running against one class store at once. The copy made for rollback
  is taken under a read lock that is released before the write lock is acquired, so other
  updates can commit in between.
*/
module ClassDataRuns {
  import opened Text
  import opened ClassData

  /**
    Where a thread stands. `from` is the version it copied, `base` the one it found when it got
    the write lock; `read` counts the entries of the directory it has read since.
  */
  datatype Phase =
    | Copying(cp: Classes, rest: set<string>, from: nat)
    | Copied(cp: Classes, from: nat)
    | Writing(cp: Classes, from: nat, base: nat, dir: Listing, read: nat)
    | Looking(name: string)

  datatype Observation = Observation(name: string, answer: Option<string>, version: nat)

  /** A successful update: the version it found and the directory it read. */
  datatype Commit = Commit(base: nat, dir: Listing)

  /** The store and its threads; versions and commits record the past for the statements below. */
  datatype State = State(
    data: Classes,
    threads: map<nat, Phase>,
    versions: seq<Classes>,
    commits: seq<Commit>,
    current: nat,
    observed: seq<Observation>)

  datatype Step =
    | BeginUpdate(t: nat)
    | CopyEntry(t: nat, key: string)
    | ReleaseRead(t: nat)
    | AcquireWrite(t: nat, dir: Listing)
    | ReadEntry(t: nat)
    | FinishUpdate(t: nat)
    | BeginLookup(t: nat, name: string)
    | FinishLookup(t: nat)

  predicate WriteLocked(s: State) {
    exists t :: t in s.threads && s.threads[t].Writing?
  }

  predicate ReadLocked(s: State) {
    exists t :: t in s.threads && (s.threads[t].Copying? || s.threads[t].Looking?)
  }

  /** A directory that cannot be listed has nothing to read. */
  function Entries(dir: Listing): seq<Entry> {
    if dir.Listed? then dir.entries else []
  }

  /** The reads are over, or the next one fails. */
  predicate Ends(p: Phase)
    requires p.Writing?
  {
    p.read >= |Entries(p.dir)| || !ReadableEntry(Entries(p.dir)[p.read])
  }

  predicate Enabled(s: State, step: Step) {
    match step
    case BeginUpdate(t) => t !in s.threads && !WriteLocked(s)
    case CopyEntry(t, key) => t in s.threads && s.threads[t].Copying? && key in s.threads[t].rest && key in s.data
    case ReleaseRead(t) => t in s.threads && s.threads[t].Copying? && s.threads[t].rest == {}
    case AcquireWrite(t, dir) => t in s.threads && s.threads[t].Copied? && !WriteLocked(s) && !ReadLocked(s)
    case ReadEntry(t) => t in s.threads && s.threads[t].Writing? && !Ends(s.threads[t])
    case FinishUpdate(t) => t in s.threads && s.threads[t].Writing? && Ends(s.threads[t])
    case BeginLookup(t, name) => t !in s.threads && !WriteLocked(s)
    case FinishLookup(t) => t in s.threads && s.threads[t].Looking?
  }

  predicate Succeeds(p: Phase, data: Classes, parses: string -> bool)
    requires p.Writing?
  {
    p.dir.Listed? && p.read == |p.dir.entries| && Validated(data, parses)
  }

  function Next(s: State, step: Step, parses: string -> bool): State
    requires Enabled(s, step)
  {
    match step
    case BeginUpdate(t) => s.(threads := s.threads[t := Copying(map[], s.data.Keys, s.current)])
    case CopyEntry(t, key) =>
      var p := s.threads[t];
      s.(threads := s.threads[t := p.(cp := p.cp[key := s.data[key]], rest := p.rest - {key})])
    case ReleaseRead(t) => s.(threads := s.threads[t := Copied(s.threads[t].cp, s.threads[t].from)])
    case AcquireWrite(t, dir) =>
      var p := s.threads[t];
      s.(threads := s.threads[t := Writing(p.cp, p.from, s.current, dir, 0)])
    case ReadEntry(t) =>
      var p := s.threads[t];
      s.(data := Overlay(s.data, p.dir.entries[p.read]), threads := s.threads[t := p.(read := p.read + 1)])
    case FinishUpdate(t) =>
      var p := s.threads[t];
      if Succeeds(p, s.data, parses) then
        s.(threads := s.threads - {t}, versions := s.versions + [s.data],
           commits := s.commits + [Commit(p.base, p.dir)], current := |s.versions|)
      else
        s.(threads := s.threads - {t}, data := p.cp, current := p.from)
    case BeginLookup(t, name) => s.(threads := s.threads[t := Looking(name)])
    case FinishLookup(t) =>
      var name := s.threads[t].name;
      s.(threads := s.threads - {t}, observed := s.observed + [Observation(name, Lookup(s.data, name), s.current)])
  }

  function Lookup(data: Classes, name: string): Option<string> {
    if name in data then Some(data[name]) else None
  }

  /** The store as the constructor leaves it. */
  function Start(classes: Classes): State {
    State(classes, map[], [classes], [], 0, [])
  }

  /** s' is reached from s by the steps. */
  ghost predicate Runs(s: State, steps: seq<Step>, parses: string -> bool, s': State)
    decreases |steps|
  {
    if steps == [] then s' == s
    else Enabled(s, steps[0]) && Runs(Next(s, steps[0], parses), steps[1..], parses, s')
  }

  // -------------------------------------------------------------- invariant

  ghost predicate PhaseInv(s: State, p: Phase)
    requires s.current < |s.versions|
  {
    match p
    case Copying(cp, rest, from) =>
      from == s.current && cp.Keys !! rest && cp.Keys + rest == s.data.Keys && forall k :: k in cp ==> cp[k] == s.data[k]
    case Copied(cp, from) => from < |s.versions| && cp == s.versions[from]
    case Writing(cp, from, base, dir, read) =>
      from < |s.versions| && cp == s.versions[from] && base < |s.versions| && read <= |Entries(dir)| &&
      s.data == s.versions[base] + Files(Entries(dir)[..read]) && forall e :: e in Entries(dir)[..read] ==> ReadableEntry(e)
    case Looking(name) => true
  }

  /** Every version after the first overlays an earlier one by the files of one whole directory. */
  ghost predicate VersionsInv(s: State, parses: string -> bool) {
    |s.versions| == |s.commits| + 1 && s.current < |s.versions| &&
    (forall i :: 0 <= i < |s.versions| ==> Validated(s.versions[i], parses)) &&
    forall i :: 0 <= i < |s.commits| ==>
      s.commits[i].base <= i && Readable(s.commits[i].dir) &&
      s.versions[i + 1] == s.versions[s.commits[i].base] + Files(s.commits[i].dir.entries)
  }

  ghost predicate LockInv(s: State) {
    forall t, u :: t in s.threads && u in s.threads && s.threads[t].Writing? && u != t ==> s.threads[u].Copied?
  }

  ghost predicate ObservedInv(s: State) {
    forall i :: 0 <= i < |s.observed| ==>
      var o := s.observed[i]; o.version < |s.versions| && o.answer == Lookup(s.versions[o.version], o.name)
  }

  ghost predicate Inv(s: State, parses: string -> bool) {
    VersionsInv(s, parses) && LockInv(s) && ObservedInv(s) &&
    (forall t :: t in s.threads ==> PhaseInv(s, s.threads[t])) &&
    (!WriteLocked(s) ==> s.data == s.versions[s.current])
  }

  lemma FinishKeepsVersions(s: State, t: nat, parses: string -> bool)
    requires VersionsInv(s, parses) && Enabled(s, FinishUpdate(t)) && PhaseInv(s, s.threads[t])
    ensures VersionsInv(Next(s, FinishUpdate(t), parses), parses)
    ensures s.versions <= Next(s, FinishUpdate(t), parses).versions
  {
    var p, s' := s.threads[t], Next(s, FinishUpdate(t), parses);
    if Succeeds(p, s.data, parses) {
      var n := |s.commits|;
      assert p.dir.entries[..p.read] == p.dir.entries;
      assert s'.commits[n] == Commit(p.base, p.dir) && s'.versions[n + 1] == s.data;
      assert forall i :: 0 <= i < n ==> s'.commits[i] == s.commits[i];
      assert forall i :: 0 <= i < |s.versions| ==> s'.versions[i] == s.versions[i];
    }
  }

  /** A thread between its locks is not affected by what others do to the store. */
  lemma CopiedPhaseStays(s: State, s': State, p: Phase)
    requires s.current < |s.versions| && s'.current < |s'.versions| && s.versions <= s'.versions
    requires p.Copied? && PhaseInv(s, p)
    ensures PhaseInv(s', p)
  {
  }

  lemma FinishKeepsInv(s: State, t: nat, parses: string -> bool)
    requires Inv(s, parses) && Enabled(s, FinishUpdate(t))
    ensures Inv(Next(s, FinishUpdate(t), parses), parses)
  {
    hide Validated, Lookup, ReadableEntry, Files;
    var s' := Next(s, FinishUpdate(t), parses);
    FinishKeepsVersions(s, t, parses);
    hide PhaseInv, VersionsInv, Succeeds, Ends;
    forall u | u in s'.threads ensures s'.threads[u].Copied? && PhaseInv(s', s'.threads[u]) {
      assert s'.threads[u] == s.threads[u];
      CopiedPhaseStays(s, s', s.threads[u]);
    }
    assert !WriteLocked(s');
    FinishShowsVersion(s, t, parses);
  }

  lemma FinishShowsVersion(s: State, t: nat, parses: string -> bool)
    requires VersionsInv(s, parses) && Enabled(s, FinishUpdate(t)) && PhaseInv(s, s.threads[t])
    ensures var s' := Next(s, FinishUpdate(t), parses);
            s'.current < |s'.versions| && s'.data == s'.versions[s'.current]
    ensures ObservedInv(s) ==> ObservedInv(Next(s, FinishUpdate(t), parses))
  {
    hide Validated, Lookup, ReadableEntry, Files;
  }

  lemma ReadEntryKeepsInv(s: State, t: nat, parses: string -> bool)
    requires Inv(s, parses) && Enabled(s, ReadEntry(t))
    ensures Inv(Next(s, ReadEntry(t), parses), parses)
  {
    hide Validated, Lookup;
    var s' := Next(s, ReadEntry(t), parses);
    ReadEntryKeepsPhase(s, t, parses);
    hide PhaseInv, VersionsInv, Ends;
    forall u | u in s'.threads && u != t ensures s'.threads[u].Copied? && PhaseInv(s', s'.threads[u]) {
      assert s'.threads[u] == s.threads[u];
      CopiedPhaseStays(s, s', s.threads[u]);
    }
    assert WriteLocked(s');
  }

  lemma ReadEntryKeepsPhase(s: State, t: nat, parses: string -> bool)
    requires s.current < |s.versions| && Enabled(s, ReadEntry(t)) && PhaseInv(s, s.threads[t])
    ensures VersionsInv(s, parses) ==> VersionsInv(Next(s, ReadEntry(t), parses), parses)
    ensures var s' := Next(s, ReadEntry(t), parses); s'.threads[t].Writing? && PhaseInv(s', s'.threads[t])
  {
    var p := s.threads[t];
    var done, more := p.dir.entries[..p.read], p.dir.entries[..p.read + 1];
    assert more == done + [p.dir.entries[p.read]];
    assert more[..p.read] == done;
  }

  lemma StepKeepsInv(s: State, step: Step, parses: string -> bool)
    requires Inv(s, parses) && Enabled(s, step)
    ensures Inv(Next(s, step, parses), parses)
  {
    var s' := Next(s, step, parses);
    match step {
      case FinishUpdate(t) => FinishKeepsInv(s, t, parses);
      case ReadEntry(t) => ReadEntryKeepsInv(s, t, parses);
      case ReleaseRead(t) =>
        assert s.threads[t].Copying?;
        assert !WriteLocked(s);
        assert s.threads[t].cp == s.data;
        assert !WriteLocked(s');
      case CopyEntry(t, key) =>
        assert s.threads[t].Copying?;
        assert !WriteLocked(s) && !WriteLocked(s');
      case FinishLookup(t) =>
        assert s.threads[t].Looking?;
        assert !WriteLocked(s) && !WriteLocked(s');
      case AcquireWrite(t, dir) =>
        assert s'.threads[t].Writing?;
        assert WriteLocked(s');
        assert s.data == s.data + Files([]);
        forall u | u in s'.threads && u != t ensures s'.threads[u].Copied? {
          assert s.threads[u] == s'.threads[u];
        }
      case _ =>
        assert !WriteLocked(s');
    }
  }

  lemma {:induction false} RunKeepsInv(s: State, steps: seq<Step>, parses: string -> bool, s': State)
    requires Inv(s, parses) && Runs(s, steps, parses, s')
    ensures Inv(s', parses)
    decreases |steps|
  {
    if steps != [] {
      StepKeepsInv(s, steps[0], parses);
      RunKeepsInv(Next(s, steps[0], parses), steps[1..], parses, s');
    }
  }

  // ---------------------------------------------------------------- results

  /** Some update of the run was given this directory. */
  ghost predicate Given(steps: seq<Step>, dir: Listing) {
    exists k :: 0 <= k < |steps| && steps[k].AcquireWrite? && steps[k].dir == dir
  }

  /**
    A state is whole: the constructor's, or an earlier state overlaid by all of a directory that
    an update of the run was given and could read to the end.
  */
  ghost predicate Whole(s: State, i: nat, steps: seq<Step>, parses: string -> bool) {
    i < |s.versions| && s.versions[i] != map[] && (forall k :: k in s.versions[i] ==> parses(s.versions[i][k])) &&
    (i == 0 ||
     (i - 1 < |s.commits| &&
      var Commit(base, dir) := s.commits[i - 1];
      base < i && dir.Listed? && (forall e :: e in dir.entries ==> e.kind != StatFailed && e.kind != ReadFailed) && Given(steps, dir) && s.versions[i] == s.versions[base] + Files(dir.entries)))
  }

  /**
    Under every interleaving, the data outside the write lock and every answer ever given
    belong to a state that was validated as a whole: the constructor's or a successful update's.
    So no reader is ever given the text of a class that does not parse, or misses one that is there.
  */
  lemma ReadersSeeWholeStates(classes: Classes, steps: seq<Step>, parses: string -> bool, s: State)
    requires classes != map[] && (forall k :: k in classes ==> parses(classes[k])) && Runs(Start(classes), steps, parses, s)
    ensures |s.versions| > 0 && s.versions[0] == classes
    ensures !WriteLocked(s) ==> Whole(s, s.current, steps, parses) && s.data == s.versions[s.current]
    ensures forall i :: 0 <= i < |s.observed| ==>
      Whole(s, s.observed[i].version, steps, parses) &&
      var version, name := s.versions[s.observed[i].version], s.observed[i].name;
      s.observed[i].answer == (if name in version then Some(version[name]) else None) &&
      (s.observed[i].answer.Some? ==> parses(s.observed[i].answer.value))
    ensures forall i :: 0 <= i < |s.versions| ==> s.versions[i] != map[] && forall k :: k in s.versions[i] ==> parses(s.versions[i][k])
  {
    assert Inv(Start(classes), parses);
    RunKeepsInv(Start(classes), steps, parses, s);
    FirstVersionStays(Start(classes), steps, parses, s);
    UsedDirsAreGiven(Start(classes), steps, parses, s);
    forall i: nat | i < |s.versions| ensures Whole(s, i, steps, parses) {
      if i > 0 {
        assert InUse(s, s.commits[i - 1].dir);
      }
    }
  }

  /** The directory of an update that holds the write lock or has committed. */
  ghost predicate InUse(s: State, dir: Listing) {
    (exists t :: t in s.threads && s.threads[t].Writing? && s.threads[t].dir == dir) ||
    (exists i :: 0 <= i < |s.commits| && s.commits[i].dir == dir)
  }

  lemma {:induction false} UsedDirsAreGiven(s: State, steps: seq<Step>, parses: string -> bool, s': State)
    requires Runs(s, steps, parses, s')
    ensures forall dir :: InUse(s', dir) ==> InUse(s, dir) || Given(steps, dir)
    decreases |steps|
  {
    hide InUse;
    if steps != [] {
      var n := Next(s, steps[0], parses);
      DirsOfNext(s, steps[0], parses);
      UsedDirsAreGiven(n, steps[1..], parses, s');
      hide Next, Enabled;
      forall dir | InUse(s', dir) ensures InUse(s, dir) || Given(steps, dir) {
        if Given(steps[1..], dir) {
          var k :| 0 <= k < |steps[1..]| && steps[1..][k].AcquireWrite? && steps[1..][k].dir == dir;
          assert steps[k + 1].dir == dir;
        } else if !InUse(s, dir) {
          assert steps[0].AcquireWrite? && steps[0].dir == dir;
        }
      }
    }
  }

  lemma DirsOfNext(s: State, step: Step, parses: string -> bool)
    requires Enabled(s, step)
    ensures forall dir :: InUse(Next(s, step, parses), dir) ==> InUse(s, dir) || (step.AcquireWrite? && step.dir == dir)
  {
    hide Validated, Lookup, Overlay, ReadableEntry;
    var n := Next(s, step, parses);
    forall dir | InUse(n, dir) ensures InUse(s, dir) || (step.AcquireWrite? && step.dir == dir) {
      if t :| t in n.threads && n.threads[t].Writing? && n.threads[t].dir == dir {
        assert t in s.threads;
      } else {
        var i :| 0 <= i < |n.commits| && n.commits[i].dir == dir;
        if i == |s.commits| {
          assert s.threads[step.t].dir == dir;
        }
      }
    }
  }

  lemma {:induction false} FirstVersionStays(s: State, steps: seq<Step>, parses: string -> bool, s': State)
    requires |s.versions| > 0 && Runs(s, steps, parses, s')
    ensures |s'.versions| >= |s.versions| && s'.versions[..|s.versions|] == s.versions
    decreases |steps|
  {
    if steps != [] {
      var n := Next(s, steps[0], parses);
      assert n.versions[..|s.versions|] == s.versions;
      FirstVersionStays(n, steps[1..], parses, s');
      assert s'.versions[..|s.versions|] == s'.versions[..|n.versions|][..|s.versions|];
    }
  }

  /** No class the operator started with ever disappears from a visible state. */
  lemma {:induction false} StartingClassesStay(s: State, i: nat, parses: string -> bool)
    requires VersionsInv(s, parses) && i < |s.versions|
    ensures s.versions[0].Keys <= s.versions[i].Keys
  {
    if i > 0 {
      StartingClassesStay(s, s.commits[i - 1].base, parses);
    }
  }

  // ------------------------------------------------------- failing updates

  /** No step is the end of an update, neither of a successful nor of a failing one. */
  ghost predicate NoFinish(steps: seq<Step>) {
    forall i :: 0 <= i < |steps| ==> !steps[i].FinishUpdate?
  }

  ghost predicate NoFinishOf(steps: seq<Step>, t: nat) {
    forall i :: 0 <= i < |steps| ==> steps[i] != FinishUpdate(t)
  }

  /**
    Whatever runs between an update's copy and its write lock, and from there to its failure: the
    failure puts back the data there was when the copy was complete. If no other update ended in
    between, nothing is lost; every commit of other data made in between is.
  */
  lemma FailedUpdateRestoresItsCopy(s: State, t: nat, between: seq<Step>, m: State, dir: Listing, writing: seq<Step>, f: State,
                                    parses: string -> bool)
    requires Inv(s, parses) && Enabled(s, ReleaseRead(t))
    requires Runs(Next(s, ReleaseRead(t), parses), between, parses, m) && NoAcquireOf(between, t) && Enabled(m, AcquireWrite(t, dir))
    requires Runs(Next(m, AcquireWrite(t, dir), parses), writing, parses, f) && NoFinishOf(writing, t)
    requires Enabled(f, FinishUpdate(t)) && !Succeeds(f.threads[t], f.data, parses)
    ensures var last := Next(f, FinishUpdate(t), parses);
            last.data == s.data && m.current < |m.versions| && m.data == m.versions[m.current] && m.versions <= last.versions &&
            (NoFinish(between) ==> last.data == m.data) &&
            forall i :: |s.versions| <= i < |m.versions| && m.versions[i] != s.data ==> last.data != m.versions[i]
  {
    hide Next, Enabled, Inv, Runs, Succeeds, Validated;
    CopyIsComplete(s, t, parses);
    var c := Next(s, ReleaseRead(t), parses);
    RunKeepsInv(c, between, parses, m);
    CopyIsKept(c, between, parses, m, t);
    UnlockedShowsVersion(m, t, dir, parses);
    var n := Next(m, AcquireWrite(t, dir), parses);
    LockTakes(m, t, dir, parses);
    CopyIsHeld(n, writing, parses, f, t);
    FirstVersionStays(n, writing, parses, f);
    FailureRestores(f, t, parses);
    if NoFinish(between) {
      DataStays(c, between, parses, m);
    }
  }

  lemma CopyIsComplete(s: State, t: nat, parses: string -> bool)
    requires Inv(s, parses) && Enabled(s, ReleaseRead(t))
    ensures var c := Next(s, ReleaseRead(t), parses);
            Inv(c, parses) && t in c.threads && c.threads[t].Copied? && c.threads[t].cp == s.data &&
            c.data == s.data && c.versions == s.versions && !WriteLocked(c)
  {
    StepKeepsInv(s, ReleaseRead(t), parses);
    assert !WriteLocked(s) && PhaseInv(s, s.threads[t]);
  }

  lemma UnlockedShowsVersion(m: State, t: nat, dir: Listing, parses: string -> bool)
    requires Inv(m, parses) && Enabled(m, AcquireWrite(t, dir))
    ensures !WriteLocked(m) && m.current < |m.versions| && m.data == m.versions[m.current]
  {
  }

  ghost predicate NoAcquireOf(steps: seq<Step>, t: nat) {
    forall i :: 0 <= i < |steps| ==> !(steps[i].AcquireWrite? && steps[i].t == t)
  }

  lemma LockTakes(m: State, t: nat, dir: Listing, parses: string -> bool)
    requires Enabled(m, AcquireWrite(t, dir)) && |m.versions| > 0
    ensures var n := Next(m, AcquireWrite(t, dir), parses);
            t in n.threads && n.threads[t].Writing? && n.threads[t].cp == m.threads[t].cp && n.versions == m.versions
  {
  }

  lemma FailureRestores(f: State, t: nat, parses: string -> bool)
    requires Enabled(f, FinishUpdate(t)) && !Succeeds(f.threads[t], f.data, parses)
    ensures var last := Next(f, FinishUpdate(t), parses); last.data == f.threads[t].cp && last.versions == f.versions
  {
  }

  /** A copy waits unchanged for the write lock. */
  lemma {:induction false} CopyIsKept(s: State, steps: seq<Step>, parses: string -> bool, s': State, t: nat)
    requires Runs(s, steps, parses, s') && NoAcquireOf(steps, t) && t in s.threads && s.threads[t].Copied?
    ensures t in s'.threads && s'.threads[t] == s.threads[t]
    decreases |steps|
  {
    hide Validated, Lookup, Overlay;
    if steps != [] {
      var n := Next(s, steps[0], parses);
      assert !(steps[0].AcquireWrite? && steps[0].t == t);
      assert t in n.threads && n.threads[t] == s.threads[t];
      assert NoAcquireOf(steps[1..], t);
      hide Next, Enabled;
      CopyIsKept(n, steps[1..], parses, s', t);
    }
  }

  /** And is carried unchanged to the end of the update. */
  lemma {:induction false} CopyIsHeld(s: State, steps: seq<Step>, parses: string -> bool, s': State, t: nat)
    requires Runs(s, steps, parses, s') && NoFinishOf(steps, t) && t in s.threads && s.threads[t].Writing?
    ensures t in s'.threads && s'.threads[t].Writing? && s'.threads[t].cp == s.threads[t].cp
    decreases |steps|
  {
    hide Validated, Lookup, Overlay;
    if steps != [] {
      var n := Next(s, steps[0], parses);
      assert steps[0] != FinishUpdate(t);
      assert t in n.threads && n.threads[t].Writing? && n.threads[t].cp == s.threads[t].cp;
      assert NoFinishOf(steps[1..], t);
      hide Next, Enabled;
      CopyIsHeld(n, steps[1..], parses, s', t);
    }
  }

  /** Only the end of an update changes which version the store shows. */
  lemma {:induction false} DataStays(s: State, steps: seq<Step>, parses: string -> bool, s': State)
    requires Inv(s, parses) && Runs(s, steps, parses, s') && NoFinish(steps) && !WriteLocked(s') && !WriteLocked(s)
    ensures s'.data == s.data
  {
    CurrentStays(s, steps, parses, s');
    RunKeepsInv(s, steps, parses, s');
  }

  lemma {:induction false} CurrentStays(s: State, steps: seq<Step>, parses: string -> bool, s': State)
    requires Runs(s, steps, parses, s') && NoFinish(steps)
    ensures s'.current == s.current && s'.versions == s.versions
    decreases |steps|
  {
    hide Validated, Lookup, Overlay;
    if steps != [] {
      var n := Next(s, steps[0], parses);
      assert !steps[0].FinishUpdate?;
      assert n.current == s.current && n.versions == s.versions;
      assert NoFinish(steps[1..]);
      hide Next, Enabled;
      CurrentStays(n, steps[1..], parses, s');
    }
  }

  // -------------------------------------------------- updates one at a time

  predicate Updating(s: State) {
    exists t :: t in s.threads && !s.threads[t].Looking?
  }

  /** No update begins while another is under way; lookups may come at any time. */
  ghost predicate OneAtATime(s: State, steps: seq<Step>, parses: string -> bool)
    decreases |steps|
  {
    steps != [] && Enabled(s, steps[0]) ==>
      (steps[0].BeginUpdate? ==> !Updating(s)) && OneAtATime(Next(s, steps[0], parses), steps[1..], parses)
  }

  /** The latest version is the current one, and every update copied and found just that. */
  ghost predicate Latest(s: State) {
    s.current == |s.versions| - 1 &&
    (forall t, u :: t in s.threads && u in s.threads && !s.threads[t].Looking? && !s.threads[u].Looking? ==> t == u) &&
    (forall t :: t in s.threads && !s.threads[t].Looking? ==>
      s.threads[t].from == s.current && (s.threads[t].Writing? ==> s.threads[t].base == s.current))
  }

  lemma StepKeepsLatest(s: State, step: Step, parses: string -> bool)
    requires Latest(s) && Enabled(s, step) && (step.BeginUpdate? ==> !Updating(s))
    ensures Latest(Next(s, step, parses))
  {
    hide Validated, Lookup, Overlay, ReadableEntry;
  }

  lemma {:induction false} RunKeepsLatest(s: State, steps: seq<Step>, parses: string -> bool, s': State)
    requires Latest(s) && Runs(s, steps, parses, s') && OneAtATime(s, steps, parses)
    ensures Latest(s')
    decreases |steps|
  {
    hide Next, Enabled, Latest, Updating;
    if steps != [] {
      StepKeepsLatest(s, steps[0], parses);
      RunKeepsLatest(Next(s, steps[0], parses), steps[1..], parses, s');
    }
  }

  /**
    If no update begins while another is under way, no commit is ever lost: outside the write
    lock the store always shows the latest commit, and a failing update leaves exactly that.
  */
  lemma OneAtATimeKeepsCommits(classes: Classes, steps: seq<Step>, parses: string -> bool, s: State)
    requires Validated(classes, parses) && Runs(Start(classes), steps, parses, s) && OneAtATime(Start(classes), steps, parses)
    ensures |s.versions| > 0
    ensures !WriteLocked(s) ==> s.data == s.versions[|s.versions| - 1]
    ensures forall t :: Enabled(s, FinishUpdate(t)) && !Succeeds(s.threads[t], s.data, parses) ==>
      Next(s, FinishUpdate(t), parses).data == s.versions[|s.versions| - 1]
  {
    assert Inv(Start(classes), parses);
    RunKeepsInv(Start(classes), steps, parses, s);
    RunKeepsLatest(Start(classes), steps, parses, s);
    hide Runs, OneAtATime, Validated;
    forall t | Enabled(s, FinishUpdate(t)) && !Succeeds(s.threads[t], s.data, parses)
      ensures Next(s, FinishUpdate(t), parses).data == s.versions[|s.versions| - 1] {
      assert PhaseInv(s, s.threads[t]);
    }
  }

  // ------------------------------------------------- one update on its own

  /** The copy made under the read lock is complete. */
  lemma {:induction false} CopyAll(s: State, t: nat, parses: string -> bool) returns (steps: seq<Step>, last: State)
    requires Inv(s, parses) && t in s.threads && s.threads[t].Copying?
    ensures Runs(s, steps, parses, last)
    ensures last == s.(threads := s.threads[t := Copying(s.data, {}, s.threads[t].from)])
    decreases |s.threads[t].rest|
  {
    hide Runs, Validated, Lookup;
    var p := s.threads[t];
    if p.rest == {} {
      assert p.cp == s.data;
      steps, last := [], s;
      RunNone(s, parses);
      assert s.threads[t := Copying(s.data, {}, p.from)] == s.threads;
    } else {
      var key :| key in p.rest;
      var n := Next(s, CopyEntry(t, key), parses);
      StepKeepsInv(s, CopyEntry(t, key), parses);
      assert n.threads[t].rest < p.rest;
      SmallerSet(n.threads[t].rest, p.rest);
      steps, last := CopyAll(n, t, parses);
      assert last.threads == s.threads[t := Copying(s.data, {}, p.from)];
      steps := Prepend(s, CopyEntry(t, key), n, steps, parses, last);
    }
  }

  lemma SmallerSet(a: set<string>, b: set<string>)
    requires a < b
    ensures |a| < |b|
  {
    var x :| x in b && x !in a;
    assert b == (b - a) + a;
    assert x in b - a;
  }

  lemma RunNone(s: State, parses: string -> bool)
    ensures Runs(s, [], parses, s)
  {
  }

  /** The state after the first n entries are read into the data found at the lock. */
  function AfterReading(s: State, t: nat, n: nat, found: Classes): State
    requires t in s.threads && s.threads[t].Writing? && n <= |Entries(s.threads[t].dir)|
  {
    s.(data := found + Files(Entries(s.threads[t].dir)[..n]), threads := s.threads[t := s.threads[t].(read := n)])
  }

  predicate ReadUpTo(s: State, t: nat, found: Classes) {
    t in s.threads && s.threads[t].Writing? && s.threads[t].read <= |Entries(s.threads[t].dir)| &&
    s == AfterReading(s, t, s.threads[t].read, found) &&
    forall e :: e in Entries(s.threads[t].dir)[..s.threads[t].read] ==> ReadableEntry(e)
  }

  lemma ReadOne(s: State, t: nat, found: Classes, parses: string -> bool)
    requires ReadUpTo(s, t, found) && Enabled(s, ReadEntry(t))
    ensures var m := Next(s, ReadEntry(t), parses);
            ReadUpTo(m, t, found) && m.threads[t] == s.threads[t].(read := s.threads[t].read + 1) &&
            forall n: nat :: n <= |Entries(s.threads[t].dir)| ==> AfterReading(m, t, n, found) == AfterReading(s, t, n, found)
  {
    var p, m := s.threads[t], Next(s, ReadEntry(t), parses);
    var done, more := p.dir.entries[..p.read], p.dir.entries[..p.read + 1];
    assert more == done + [p.dir.entries[p.read]] && more[..p.read] == done;
    assert m.data == found + Files(more);
    hide Files, Overlay;
    forall n: nat | n <= |Entries(p.dir)| ensures AfterReading(m, t, n, found) == AfterReading(s, t, n, found) {
      assert m.threads[t := p.(read := n)] == s.threads[t := p.(read := n)];
    }
    assert m.threads[t := m.threads[t]] == m.threads;
  }

  /** Reading goes on until the directory is read or an entry fails. */
  lemma {:induction false} ReadAll(s: State, t: nat, found: Classes, parses: string -> bool) returns (steps: seq<Step>, last: State)
    requires ReadUpTo(s, t, found)
    ensures Runs(s, steps, parses, last) && ReadUpTo(last, t, found) && Ends(last.threads[t])
    ensures last.threads[t].dir == s.threads[t].dir && last == AfterReading(s, t, last.threads[t].read, found)
    decreases |Entries(s.threads[t].dir)| - s.threads[t].read
  {
    if Ends(s.threads[t]) {
      steps, last := [], s;
      RunNone(s, parses);
    } else {
      var m := Next(s, ReadEntry(t), parses);
      ReadOne(s, t, found, parses);
      hide *;
      steps, last := ReadAll(m, t, found, parses);
      steps := Prepend(s, ReadEntry(t), m, steps, parses, last);
    }
  }

  /** From the write lock on: read what can be read, then commit or put the copy back. */
  lemma WriteAlone(s: State, t: nat, dir: Listing, parses: string -> bool) returns (steps: seq<Step>, last: State)
    requires t in s.threads && s.threads[t].Writing? && s.threads[t].dir == dir && s.threads[t].read == 0
    ensures Runs(s, steps, parses, last) && last.threads == s.threads - {t}
    ensures var merged := s.data + Files(Entries(dir));
            if Readable(dir) && Validated(merged, parses) then last.data == merged && last.versions == s.versions + [merged]
            else last.data == s.threads[t].cp && last.versions == s.versions
  {
    assert Entries(dir)[..0] == [] && s.data + Files([]) == s.data && s.threads[t := s.threads[t]] == s.threads;
    var m: State;
    steps, m := ReadAll(s, t, s.data, parses);
    var n := m.threads[t].read;
    assert n == |Entries(dir)| ==> Entries(dir)[..n] == Entries(dir);
    assert n < |Entries(dir)| ==> Entries(dir)[n] in dir.entries;
    assert Enabled(m, FinishUpdate(t));
    last := Next(m, FinishUpdate(t), parses);
    assert m.threads - {t} == s.threads - {t};
    steps := RunAppend(s, steps, m, FinishUpdate(t), last, parses);
  }

  lemma {:induction false} RunAppend(s: State, steps: seq<Step>, m: State, step: Step, last: State, parses: string -> bool)
    returns (all: seq<Step>)
    requires Runs(s, steps, parses, m) && Enabled(m, step) && Next(m, step, parses) == last
    ensures all == steps + [step] && Runs(s, all, parses, last)
    decreases |steps|
  {
    if steps == [] {
      all := Prepend(s, step, last, [], parses, last);
    } else {
      var n := Next(s, steps[0], parses);
      all := RunAppend(n, steps[1..], m, step, last, parses);
      all := Prepend(s, steps[0], n, all, parses, last);
    }
  }

  /** From no lock held to a complete copy and again no lock held. */
  lemma CopyAlone(s: State, t: nat, parses: string -> bool) returns (steps: seq<Step>, last: State)
    requires Inv(s, parses) && t !in s.threads && !WriteLocked(s) && !ReadLocked(s)
    ensures Runs(s, steps, parses, last) && !WriteLocked(last) && !ReadLocked(last)
    ensures last == s.(threads := s.threads[t := Copied(s.data, s.current)])
  {
    hide Runs, Validated, VersionsInv, ObservedInv, PhaseInv, LockInv, Files, Lookup;
    var s1 := Next(s, BeginUpdate(t), parses);
    StepKeepsInv(s, BeginUpdate(t), parses);
    var s2: State;
    steps, s2 := CopyAll(s1, t, parses);
    last := Next(s2, ReleaseRead(t), parses);
    assert last.threads == s.threads[t := Copied(s.data, s.current)];
    assert forall u :: u in last.threads && u != t ==> last.threads[u] == s.threads[u];
    steps := RunAppend(s1, steps, s2, ReleaseRead(t), last, parses);
    steps := Prepend(s, BeginUpdate(t), s1, steps, parses, last);
  }

  /**
    An update that nothing interrupts is a run that does exactly what the sequential Update
    promises: the old data overlaid by the whole directory, or the old data.
  */
  lemma UpdateAlone(s: State, t: nat, dir: Listing, parses: string -> bool) returns (last: State)
    requires Inv(s, parses) && t !in s.threads && !WriteLocked(s) && !ReadLocked(s)
    ensures exists steps :: Runs(s, steps, parses, last)
    ensures last.threads == s.threads
    ensures last.data == if Readable(dir) && Validated(s.data + Files(dir.entries), parses) then s.data + Files(dir.entries) else s.data
  {
    hide Runs, Validated, Inv, Files, Lookup, WriteLocked, ReadLocked;
    var copying, m := CopyAlone(s, t, parses);
    var writing: seq<Step>;
    writing, last := WriteAfterCopy(m, t, dir, parses);
    assert last.threads == s.threads;
    RunConcat(s, copying, m, writing, last, parses);
  }

  lemma {:induction false} RunConcat(s: State, a: seq<Step>, m: State, b: seq<Step>, last: State, parses: string -> bool)
    requires Runs(s, a, parses, m) && Runs(m, b, parses, last)
    ensures Runs(s, a + b, parses, last)
    decreases |a|
  {
    if a == [] {
      assert a + b == b;
    } else {
      assert (a + b)[0] == a[0] && (a + b)[1..] == a[1..] + b;
      RunConcat(Next(s, a[0], parses), a[1..], m, b, last, parses);
    }
  }

  // ------------------------------------------------------- the lost commit

  /** One update of its own, from its copy to its end. */
  lemma WriteAfterCopy(s: State, t: nat, dir: Listing, parses: string -> bool) returns (steps: seq<Step>, last: State)
    requires t in s.threads && s.threads[t].Copied? && !WriteLocked(s) && !ReadLocked(s)
    ensures Runs(s, steps, parses, last) && last.threads == s.threads - {t}
    ensures var merged := s.data + Files(Entries(dir));
            if Readable(dir) && Validated(merged, parses) then last.data == merged && last.versions == s.versions + [merged]
            else last.data == s.threads[t].cp && last.versions == s.versions
  {
    hide Runs, Validated, Readable, Files;
    var n := Next(s, AcquireWrite(t, dir), parses);
    steps, last := WriteAlone(n, t, dir, parses);
    assert last.threads == s.threads - {t};
    steps := Prepend(s, AcquireWrite(t, dir), n, steps, parses, last);
  }

  /** Two updates that copied the same state, and then one after the other write. */
  lemma TwoWriters(s: State, t: nat, u: nat, dir: Listing, parses: string -> bool) returns (steps: seq<Step>, last: State)
    requires t != u && t in s.threads && u in s.threads && s.threads[t].Copied? && s.threads[u].Copied?
    requires !WriteLocked(s) && !ReadLocked(s) && Readable(dir) && Validated(s.data + Files(dir.entries), parses)
    ensures Runs(s, steps, parses, last)
    ensures last.data == s.threads[t].cp && last.versions == s.versions + [s.data + Files(dir.entries)]
  {
    hide Runs, Validated, Files;
    var m: State;
    steps, m := WriteAfterCopy(s, u, dir, parses);
    var more;
    more, last := WriteAfterCopy(m, t, Unlisted, parses);
    RunConcat(s, steps, m, more, last, parses);
    steps := steps + more;
  }

  /**
    Every commit can be lost: in every state with no lock held, an update that copies, waits for
    another to read any valid directory and commit, and then fails, leaves the data as before.
  */
  lemma CommitCanBeLost(s: State, t: nat, u: nat, dir: Listing, parses: string -> bool) returns (steps: seq<Step>, last: State)
    requires Inv(s, parses) && t != u && t !in s.threads && u !in s.threads && !WriteLocked(s) && !ReadLocked(s)
    requires Readable(dir) && Validated(s.data + Files(dir.entries), parses)
    ensures Runs(s, steps, parses, last)
    ensures last.data == s.data && last.versions == s.versions + [s.data + Files(dir.entries)]
  {
    hide Runs, Validated, Files, Readable;
    var m, n: State;
    steps, m := CopyAlone(s, t, parses);
    RunKeepsInv(s, steps, parses, m);
    var more;
    more, n := CopyAlone(m, u, parses);
    RunConcat(s, steps, m, more, n, parses);
    steps := steps + more;
    more, last := TwoWriters(n, t, u, dir, parses);
    RunConcat(s, steps, n, more, last, parses);
    steps := steps + more;
  }

  lemma Prepend(s: State, step: Step, n: State, rest: seq<Step>, parses: string -> bool, last: State)
    returns (steps: seq<Step>)
    requires Enabled(s, step) && Next(s, step, parses) == n && Runs(n, rest, parses, last)
    ensures steps == [step] + rest && Runs(s, steps, parses, last)
  {
    steps := [step] + rest;
    assert steps[1..] == rest;
  }
}

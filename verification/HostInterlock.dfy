/** One host root: the install lock, the background launcher's execution lease, and the interlock
  * between them.
  *
  * Mutators are installer and uninstaller runs; launchers are background dispatches that freeze
  * the scripts of the managed tree.  A step is one file-system call.  Two assumptions of the
  * source are switches of the model: `timely` (a live lock holder finishes before its lock looks
  * stale) and `atomicBreak` (re-checking the modification time and unlinking is one step).
  */
module HostInterlock {
  import opened Wrappers
  import Runs

  const LOCK_STALE_SEC: nat := 3600

  // inode identifies the file and its token: every run has a fresh uuid and creates one lock.
  datatype LockFile = LockFile(inode: nat, mtime: nat, marked: bool)

  datatype Disk = Disk(now: nat, lock: Option<LockFile>, lease: Option<nat>)

  datatype Proc =
    // _acquire_lock
    | Trying(attempt: nat)
    | Stating(attempt: nat)
    | Judging(attempt: nat, seen: nat)
    | Reading(attempt: nat, seen: nat)
    | Breaking(attempt: nat, seen: nat)
    | Unlinking(attempt: nat)           // only when the break is not atomic
    | Writing
    // install_skill and uninstall_skill under the lock
    | Locked
    | Mutating
    // _release_lock
    | Releasing
    | Removing
    // _acquire_execution_lease
    | Peeking
    | Leasing
    | LeaseWriting
    | Rechecking
    | Critical
    // _release_execution_lease
    | LeaseReleasing
    | LeaseRemoving

  // What the file system or the scheduler decides for one step.
  datatype Weather = Weather(fails: bool, stays: bool)

  datatype Outcome = Outcome(disk: Disk, next: Option<Proc>)

  function Leave(d: Disk): Outcome {
    Outcome(d, None)
  }

  function Goto(d: Disk, pc: Proc): Outcome {
    Outcome(d, Some(pc))
  }

  // os.open with O_EXCL; a run makes at most two attempts.
  function TryCreate(d: Disk, p: nat, attempt: nat, fails: bool): Outcome {
    if attempt >= 2 || (fails && d.lock.None?) then Leave(d)
    else if d.lock.None? then Goto(d.(lock := Some(LockFile(p, d.now, false))), Writing)
    else Goto(d, Stating(attempt))
  }

  // json.dump through the descriptor that created the file: it reaches only that inode.
  function WriteMarker(d: Disk, p: nat, fails: bool): Outcome {
    if fails then Leave(d)
    else if d.lock.Some? && d.lock.value.inode == p then
      Goto(d.(lock := Some(d.lock.value.(mtime := d.now, marked := true))), Locked)
    else Goto(d, Locked)
  }

  function Break(d: Disk, attempt: nat, seen: nat, atomicBreak: bool): Outcome {
    if d.lock.Some? && d.lock.value.mtime == seen then
      if atomicBreak then Goto(d.(lock := None), Trying(attempt + 1)) else Goto(d, Unlinking(attempt))
    else Goto(d, Trying(attempt + 1))
  }

  function LockStep(d: Disk, p: nat, pc: Proc, atomicBreak: bool, w: Weather): Outcome {
    match pc
    case Trying(attempt) => TryCreate(d, p, attempt, w.fails)
    case Stating(attempt) =>
      if d.lock.None? then Goto(d, Trying(attempt + 1)) else Goto(d, Judging(attempt, d.lock.value.mtime))
    case Judging(attempt, seen) =>
      if d.now > seen + LOCK_STALE_SEC then Goto(d, Reading(attempt, seen)) else Leave(d)
    case Reading(attempt, seen) =>
      if d.lock.Some? && d.lock.value.marked then Goto(d, Breaking(attempt, seen)) else Leave(d)
    case Breaking(attempt, seen) => Break(d, attempt, seen, atomicBreak)
    case Unlinking(attempt) => Goto(d.(lock := None), Trying(attempt + 1))
    case Writing => WriteMarker(d, p, w.fails)
    case _ => Leave(d)
  }

  function MutatorStep(d: Disk, p: nat, pc: Proc, w: Weather): Outcome {
    match pc
    case Locked => if d.lease.Some? then Goto(d, Releasing) else Goto(d, Mutating)
    case Mutating => if w.stays then Goto(d, Mutating) else Goto(d, Releasing)
    case Releasing =>
      if d.lock.Some? && d.lock.value.marked && d.lock.value.inode == p then Goto(d, Removing) else Leave(d)
    case Removing => if w.fails then Leave(d) else Leave(d.(lock := None))
    case _ => Leave(d)
  }

  function LauncherStep(d: Disk, p: nat, pc: Proc, w: Weather): Outcome {
    match pc
    case Peeking => if d.lock.Some? then Leave(d) else Goto(d, Leasing)
    case Leasing =>
      if d.lease.None? && !w.fails then Goto(d.(lease := Some(p)), LeaseWriting)
      else if d.lock.Some? || !w.stays then Leave(d)
      else Goto(d, Leasing)
    case LeaseWriting => if w.fails then Leave(d.(lease := None)) else Goto(d, Rechecking)
    case Rechecking => if d.lock.Some? then Goto(d, LeaseReleasing) else Goto(d, Critical)
    case Critical => if w.stays then Goto(d, Critical) else Goto(d, LeaseReleasing)
    case LeaseReleasing => if d.lease == Some(p) then Goto(d, LeaseRemoving) else Leave(d)
    case LeaseRemoving => if w.fails then Leave(d) else Leave(d.(lease := None))
    case _ => Leave(d)
  }

  predicate Acquiring(pc: Proc) {
    || pc.Trying? || pc.Stating? || pc.Judging? || pc.Reading? || pc.Breaking? || pc.Unlinking? || pc.Writing?
  }

  // The run has created the install lock and has not removed it.
  predicate Holding(pc: Proc) {
    pc.Writing? || pc.Locked? || pc.Mutating? || pc.Releasing? || pc.Removing?
  }

  // The launcher has created the lease and has not removed it.
  predicate Leased(pc: Proc) {
    pc.LeaseWriting? || pc.Rechecking? || pc.Critical? || pc.LeaseReleasing? || pc.LeaseRemoving?
  }

  function Step(d: Disk, p: nat, pc: Proc, atomicBreak: bool, w: Weather): Outcome {
    if Acquiring(pc) then LockStep(d, p, pc, atomicBreak, w)
    else if Holding(pc) then MutatorStep(d, p, pc, w)
    else LauncherStep(d, p, pc, w)
  }

  datatype State = State(disk: Disk, procs: map<nat, Proc>, used: set<nat>, timely: bool, atomicBreak: bool)

  datatype Action =
    | StartMutator(p: nat)
    | StartLauncher(p: nat)
    | Advance(p: nat, weather: Weather)
    | Crash(p: nat)
    | Wait(seconds: nat)

  function Initial(timely: bool, atomicBreak: bool): State {
    State(Disk(0, None, None), map[], {}, timely, atomicBreak)
  }

  function Apply(s: State, p: nat, o: Outcome): State {
    s.(disk := o.disk, procs := if o.next.Some? then s.procs[p := o.next.value] else s.procs - {p})
  }

  // Time may pass only while no live holder outstays LOCK_STALE_SEC, if holders are timely.
  predicate MayWait(s: State, seconds: nat) {
    s.timely && s.disk.lock.Some? && s.disk.lock.value.inode in s.procs && Holding(s.procs[s.disk.lock.value.inode])
    ==> s.disk.now + seconds <= s.disk.lock.value.mtime + LOCK_STALE_SEC
  }

  // One action; an action that is not enabled changes nothing.
  function Act(s: State, a: Action): State {
    match a
    case StartMutator(p) => if p in s.used then s else s.(procs := s.procs[p := Trying(0)], used := s.used + {p})
    case StartLauncher(p) => if p in s.used then s else s.(procs := s.procs[p := Peeking], used := s.used + {p})
    case Advance(p, w) =>
      if p in s.procs then Apply(s, p, Step(s.disk, p, s.procs[p], s.atomicBreak, w)) else s
    case Crash(p) => s.(procs := s.procs - {p})
    case Wait(seconds) => if MayWait(s, seconds) then s.(disk := s.disk.(now := s.disk.now + seconds)) else s
  }

  function Run(s: State, schedule: seq<Action>): State {
    Runs.Run(Act, s, schedule)
  }

  // ---------------------------------------------------------------------------------------
  // Mutual exclusion
  // ---------------------------------------------------------------------------------------

  predicate ProcSound(d: Disk, p: nat, pc: Proc) {
    && (Holding(pc) ==>
          && d.lock.Some? && d.lock.value.inode == p
          && d.now <= d.lock.value.mtime + LOCK_STALE_SEC
          && (!pc.Writing? ==> d.lock.value.marked))
    && (Leased(pc) ==> d.lease == Some(p))
    && (pc.Judging? ==> pc.seen <= d.now)
    && (pc.Reading? || pc.Breaking? ==> pc.seen + LOCK_STALE_SEC < d.now)
    && !pc.Unlinking?
  }

  ghost predicate Interlocked(procs: map<nat, Proc>) {
    forall p, q :: p in procs && q in procs ==> !(procs[p].Mutating? && procs[q].Critical?)
  }

  ghost predicate Sound(s: State) {
    && s.timely && s.atomicBreak
    && (s.disk.lock.Some? ==> s.disk.lock.value.mtime <= s.disk.now && s.disk.lock.value.inode in s.used)
    && s.procs.Keys <= s.used
    && (forall p :: p in s.procs ==> ProcSound(s.disk, p, s.procs[p]))
    && Interlocked(s.procs)
  }

  // What one step of p leaves for every other run.
  predicate Framed(d: Disk, p: nat, pc: Proc, o: Outcome) {
    && o.disk.now == d.now
    && (o.disk.lock.Some? ==> o.disk.lock.value.mtime <= d.now)
    && (o.disk.lock.Some? && (d.lock.None? || o.disk.lock.value.inode != d.lock.value.inode)
        ==> o.disk.lock.value.inode == p)
    // a lock is left alone, or is p's own, or no live holder can own it
    && (o.disk.lock == d.lock || d.lock.None? || d.lock.value.inode == p
        || d.lock.value.mtime + LOCK_STALE_SEC < d.now)
    && (o.disk.lease == d.lease || d.lease.None? || d.lease == Some(p))
    && (o.next.Some? ==> ProcSound(o.disk, p, o.next.value))
    && (o.next.Some? && o.next.value.Mutating? ==> pc.Mutating? || d.lease.None?)
    && (o.next.Some? && o.next.value.Critical? ==> pc.Critical? || d.lock.None?)
  }

  lemma LockStepIsFramed(d: Disk, p: nat, pc: Proc, w: Weather)
    requires ProcSound(d, p, pc) && (d.lock.Some? ==> d.lock.value.mtime <= d.now) && Acquiring(pc)
    ensures Framed(d, p, pc, LockStep(d, p, pc, true, w))
  {}

  lemma StepIsFramed(d: Disk, p: nat, pc: Proc, w: Weather)
    requires ProcSound(d, p, pc) && (d.lock.Some? ==> d.lock.value.mtime <= d.now)
    ensures Framed(d, p, pc, Step(d, p, pc, true, w))
  {
    if Acquiring(pc) { LockStepIsFramed(d, p, pc, w); }
  }

  lemma FramedKeepsSound(s: State, p: nat, o: Outcome)
    requires Sound(s) && p in s.procs && Framed(s.disk, p, s.procs[p], o)
    ensures Sound(Apply(s, p, o))
  {
    var t := Apply(s, p, o);
    forall q | q in t.procs
      ensures ProcSound(t.disk, q, t.procs[q])
    {
      if q != p { assert ProcSound(s.disk, q, s.procs[q]); }
    }
    forall q, r | q in t.procs && r in t.procs
      ensures !(t.procs[q].Mutating? && t.procs[r].Critical?)
    {
      if q in s.procs { assert ProcSound(s.disk, q, s.procs[q]); }
      if r in s.procs { assert ProcSound(s.disk, r, s.procs[r]); }
    }
  }

  lemma WaitKeepsSound(s: State, seconds: nat)
    requires Sound(s) && MayWait(s, seconds)
    ensures Sound(Act(s, Wait(seconds)))
  {
    var t := Act(s, Wait(seconds));
    forall q | q in t.procs
      ensures ProcSound(t.disk, q, t.procs[q])
    {
      assert ProcSound(s.disk, q, s.procs[q]);
    }
  }

  lemma ActKeepsSound(s: State, a: Action)
    requires Sound(s)
    ensures Sound(Act(s, a))
  {
    match a
    case Advance(p, w) =>
      if p in s.procs {
        assert ProcSound(s.disk, p, s.procs[p]);
        StepIsFramed(s.disk, p, s.procs[p], w);
        FramedKeepsSound(s, p, Step(s.disk, p, s.procs[p], true, w));
      }
    case Wait(seconds) => if MayWait(s, seconds) { WaitKeepsSound(s, seconds); }
    case _ =>
  }

  lemma SoundForever(s: State, schedule: seq<Action>)
    requires Sound(s)
    ensures Sound(Run(s, schedule))
  {
    forall t, a | Sound(t) ensures Sound(Act(t, a)) { ActKeepsSound(t, a); }
    Runs.Invariant(Act, Sound, s, schedule);
  }

  ghost predicate OneHolder(procs: map<nat, Proc>) {
    forall p, q :: p in procs && q in procs && Holding(procs[p]) && Holding(procs[q]) ==> p == q
  }

  ghost predicate OneLauncher(procs: map<nat, Proc>) {
    forall p, q :: p in procs && q in procs && Leased(procs[p]) && Leased(procs[q]) ==> p == q
  }

  // In every interleaving of any number of installers, uninstallers and launchers, with crashes
  // anywhere: one lock holder, one lease holder, and never a launcher past its second lock check
  // while an installer past its lease check mutates the tree.
  lemma Interlock(schedule: seq<Action>)
    ensures var s := Run(Initial(true, true), schedule);
            OneHolder(s.procs) && OneLauncher(s.procs) && Interlocked(s.procs)
  {
    SoundForever(Initial(true, true), schedule);
    var s := Run(Initial(true, true), schedule);
    forall p, q | p in s.procs && q in s.procs
      ensures Holding(s.procs[p]) && Holding(s.procs[q]) ==> p == q
      ensures Leased(s.procs[p]) && Leased(s.procs[q]) ==> p == q
    {
      assert ProcSound(s.disk, p, s.procs[p]) && ProcSound(s.disk, q, s.procs[q]);
    }
  }

  // Whatever step removes the install lock, the removed file carried the remover's own token or
  // had no live holder; whatever step removes the lease, it was the remover's own.
  lemma RemovalIsOwn(schedule: seq<Action>, p: nat, w: Weather)
    ensures var s := Run(Initial(true, true), schedule);
            var t := Act(s, Advance(p, w));
            && (s.disk.lock.Some? && t.disk.lock.None? && p in s.procs ==>
                  || s.disk.lock.value.inode == p
                  || (s.procs[p].Breaking?
                      && (s.disk.lock.value.inode in s.procs ==> !Holding(s.procs[s.disk.lock.value.inode]))))
            && (s.disk.lease.Some? && t.disk.lease.None? ==> s.disk.lease == Some(p))
  {
    SoundForever(Initial(true, true), schedule);
    var s := Run(Initial(true, true), schedule);
    if p in s.procs {
      assert ProcSound(s.disk, p, s.procs[p]);
      if s.disk.lock.Some? && s.disk.lock.value.inode in s.procs {
        assert ProcSound(s.disk, s.disk.lock.value.inode, s.procs[s.disk.lock.value.inode]);
      }
    }
  }

  // ---------------------------------------------------------------------------------------
  // Both assumptions are needed
  // ---------------------------------------------------------------------------------------

  const CALM := Weather(false, false)

  // A run that finds a stale, marked lock and is about to re-check it.
  lemma FindsStale(s: State, p: nat) returns (schedule: seq<Action>)
    requires p !in s.used && s.disk.lock.Some? && s.disk.lock.value.marked
    requires s.disk.now > s.disk.lock.value.mtime + LOCK_STALE_SEC
    ensures Run(s, schedule) ==
            s.(procs := s.procs[p := Breaking(0, s.disk.lock.value.mtime)], used := s.used + {p})
  {
    var s1 := Act(s, StartMutator(p));
    var s2 := Act(s1, Advance(p, CALM));
    var s3 := Act(s2, Advance(p, CALM));
    var s4 := Act(s3, Advance(p, CALM));
    var s5 := Act(s4, Advance(p, CALM));
    assert s5.procs == s.procs[p := Breaking(0, s.disk.lock.value.mtime)];
    schedule := [StartMutator(p)] + Steps(p, 4);
    Runs.RunsThrough(Act, s, schedule, [s, s1, s2, s3, s4, s5]);
  }

  function Steps(p: nat, n: nat): (schedule: seq<Action>)
    ensures |schedule| == n && forall i :: 0 <= i < n ==> schedule[i] == Advance(p, CALM)
  {
    seq(n, i => Advance(p, CALM))
  }

  // A run that finds no lock takes it.
  lemma TakesFreeLock(s: State, p: nat, attempt: nat) returns (schedule: seq<Action>)
    requires p in s.procs && s.procs[p] == Trying(attempt) && attempt < 2 && s.disk.lock.None?
    ensures Run(s, schedule) ==
            s.(disk := s.disk.(lock := Some(LockFile(p, s.disk.now, true))), procs := s.procs[p := Locked])
  {
    var s1 := Act(s, Advance(p, CALM));
    var s2 := Act(s1, Advance(p, CALM));
    assert s2.procs == s.procs[p := Locked];
    schedule := Steps(p, 2);
    Runs.RunsThrough(Act, s, schedule, [s, s1, s2]);
  }

  lemma FirstHolder(timely: bool, atomicBreak: bool) returns (schedule: seq<Action>)
    ensures Run(Initial(timely, atomicBreak), schedule) ==
            Initial(timely, atomicBreak)
              .(disk := Disk(0, Some(LockFile(0, 0, true)), None), procs := map[0 := Locked], used := {0})
  {
    var s := Initial(timely, atomicBreak);
    var s1 := Act(s, StartMutator(0));
    var rest := TakesFreeLock(s1, 0, 0);
    Runs.RunsThrough(Act, s, [StartMutator(0)], [s, s1]);
    Runs.RunAppend(Act, s, [StartMutator(0)], rest);
    schedule := [StartMutator(0)] + rest;
    assert s1.procs[0 := Locked] == map[0 := Locked];
  }

  // An undisturbed breaker removes the lock, in one step or in two.
  lemma Breaks(s: State, p: nat) returns (schedule: seq<Action>)
    requires p in s.procs && s.disk.lock.Some? && s.procs[p] == Breaking(0, s.disk.lock.value.mtime)
    ensures Run(s, schedule) == s.(disk := s.disk.(lock := None), procs := s.procs[p := Trying(1)])
  {
    var s1 := Act(s, Advance(p, CALM));
    if s.atomicBreak {
      schedule := Steps(p, 1);
      Runs.RunsThrough(Act, s, schedule, [s, s1]);
    } else {
      var s2 := Act(s1, Advance(p, CALM));
      assert s2.procs == s.procs[p := Trying(1)];
      schedule := Steps(p, 2);
      Runs.RunsThrough(Act, s, schedule, [s, s1, s2]);
    }
  }

  // A holder that outstays LOCK_STALE_SEC loses its lock to the next run.
  lemma SlowHolder(atomicBreak: bool) returns (schedule: seq<Action>)
    ensures !OneHolder(Run(Initial(false, atomicBreak), schedule).procs)
  {
    var i := Initial(false, atomicBreak);
    var a := FirstHolder(false, atomicBreak);
    var s := Run(i, a);
    var b := [Wait(LOCK_STALE_SEC + 1)];
    var s1 := Act(s, Wait(LOCK_STALE_SEC + 1));
    Runs.RunsThrough(Act, s, b, [s, s1]);
    var c := FindsStale(s1, 1);
    var s2 := Run(s1, c);
    var d := Breaks(s2, 1);
    var s3 := Run(s2, d);
    var e := TakesFreeLock(s3, 1, 1);
    var t := Run(s3, e);
    assert t.procs[0] == Locked && t.procs[1] == Locked;
    Runs.RunAppend(Act, s2, d, e);
    Runs.RunAppend(Act, s1, c, d + e);
    Runs.RunAppend(Act, s, b, c + (d + e));
    Runs.RunAppend(Act, i, a, b + (c + (d + e)));
    schedule := a + (b + (c + (d + e)));
  }

  lemma BreakInTurn(s: State) returns (schedule: seq<Action>)
    requires s.procs == map[1 := Breaking(0, 0), 2 := Breaking(0, 0)] && !s.atomicBreak
    requires s.disk.lock.Some? && s.disk.lock.value.mtime == 0
    ensures Run(s, schedule) ==
            s.(disk := s.disk.(lock := None), procs := map[1 := Trying(1), 2 := Unlinking(0)])
  {
    var s1 := Act(s, Advance(1, CALM));
    var s2 := Act(s1, Advance(2, CALM));
    var s3 := Act(s2, Advance(1, CALM));
    assert s3.procs == map[1 := Trying(1), 2 := Unlinking(0)];
    schedule := [Advance(1, CALM), Advance(2, CALM), Advance(1, CALM)];
    Runs.RunsThrough(Act, s, schedule, [s, s1, s2, s3]);
  }

  lemma TwoUnlinks(s: State) returns (schedule: seq<Action>)
    requires s.procs == map[1 := Breaking(0, 0), 2 := Breaking(0, 0)] && !s.atomicBreak
    requires s.disk.lock.Some? && s.disk.lock.value.mtime == 0
    ensures !OneHolder(Run(s, schedule).procs)
  {
    var a := BreakInTurn(s);
    var s3 := Run(s, a);
    var b := TakesFreeLock(s3, 1, 1);
    var s4 := Run(s3, b);
    var s5 := Act(s4, Advance(2, CALM));
    assert s5.disk.lock.None? && s5.procs == map[1 := Locked, 2 := Trying(1)];
    var c := [Advance(2, CALM)];
    Runs.RunsThrough(Act, s4, c, [s4, s5]);
    var d := TakesFreeLock(s5, 2, 1);
    var t := Run(s5, d);
    assert t.procs[1] == Locked && t.procs[2] == Locked;
    Runs.RunAppend(Act, s4, c, d);
    Runs.RunAppend(Act, s3, b, c + d);
    Runs.RunAppend(Act, s, a, b + (c + d));
    schedule := a + (b + (c + d));
  }

  // Re-checking and unlinking in two steps lets a second breaker unlink the first one's new lock.
  lemma SlowBreaker() returns (schedule: seq<Action>)
    ensures !OneHolder(Run(Initial(true, false), schedule).procs)
  {
    var i := Initial(true, false);
    var a := FirstHolder(true, false);
    var s := Run(i, a);
    var s1 := Act(s, Crash(0));
    var s2 := Act(s1, Wait(LOCK_STALE_SEC + 1));
    assert s2.procs == map[] && s2.disk.now == LOCK_STALE_SEC + 1;
    var b := [Crash(0), Wait(LOCK_STALE_SEC + 1)];
    Runs.RunsThrough(Act, s, b, [s, s1, s2]);
    var c := FindsStale(s2, 1);
    var s3 := Run(s2, c);
    var d := FindsStale(s3, 2);
    var s4 := Run(s3, d);
    assert s4.procs == map[1 := Breaking(0, 0), 2 := Breaking(0, 0)];
    var e := TwoUnlinks(s4);
    Runs.RunAppend(Act, s3, d, e);
    Runs.RunAppend(Act, s2, c, d + e);
    Runs.RunAppend(Act, s, b, c + (d + e));
    Runs.RunAppend(Act, i, a, b + (c + (d + e)));
    schedule := a + (b + (c + (d + e)));
  }

  // The lock excludes on every schedule exactly when live holders are timely and a break is atomic.
  lemma ExclusiveIff(timely: bool, atomicBreak: bool)
    ensures (forall schedule :: OneHolder(Run(Initial(timely, atomicBreak), schedule).procs))
            <==> timely && atomicBreak
  {
    if timely && atomicBreak {
      forall schedule ensures OneHolder(Run(Initial(true, true), schedule).procs) { Interlock(schedule); }
    } else {
      var schedule: seq<Action>;
      if timely { schedule := SlowBreaker(); } else { schedule := SlowHolder(atomicBreak); }
      assert !OneHolder(Run(Initial(timely, atomicBreak), schedule).procs);
    }
  }

  // A launcher that starts while neither file exists reaches its critical section.
  lemma EntersCritical(s: State, q: nat) returns (schedule: seq<Action>)
    requires q !in s.used && s.disk.lock.None? && s.disk.lease.None?
    ensures schedule == [StartLauncher(q)] + Steps(q, 4)
    ensures Run(s, schedule) ==
            s.(disk := s.disk.(lease := Some(q)), procs := s.procs[q := Critical], used := s.used + {q})
  {
    var s1 := Act(s, StartLauncher(q));
    var s2 := Act(s1, Advance(q, CALM));
    assert s2.procs == s.procs[q := Leasing];
    var s3 := Act(s2, Advance(q, CALM));
    assert s3.procs == s.procs[q := LeaseWriting];
    var s4 := Act(s3, Advance(q, CALM));
    assert s4.procs == s.procs[q := Rechecking];
    var s5 := Act(s4, Advance(q, CALM));
    assert s5.procs == s.procs[q := Critical];
    schedule := [StartLauncher(q)] + Steps(q, 4);
    Runs.RunsThrough(Act, s, schedule, [s, s1, s2, s3, s4, s5]);
  }

  // A holder that outstays LOCK_STALE_SEC while it mutates the tree meets a launcher there.
  lemma SlowMutator(atomicBreak: bool) returns (schedule: seq<Action>)
    ensures !Interlocked(Run(Initial(false, atomicBreak), schedule).procs)
  {
    var i := Initial(false, atomicBreak);
    var a := FirstHolder(false, atomicBreak);
    var s := Run(i, a);
    var s1 := Act(s, Advance(0, CALM));
    var s2 := Act(s1, Wait(LOCK_STALE_SEC + 1));
    assert s2.procs == map[0 := Mutating];
    var b := [Advance(0, CALM), Wait(LOCK_STALE_SEC + 1)];
    Runs.RunsThrough(Act, s, b, [s, s1, s2]);
    var c := FindsStale(s2, 1);
    var s3 := Run(s2, c);
    var d := Breaks(s3, 1);
    var s4 := Run(s3, d);
    var e := EntersCritical(s4, 2);
    var t := Run(s4, e);
    assert t.procs[0] == Mutating && t.procs[2] == Critical;
    Runs.RunAppend(Act, s3, d, e);
    Runs.RunAppend(Act, s2, c, d + e);
    Runs.RunAppend(Act, s, b, c + (d + e));
    Runs.RunAppend(Act, i, a, b + (c + (d + e)));
    schedule := a + (b + (c + (d + e)));
  }

  // So does a holder whose new lock a second breaker unlinks.
  lemma UnlinkedMutator() returns (schedule: seq<Action>)
    ensures !Interlocked(Run(Initial(true, false), schedule).procs)
  {
    var i := Initial(true, false);
    var a := FirstHolder(true, false);
    var s := Run(i, a);
    var s1 := Act(s, Crash(0));
    var s2 := Act(s1, Wait(LOCK_STALE_SEC + 1));
    assert s2.procs == map[] && s2.disk.now == LOCK_STALE_SEC + 1;
    var b := [Crash(0), Wait(LOCK_STALE_SEC + 1)];
    Runs.RunsThrough(Act, s, b, [s, s1, s2]);
    var c := FindsStale(s2, 1);
    var s3 := Run(s2, c);
    var d := FindsStale(s3, 2);
    var s4 := Run(s3, d);
    assert s4.procs == map[1 := Breaking(0, 0), 2 := Breaking(0, 0)];
    var e := MutatesUnlocked(s4);
    Runs.RunAppend(Act, s3, d, e);
    Runs.RunAppend(Act, s2, c, d + e);
    Runs.RunAppend(Act, s, b, c + (d + e));
    Runs.RunAppend(Act, i, a, b + (c + (d + e)));
    schedule := a + (b + (c + (d + e)));
  }

  lemma MutatesUnlocked(s: State) returns (schedule: seq<Action>)
    requires s.procs == map[1 := Breaking(0, 0), 2 := Breaking(0, 0)] && !s.atomicBreak
    requires s.disk.lock.Some? && s.disk.lock.value.mtime == 0 && s.disk.lease.None? && 3 !in s.used
    ensures !Interlocked(Run(s, schedule).procs)
  {
    var a := BreakInTurn(s);
    var s1 := Run(s, a);
    var b := TakesFreeLock(s1, 1, 1);
    var s2 := Run(s1, b);
    assert s2.procs == map[1 := Locked, 2 := Unlinking(0)];
    var s3 := Act(s2, Advance(1, CALM));
    var s4 := Act(s3, Advance(2, CALM));
    assert s4.procs == map[1 := Mutating, 2 := Trying(1)] && s4.disk.lock.None?;
    var c := [Advance(1, CALM), Advance(2, CALM)];
    Runs.RunsThrough(Act, s2, c, [s2, s3, s4]);
    var d := EntersCritical(s4, 3);
    var t := Run(s4, d);
    assert t.procs[1] == Mutating && t.procs[3] == Critical;
    Runs.RunAppend(Act, s2, c, d);
    Runs.RunAppend(Act, s1, b, c + d);
    Runs.RunAppend(Act, s, a, b + (c + d));
    schedule := a + (b + (c + d));
  }

  // The launcher is kept out of the mutated tree on every schedule exactly under both assumptions.
  lemma InterlockedIff(timely: bool, atomicBreak: bool)
    ensures (forall schedule :: Interlocked(Run(Initial(timely, atomicBreak), schedule).procs))
            <==> timely && atomicBreak
  {
    if timely && atomicBreak {
      forall schedule ensures Interlocked(Run(Initial(true, true), schedule).procs) { Interlock(schedule); }
    } else {
      var schedule: seq<Action>;
      if timely { schedule := UnlinkedMutator(); } else { schedule := SlowMutator(atomicBreak); }
      assert !Interlocked(Run(Initial(timely, atomicBreak), schedule).procs);
    }
  }

  // ---------------------------------------------------------------------------------------
  // Lock and lease are given back
  // ---------------------------------------------------------------------------------------

  // Whatever else runs: the step with which a run ends, unless it fails, leaves no lease if the run
  // had one, and no lock if it had that; a lease that cannot be written is removed all the same.
  lemma EndGivesBack(schedule: seq<Action>, p: nat, w: Weather)
    requires var s := Run(Initial(true, true), schedule); p in s.procs && p !in Act(s, Advance(p, w)).procs
    ensures var s := Run(Initial(true, true), schedule);
            var t := Act(s, Advance(p, w));
            && (Leased(s.procs[p]) && (!w.fails || s.procs[p].LeaseWriting?) ==> s.disk.lease == Some(p) && t.disk.lease == None)
            && (Holding(s.procs[p]) && !w.fails ==> s.disk.lock.Some? && t.disk.lock == None)
  {
    SoundForever(Initial(true, true), schedule);
    var s := Run(Initial(true, true), schedule);
    assert ProcSound(s.disk, p, s.procs[p]);
  }

  lemma {:induction false} StepsUnfold(s: State, p: nat, n: nat)
    requires n > 0
    ensures Run(s, Steps(p, n)) == Run(Act(s, Advance(p, CALM)), Steps(p, n - 1))
  {
    assert Steps(p, n)[1..] == Steps(p, n - 1);
  }

  lemma {:induction false} GoneStays(s: State, p: nat, n: nat)
    requires p !in s.procs
    ensures Run(s, Steps(p, n)) == s
  {
    if n == 0 {
    } else {
      StepsUnfold(s, p, n);
      GoneStays(s, p, n - 1);
    }
  }

  // How many calm steps a launcher that made its lease is from its end.
  function Left(pc: Proc): nat {
    if pc.LeaseWriting? || pc.Writing? then 5 else if pc.Rechecking? || pc.Locked? then 4
    else if pc.Critical? || pc.Mutating? then 3 else if pc.LeaseReleasing? || pc.Releasing? then 2 else 1
  }

  lemma {:induction false} LauncherEnds(s: State, p: nat, n: nat)
    requires p in s.procs && Leased(s.procs[p]) && s.disk.lease == Some(p) && n >= Left(s.procs[p])
    ensures Run(s, Steps(p, n)) == s.(disk := s.disk.(lease := None), procs := s.procs - {p})
    decreases n
  {
    StepsUnfold(s, p, n);
    var t := Act(s, Advance(p, CALM));
    if p in t.procs {
      LauncherEnds(t, p, n - 1);
      assert t.procs - {p} == s.procs - {p};
    } else {
      GoneStays(t, p, n - 1);
    }
  }

  predicate OwnLock(d: Disk, p: nat, pc: Proc) {
    d.lock.Some? && d.lock.value.inode == p && (pc.Writing? || d.lock.value.marked)
  }

  lemma {:induction false} MutatorEnds(s: State, p: nat, n: nat)
    requires p in s.procs && Holding(s.procs[p]) && OwnLock(s.disk, p, s.procs[p]) && n >= Left(s.procs[p])
    ensures Run(s, Steps(p, n)) == s.(disk := s.disk.(lock := None), procs := s.procs - {p})
    decreases n
  {
    StepsUnfold(s, p, n);
    var t := Act(s, Advance(p, CALM));
    if p in t.procs {
      MutatorEnds(t, p, n - 1);
      assert t.procs - {p} == s.procs - {p};
      assert t.disk.(lock := None) == s.disk.(lock := None);
    } else {
      GoneStays(t, p, n - 1);
    }
  }

  // From every reachable state, five calm steps of a run that has the lease or the lock end it, with
  // what it had given back and all else as it was.
  lemma CalmRunGivesBack(schedule: seq<Action>, p: nat)
    requires p in Run(Initial(true, true), schedule).procs
    ensures var s := Run(Initial(true, true), schedule);
            var t := Run(s, Steps(p, 5));
            && (Leased(s.procs[p]) ==> t == s.(disk := s.disk.(lease := None), procs := s.procs - {p}))
            && (Holding(s.procs[p]) ==> t == s.(disk := s.disk.(lock := None), procs := s.procs - {p}))
  {
    SoundForever(Initial(true, true), schedule);
    var s := Run(Initial(true, true), schedule);
    assert ProcSound(s.disk, p, s.procs[p]);
    if Leased(s.procs[p]) { LauncherEnds(s, p, 5); }
    if Holding(s.procs[p]) { MutatorEnds(s, p, 5); }
  }

  // What a run has used of its two attempts to create the lock.
  predicate WithinAttempts(pc: Proc) {
    match pc
    case Trying(attempt) => attempt <= 2
    case Stating(attempt) => attempt < 2
    case Judging(attempt, _) => attempt < 2
    case Reading(attempt, _) => attempt < 2
    case Breaking(attempt, _) => attempt < 2
    case Unlinking(attempt) => attempt < 2
    case _ => true
  }

  ghost predicate AllWithinAttempts(s: State) {
    forall p :: p in s.procs ==> WithinAttempts(s.procs[p])
  }

  lemma StepWithinAttempts(d: Disk, p: nat, pc: Proc, atomicBreak: bool, w: Weather)
    requires WithinAttempts(pc)
    ensures var next := Step(d, p, pc, atomicBreak, w).next; next.Some? ==> WithinAttempts(next.value)
    ensures pc == Trying(2) ==> Step(d, p, pc, atomicBreak, w) == Leave(d)
  {}

  // No run looks at the lock a third time, whatever it meets: after two attempts it gives up and
  // changes nothing.
  lemma TwoAttempts(timely: bool, atomicBreak: bool, schedule: seq<Action>, p: nat, w: Weather)
    ensures var s := Run(Initial(timely, atomicBreak), schedule);
            && AllWithinAttempts(s)
            && (p in s.procs && s.procs[p] == Trying(2) ==>
                  Act(s, Advance(p, w)) == s.(procs := s.procs - {p}))
  {
    forall t, a | AllWithinAttempts(t) ensures AllWithinAttempts(Act(t, a)) {
      if a.Advance? && a.p in t.procs { StepWithinAttempts(t.disk, a.p, t.procs[a.p], t.atomicBreak, a.weather); }
    }
    Runs.Invariant(Act, AllWithinAttempts, Initial(timely, atomicBreak), schedule);
    var s := Run(Initial(timely, atomicBreak), schedule);
    if p in s.procs && s.procs[p] == Trying(2) { StepWithinAttempts(s.disk, p, s.procs[p], s.atomicBreak, w); }
  }

  // A launcher that meets a lease waits for it, unless there is a lock or its time is up; then it
  // gives up.  Either way it changes nothing.
  lemma WaitsOrGivesUp(s: State, p: nat, w: Weather)
    requires p in s.procs && s.procs[p] == Leasing && s.disk.lease.Some?
    ensures Act(s, Advance(p, w)) == if s.disk.lock == None && w.stays then s else s.(procs := s.procs - {p})
  {
    assert s.procs[p := Leasing] == s.procs;
  }

  // A run whose look at the lock was overtaken, since the lock went away in between, tries again and
  // takes it.
  lemma OvertakenRunRetries(s: State, p: nat)
    requires p in s.procs && (s.procs[p] == Stating(0) || (s.procs[p].Breaking? && s.procs[p].attempt == 0))
    requires s.disk.lock.None?
    ensures var t := Run(s, Steps(p, 3));
            p in t.procs && t.procs[p] == Locked && t.disk == s.disk.(lock := Some(LockFile(p, s.disk.now, true)))
  {
    StepsUnfold(s, p, 3);
    var s1 := Act(s, Advance(p, CALM));
    StepsUnfold(s1, p, 2);
    var s2 := Act(s1, Advance(p, CALM));
    StepsUnfold(s2, p, 1);
  }

  // A run that lost its lock before it wrote the marker does not notice.
  lemma MarkerGoesUnchecked(s: State, p: nat)
    requires p in s.procs && s.procs[p] == Writing
    ensures var t := Act(s, Advance(p, CALM));
            && p in t.procs && t.procs[p] == Locked
            && (s.disk.lock.None? || s.disk.lock.value.inode != p ==> t.disk == s.disk)
  {}

  // On a host with neither lock nor lease a launcher reaches its critical section, and when it is
  // done the host is free again for the next run.
  lemma FreeHostLaunches(s: State, p: nat)
    requires p !in s.used && p !in s.procs && s.disk.lock.None? && s.disk.lease.None?
    ensures var t := Run(s, [StartLauncher(p)] + Steps(p, 4));
            p in t.procs && t.procs[p] == Critical && Run(t, Steps(p, 3)) == s.(used := s.used + {p})
  {
    var schedule := EntersCritical(s, p);
    var t := Run(s, schedule);
    LauncherEnds(t, p, 3);
    assert t.procs - {p} == s.procs;
  }

  // So does an installer or uninstaller with the managed tree.
  lemma FreeHostInstalls(s: State, p: nat)
    requires p !in s.used && p !in s.procs && s.disk.lock.None? && s.disk.lease.None?
    ensures var t := Run(s, [StartMutator(p)] + Steps(p, 3));
            p in t.procs && t.procs[p] == Mutating && Run(t, Steps(p, 3)) == s.(used := s.used + {p})
  {
    var s1 := Act(s, StartMutator(p));
    var s2 := Act(s1, Advance(p, CALM));
    var s3 := Act(s2, Advance(p, CALM));
    var s4 := Act(s3, Advance(p, CALM));
    Runs.RunsThrough(Act, s, [StartMutator(p)] + Steps(p, 3), [s, s1, s2, s3, s4]);
    MutatorEnds(s4, p, 3);
    assert s4.procs - {p} == s.procs;
  }

  // A lock that a dead run left is taken over by the next run if and only if its marker was written
  // and it is more than an hour old; otherwise that run changes nothing.
  lemma LeftoverTakenIff(s: State, p: nat)
    requires p !in s.used && p !in s.procs && s.disk.lock.Some? && s.atomicBreak
    ensures var t := Run(s, [StartMutator(p)] + Steps(p, 7));
            if s.disk.lock.value.marked && s.disk.now > s.disk.lock.value.mtime + 3600 then
              p in t.procs && t.procs[p] == Locked && t.disk == s.disk.(lock := Some(LockFile(p, s.disk.now, true)))
            else t.procs == s.procs && t.disk == s.disk
  {
    var s1 := Act(s, StartMutator(p));
    assert ([StartMutator(p)] + Steps(p, 7))[1..] == Steps(p, 7);
    var s2 := Act(s1, Advance(p, CALM));
    var s3 := Act(s2, Advance(p, CALM));
    var s4 := Act(s3, Advance(p, CALM));
    StepsUnfold(s1, p, 7);
    StepsUnfold(s2, p, 6);
    StepsUnfold(s3, p, 5);
    if s.disk.now > s.disk.lock.value.mtime + 3600 {
      var s5 := Act(s4, Advance(p, CALM));
      StepsUnfold(s4, p, 4);
      if s.disk.lock.value.marked {
        TakenOver(s5, p);
      } else {
        assert s5.procs == s.procs;
        GoneStays(s5, p, 3);
      }
    } else {
      assert s4.procs == s.procs;
      GoneStays(s4, p, 4);
    }
  }

  lemma TakenOver(s: State, p: nat)
    requires p in s.procs && s.atomicBreak && s.disk.lock.Some? && s.procs[p] == Breaking(0, s.disk.lock.value.mtime)
    ensures var t := Run(s, Steps(p, 3));
            p in t.procs && t.procs[p] == Locked && t.disk == s.disk.(lock := Some(LockFile(p, s.disk.now, true)))
  {
    StepsUnfold(s, p, 3);
    var s1 := Act(s, Advance(p, CALM));
    StepsUnfold(s1, p, 2);
    var s2 := Act(s1, Advance(p, CALM));
    StepsUnfold(s2, p, 1);
  }

  // ---------------------------------------------------------------------------------------
  // A lease whose launcher died
  // ---------------------------------------------------------------------------------------

  // A run that is past its check of the lease.
  predicate PastLease(pc: Proc) {
    pc.Mutating? || Leased(pc)
  }

  // The launcher that made the lease is gone, and nobody is past it.
  ghost predicate LeaseLost(s: State, p: nat) {
    s.disk.lease == Some(p) && p in s.used && p !in s.procs && s.procs.Keys <= s.used
    && forall q :: q in s.procs ==> !PastLease(s.procs[q])
  }

  lemma LostStep(d: Disk, q: nat, pc: Proc, atomicBreak: bool, w: Weather)
    requires d.lease.Some? && !PastLease(pc)
    ensures Step(d, q, pc, atomicBreak, w).disk.lease == d.lease
    ensures Step(d, q, pc, atomicBreak, w).next.Some? ==> !PastLease(Step(d, q, pc, atomicBreak, w).next.value)
  {}

  lemma ActKeepsLost(s: State, a: Action, p: nat)
    requires LeaseLost(s, p)
    ensures LeaseLost(Act(s, a), p)
  {
    if a.Advance? && a.p in s.procs { LostStep(s.disk, a.p, s.procs[a.p], s.atomicBreak, a.weather); }
  }

  // A launcher that dies under its lease blocks the host for good: whatever runs later, the lease
  // stays, no installer or uninstaller touches the tree and no launcher gets past its checks.
  lemma LostLeaseBlocksForever(timely: bool, atomicBreak: bool) returns (schedule: seq<Action>)
    ensures var s := Run(Initial(timely, atomicBreak), schedule);
            && s.procs == map[] && s.disk.lease == Some(0)
            && forall later :: Run(s, later).disk.lease == Some(0)
                 && forall q :: q in Run(s, later).procs ==>
                      !Run(s, later).procs[q].Mutating? && !Run(s, later).procs[q].Critical?
  {
    var i := Initial(timely, atomicBreak);
    var a := EntersCritical(i, 0);
    var s := Run(i, a);
    var t := Act(s, Crash(0));
    assert t.procs == map[];
    Runs.RunsThrough(Act, s, [Crash(0)], [s, t]);
    Runs.RunAppend(Act, i, a, [Crash(0)]);
    schedule := a + [Crash(0)];
    forall later ensures LeaseLost(Run(t, later), 0) {
      forall u, b | LeaseLost(u, 0) ensures LeaseLost(Act(u, b), 0) { ActKeepsLost(u, b, 0); }
      Runs.Invariant(Act, u => LeaseLost(u, 0), t, later);
    }
  }

  // ---------------------------------------------------------------------------------------
  // A lock whose creator died before writing its marker
  // ---------------------------------------------------------------------------------------

  ghost predicate Wedged(s: State, lock: LockFile) {
    && !lock.marked && s.disk.lock == Some(lock) && lock.inode in s.used && s.procs.Keys <= s.used
    && (forall p :: p in s.procs ==> Harmless(s.procs[p]))
  }

  predicate Harmless(pc: Proc) {
    !Holding(pc) && !pc.Breaking? && !pc.Unlinking?
  }

  lemma HarmlessStep(d: Disk, p: nat, pc: Proc, atomicBreak: bool, w: Weather)
    requires d.lock.Some? && !d.lock.value.marked && Harmless(pc)
    ensures Step(d, p, pc, atomicBreak, w).disk.lock == d.lock
    ensures Step(d, p, pc, atomicBreak, w).next.Some? ==> Harmless(Step(d, p, pc, atomicBreak, w).next.value)
  {}

  lemma {:induction false} WedgedForever(s: State, schedule: seq<Action>, lock: LockFile)
    requires Wedged(s, lock)
    ensures Wedged(Run(s, schedule), lock)
    decreases |schedule|
  {
    if schedule == [] {
    } else {
      var a := schedule[0];
      if a.Advance? && a.p in s.procs {
        HarmlessStep(s.disk, a.p, s.procs[a.p], s.atomicBreak, a.weather);
      }
      WedgedForever(Act(s, a), schedule[1..], lock);
    }
  }

  // With every process dead, a leftover lock can be broken exactly when its marker was written;
  // otherwise no later run ever removes it, so no install, uninstall or launch ever proceeds.
  lemma LeftoverBreakableIffMarked(s: State)
    requires s.procs == map[] && s.disk.lock.Some? && s.disk.lock.value.inode in s.used
    ensures (exists schedule :: Run(s, schedule).disk.lock.None?) <==> s.disk.lock.value.marked
  {
    var lock := s.disk.lock.value;
    if lock.marked {
      var long := lock.mtime + LOCK_STALE_SEC + 1;
      var s1 := Act(s, Wait(long));
      Runs.RunsThrough(Act, s, [Wait(long)], [s, s1]);
      var p := Unused(s.used);
      var b := FindsStale(s1, p);
      var s2 := Run(s1, b);
      var c := Breaks(s2, p);
      Runs.RunAppend(Act, s1, b, c);
      Runs.RunAppend(Act, s, [Wait(long)], b + c);
      assert Run(s, [Wait(long)] + (b + c)).disk.lock.None?;
    } else {
      forall schedule ensures Run(s, schedule).disk.lock.Some? { WedgedForever(s, schedule, lock); }
    }
  }

  // Such a lock is left behind by a run that dies between creating it and writing its marker, and
  // nothing that happens later removes it.
  lemma UnmarkedForever(timely: bool, atomicBreak: bool) returns (schedule: seq<Action>)
    ensures var s := Run(Initial(timely, atomicBreak), schedule);
            && s.procs == map[] && s.disk.lock.Some? && !s.disk.lock.value.marked
            && forall later :: Run(s, later).disk.lock == s.disk.lock
  {
    var s0 := Initial(timely, atomicBreak);
    var s1 := Act(s0, StartMutator(0));
    var s2 := Act(s1, Advance(0, CALM));
    var s3 := Act(s2, Crash(0));
    assert s3.procs == map[] && s3.disk.lock == Some(LockFile(0, 0, false));
    schedule := [StartMutator(0), Advance(0, CALM), Crash(0)];
    Runs.RunsThrough(Act, s0, schedule, [s0, s1, s2, s3]);
    forall later ensures Run(s3, later).disk.lock == s3.disk.lock { WedgedForever(s3, later, s3.disk.lock.value); }
  }

  lemma Unused(used: set<nat>) returns (p: nat)
    ensures p !in used
  {
    p := 0;
    var rest := used;
    while rest != {}
      invariant forall q :: q in used && q !in rest ==> q < p
      decreases |rest|
    {
      var q :| q in rest;
      rest := rest - {q};
      p := if q >= p then q + 1 else p;
    }
  }
}

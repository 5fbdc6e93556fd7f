/** Governed resume: at most one child process per claim.
  *
  * The durable state is the claim's entry in the source ledger, the successor's launch record,
  * the private claim file, the result a child leaves behind and, for a managed dispatcher, the
  * execution lease of the host.  Any number of resume calls run against it; every step below is one
  * read or one durable write, and a call may crash between any two of them.
  */
module ResumeLaunch {
  import opened Wrappers
  import Runs

  datatype Phase =
    | Reserved | Prepared | LaunchClaimed | Spawned | SpawnFailed | Indeterminate | Terminal

  // The phases in which `jobs resume` goes on to launch a child.
  predicate Launchable(p: Phase) {
    p == Reserved || p == Prepared || p == SpawnFailed
  }

  // What the private claim file binds: the record's nonce and the digest of the frozen bundle.
  datatype Seal = Seal(nonce: nat, bundle: nat)

  // seal stands for claim_sha256 and bundle_sha256, which are always written together.
  datatype Claim = Claim(phase: Phase, contacted: Option<bool>, seal: Option<Seal>, pid: Option<nat>)

  datatype Record = Record(nonce: nat, bundle: nat, pid: Option<nat>)

  // The execution lease of the host: a call for this claim made it, or another launcher did.
  datatype Lease = Free | ByCall | ByOther

  // children lists the nonce handed to every process ever created for the claim; managed says
  // whether calls take the lease at all.
  datatype Disk = Disk(
    claim: Claim,
    record: Option<Record>,
    sealFile: Option<Seal>,
    result: Option<nat>,
    children: seq<nat>,
    managed: bool,
    lease: Lease)

  // What the operating system reports for one Popen call.
  datatype PopenFate = Started(pid: nat) | RaisedOsError | Interrupted(born: bool)

  // Everything a step does not control: liveness probes, fresh names, failing writes, Popen, how
  // long a taken lease is waited for, and whether the lease can be unlinked.
  datatype Weather = Weather(
    running: bool, fails: bool, nonce: nat, bundle: nat, popen: PopenFate, waits: bool, stuck: bool)

  // What spawn_background is told to do once it has the lease.
  datatype Path = Fresh | Continue | Recover

  // Program counter and live locals of one resume call.
  datatype Runner =
    | Looked(seen: Phase)
    | Closing(expected: Phase, target: Phase, childPid: Option<nat>)
    | Reconciling
    | Leasing(path: Path)
    // under the lease
    | Checking                        // fresh path, before write_prepared looks for a record
    | Writing(nonce: nat, bundle: nat)  // the record was absent when looked for
    | Loading(recover: bool)          // _load_resume_recovery or _load_resume_preparation
    | Sealing(seal: Seal)
    | Marking(seal: Seal)
    | Arming(from: Phase, nonce: nat)
    | Armed(nonce: nat)
    | Failing
    | Doubting
    | Returning                       // the finally clause of a call that raises
    | Releasing(pid: nat)             // the finally clause after a started child
    // the lease is given back
    | Stamping(pid: nat)
    | Confirming(pid: nat)

  // The disk after one step, and where the call goes next; None when it returns or raises.
  datatype Outcome = Outcome(disk: Disk, next: Option<Runner>)

  function Leave(d: Disk): Outcome {
    Outcome(d, None)
  }

  function Goto(d: Disk, pc: Runner): Outcome {
    Outcome(d, Some(pc))
  }

  // claim_transition: one durable compare-and-set of parent_phase.
  function Transition(d: Disk, target: Phase, contacted: Option<bool>, pid: Option<nat>): Disk {
    d.(claim := d.claim.(phase := target, contacted := contacted, pid := pid))
  }

  // A result authenticates only against the nonce of the launch record.
  predicate Trusted(d: Disk) {
    d.result.Some? && d.record.Some? && d.result.value == d.record.value.nonce
  }

  predicate PastLaunch(p: Phase) {
    p == LaunchClaimed || p == Spawned || p == Indeterminate
  }

  // The branches of run_jobs_query on a claim that is past its launch.
  function Classify(d: Disk, seen: Phase, running: bool): Outcome {
    var known := if d.record.Some? then d.record.value.pid else None;
    var alive := known.Some? && d.result.None? && running;
    if Trusted(d) then Goto(d, Reconciling)
    else if seen == LaunchClaimed then
      Goto(d, if alive then Closing(LaunchClaimed, Spawned, known) else Closing(LaunchClaimed, Indeterminate, None))
    else if seen == Spawned && !alive then Goto(d, Closing(Spawned, Indeterminate, None))
    else Leave(d)
  }

  function Look(d: Disk, seen: Phase, running: bool): Outcome {
    if PastLaunch(seen) then Classify(d, seen, running)
    else if seen == Terminal then Leave(d)
    else if seen == Prepared || seen == SpawnFailed then Goto(d, Leasing(Recover))
    else if d.record.Some? then Goto(d, Leasing(Continue))
    else Goto(d, Leasing(Fresh))
  }

  function Begin(path: Path): Runner {
    match path
    case Fresh => Checking
    case Continue => Loading(false)
    case Recover => Loading(true)
  }

  // _acquire_execution_lease: fails models an install lock, or a lease file that cannot be written
  // and is then unlinked if it can be.
  function AcquireLease(d: Disk, path: Path, w: Weather): Outcome {
    if !d.managed then Goto(d, Begin(path))
    else if d.lease != Free then if w.waits && !w.fails then Goto(d, Leasing(path)) else Leave(d)
    else if w.fails then Leave(if w.stuck then d.(lease := ByCall) else d)
    else Goto(d.(lease := ByCall), Begin(path))
  }

  // _release_execution_lease; a failing unlink is swallowed.
  function GiveBack(d: Disk, stuck: bool): Disk {
    if d.managed && !stuck then d.(lease := Free) else d
  }

  // A refusal under the lease.
  function Refuse(d: Disk): Outcome {
    Goto(d, Returning)
  }

  predicate RecoveryAdmitted(d: Disk) {
    && (d.claim.phase == SpawnFailed || d.claim.phase == Prepared)
    && (d.claim.phase == SpawnFailed ==> d.claim.contacted == Some(false))
    && (d.claim.phase == Prepared ==> d.claim.contacted == None)
    && d.claim.seal.Some?
    && d.record.Some? && d.record.value.pid == None
    && d.record.value.bundle == d.claim.seal.value.bundle
    && d.sealFile == d.claim.seal
    && d.sealFile.value.nonce == d.record.value.nonce
  }

  predicate PreparationAdmitted(d: Disk) {
    && d.claim.phase == Reserved && d.claim.contacted == None && d.claim.seal == None
    && d.record.Some? && d.record.value.pid == None
  }

  function Load(d: Disk, recover: bool): Outcome {
    if recover then
      if RecoveryAdmitted(d) then Goto(d, Arming(d.claim.phase, d.record.value.nonce)) else Refuse(d)
    else if PreparationAdmitted(d) then Goto(d, Sealing(Seal(d.record.value.nonce, d.record.value.bundle)))
    else Refuse(d)
  }

  // prepare_successor, first half: publish the immutable private claim or agree with it.
  function SealClaim(d: Disk, seal: Seal): Outcome {
    if d.sealFile.None? then Goto(d.(sealFile := Some(seal)), Marking(seal))
    else if d.sealFile.value == seal then Goto(d, Marking(seal))
    else Refuse(d)
  }

  // prepare_successor, second half: mark_prepared.
  function MarkPrepared(d: Disk, seal: Seal): Outcome {
    if d.claim.phase == Prepared && d.claim.seal == Some(seal) then Goto(d, Arming(Prepared, seal.nonce))
    else if d.claim.phase == Reserved then
      Goto(d.(claim := d.claim.(phase := Prepared, seal := Some(seal))), Arming(Prepared, seal.nonce))
    else Refuse(d)
  }

  function ClaimLaunch(d: Disk, from: Phase, nonce: nat): Outcome {
    if d.claim.phase == from && (from == Prepared || from == SpawnFailed) then
      Goto(Transition(d, LaunchClaimed, if from == SpawnFailed then None else d.claim.contacted, d.claim.pid),
           Armed(nonce))
    else Refuse(d)
  }

  // fails models a hook bridge that refuses after the launch was claimed and before Popen.
  function Popen(d: Disk, nonce: nat, fails: bool, fate: PopenFate): Outcome {
    if fails then Refuse(d)
    else match fate
      case Started(pid) => Goto(d.(children := d.children + [nonce]), Releasing(pid))
      case RaisedOsError => Goto(d, Failing)
      case Interrupted(born) => Goto(if born then d.(children := d.children + [nonce]) else d, Doubting)
  }

  function StampPid(d: Disk, pid: nat, fails: bool): Outcome {
    Goto(if d.record.Some? && !fails then d.(record := Some(d.record.value.(pid := Some(pid)))) else d,
         Confirming(pid))
  }

  // The transitions out of child_launch_claimed; a lost race or a failed write is swallowed.
  function Settle(d: Disk, fails: bool, target: Phase, contacted: Option<bool>, pid: Option<nat>): Disk {
    if d.claim.phase == LaunchClaimed && !fails then Transition(d, target, contacted, pid) else d
  }

  function Step(d: Disk, pc: Runner, w: Weather): Outcome {
    match pc
    case Looked(seen) => Look(d, seen, w.running)
    case Closing(expected, target, childPid) =>
      Leave(if d.claim.phase == expected
            then Transition(d, target, d.claim.contacted, if childPid.Some? then childPid else d.claim.pid) else d)
    case Reconciling => Leave(SealTerminal(d))
    case Leasing(path) => AcquireLease(d, path, w)
    case Checking => if d.record.Some? then Refuse(d) else Goto(d, Writing(w.nonce, w.bundle))
    case Writing(nonce, bundle) =>
      if w.fails then Refuse(d)
      else Goto(d.(record := Some(Record(nonce, bundle, None))), Sealing(Seal(nonce, bundle)))
    case Loading(recover) => Load(d, recover)
    case Sealing(seal) => if w.fails then Refuse(d) else SealClaim(d, seal)
    case Marking(seal) => if w.fails then Refuse(d) else MarkPrepared(d, seal)
    case Arming(from, nonce) => if w.fails then Refuse(d) else ClaimLaunch(d, from, nonce)
    case Armed(nonce) => Popen(d, nonce, w.fails, w.popen)
    case Failing => Refuse(Settle(d, w.fails, SpawnFailed, Some(false), d.claim.pid))
    case Doubting => Refuse(Settle(d, w.fails, Indeterminate, d.claim.contacted, d.claim.pid))
    case Returning => Leave(GiveBack(d, w.stuck))
    case Releasing(pid) => Goto(GiveBack(d, w.stuck), Stamping(pid))
    case Stamping(pid) => StampPid(d, pid, w.fails)
    case Confirming(pid) => Leave(Settle(d, w.fails, Spawned, d.claim.contacted, Some(pid)))
  }

  // mark_terminal_for_job: a trusted result closes any claim that is past its launch.
  function SealTerminal(d: Disk): Disk {
    if Trusted(d) && PastLaunch(d.claim.phase) then d.(claim := d.claim.(phase := Terminal)) else d
  }

  // record_terminalization_failure.
  function SealFailure(d: Disk): Disk {
    if Trusted(d) && PastLaunch(d.claim.phase) then d.(claim := d.claim.(phase := Indeterminate)) else d
  }

  // serialized says whether calls hold successor_launch_lock, which a crash releases.
  datatype State = State(disk: Disk, runners: map<nat, Runner>, serialized: bool)

  datatype Action =
    | Enter(call: nat)
    | Advance(call: nat, weather: Weather)
    | Crash(call: nat)
    | ChildWritesResult(child: nat)
    | ChildSealsTerminal
    | ChildSealFails
    | OtherTakesLease                  // any other background launch of the host
    | OtherGivesBack

  function Initial(serialized: bool, managed: bool): State {
    State(Disk(Claim(Reserved, None, None, None), None, None, None, [], managed, Free), map[], serialized)
  }

  function Apply(s: State, r: nat, o: Outcome): State {
    s.(disk := o.disk, runners := if o.next.Some? then s.runners[r := o.next.value] else s.runners - {r})
  }

  // One action; an action that is not enabled changes nothing.
  function Act(s: State, a: Action): State {
    match a
    case Enter(r) =>
      if r in s.runners || (s.serialized && s.runners != map[]) then s
      else s.(runners := s.runners[r := Looked(s.disk.claim.phase)])
    case Advance(r, w) => if r in s.runners then Apply(s, r, Step(s.disk, s.runners[r], w)) else s
    case Crash(r) => s.(runners := s.runners - {r})
    case ChildWritesResult(i) =>
      if i < |s.disk.children| then s.(disk := s.disk.(result := Some(s.disk.children[i]))) else s
    case ChildSealsTerminal => s.(disk := SealTerminal(s.disk))
    case ChildSealFails => s.(disk := SealFailure(s.disk))
    case OtherTakesLease => if s.disk.lease == Free then s.(disk := s.disk.(lease := ByOther)) else s
    case OtherGivesBack => if s.disk.lease == ByOther then s.(disk := s.disk.(lease := Free)) else s
  }

  function Run(s: State, schedule: seq<Action>): State {
    Runs.Run(Act, s, schedule)
  }

  // ---------------------------------------------------------------------------------------
  // At most one child
  // ---------------------------------------------------------------------------------------

  // A call that owns the claim and has not yet learned of a process.
  predicate Claimant(pc: Runner) {
    pc.Armed? || pc.Failing?
  }

  predicate RunnerSound(d: Disk, pc: Runner) {
    && (Claimant(pc) ==> d.children == [] && !Launchable(d.claim.phase))
    && (pc.Releasing? || pc.Stamping? || pc.Confirming? ==> |d.children| == 1)
    && (pc.Closing? ==>
          && (pc.expected == LaunchClaimed || pc.expected == Spawned)
          && (pc.target == Indeterminate || (pc.target == Spawned && |d.children| == 1)))
  }

  predicate DiskSound(d: Disk) {
    && |d.children| <= 1
    && (Launchable(d.claim.phase) ==> d.children == [])
    && (d.claim.phase == Spawned || d.claim.phase == Terminal ==> |d.children| == 1)
    && (d.record.Some? && d.record.value.pid.Some? ==> |d.children| == 1)
    && (d.result.Some? ==> d.children == [d.result.value])
    && (d.claim.phase == Terminal ==> d.result.Some?)
  }

  ghost predicate Sound(s: State) {
    && DiskSound(s.disk)
    && (forall r :: r in s.runners ==> RunnerSound(s.disk, s.runners[r]))
    && (forall r, q :: r in s.runners && q in s.runners && Claimant(s.runners[r]) && Claimant(s.runners[q]) ==> r == q)
  }

  // What one step of a call may do to the disk without breaking what the other calls rely on.
  predicate Framed(d: Disk, pc: Runner, o: Outcome) {
    && DiskSound(o.disk)
    && (|d.children| == 1 ==> |o.disk.children| == 1)
    && (Claimant(pc)
        || (o.disk.children == d.children && (Launchable(o.disk.claim.phase) ==> Launchable(d.claim.phase))))
    && (o.next.Some? ==>
          && RunnerSound(o.disk, o.next.value)
          && (Claimant(o.next.value) ==> Claimant(pc) || Launchable(d.claim.phase)))
  }

  lemma StepKeepsDiskSound(d: Disk, pc: Runner, w: Weather)
    requires DiskSound(d) && RunnerSound(d, pc)
    ensures DiskSound(Step(d, pc, w).disk)
  {}

  lemma StepIsFramed(d: Disk, pc: Runner, w: Weather)
    requires DiskSound(d) && RunnerSound(d, pc)
    ensures Framed(d, pc, Step(d, pc, w))
  {
    StepKeepsDiskSound(d, pc, w);
  }

  lemma FramedKeepsSound(s: State, r: nat, o: Outcome)
    requires Sound(s) && r in s.runners && Framed(s.disk, s.runners[r], o)
    ensures Sound(Apply(s, r, o))
  {
    var t := Apply(s, r, o);
    forall q | q in t.runners
      ensures RunnerSound(t.disk, t.runners[q])
    {
      if q != r { assert RunnerSound(s.disk, s.runners[q]); }
    }
    forall p, q | p in t.runners && q in t.runners && Claimant(t.runners[p]) && Claimant(t.runners[q])
      ensures p == q
    {
      if p != r && q != r { assert p in s.runners && q in s.runners; }
    }
  }

  lemma ActKeepsSound(s: State, a: Action)
    requires Sound(s)
    ensures Sound(Act(s, a))
  {
    match a
    case Advance(r, w) =>
      if r in s.runners {
        StepIsFramed(s.disk, s.runners[r], w);
        FramedKeepsSound(s, r, Step(s.disk, s.runners[r], w));
      }
    case _ =>
      var t := Act(s, a);
      forall q | q in t.runners
        ensures RunnerSound(t.disk, t.runners[q])
      {
        if !t.runners[q].Looked? { assert RunnerSound(s.disk, s.runners[q]); }
      }
  }

  lemma SoundForever(s: State, schedule: seq<Action>)
    requires Sound(s)
    ensures Sound(Run(s, schedule))
  {
    forall t, a | Sound(t) ensures Sound(Act(t, a)) { ActKeepsSound(t, a); }
    Runs.Invariant(Act, Sound, s, schedule);
  }

  // Over every schedule of any number of calls, crashes and child actions, with or without the
  // launch lock and the lease: no second process is ever created, none exists while the claim is launchable,
  // exactly one existed once the claim says spawned or terminal, and a terminal claim has its result.
  lemma AtMostOneChild(serialized: bool, managed: bool, schedule: seq<Action>)
    ensures var d := Run(Initial(serialized, managed), schedule).disk;
            && |d.children| <= 1
            && (Launchable(d.claim.phase) ==> d.children == [])
            && (d.claim.phase == Spawned || d.claim.phase == Terminal ==> |d.children| == 1)
            && (d.record.Some? && d.record.value.pid.Some? ==> |d.children| == 1)
            && (d.claim.phase == Terminal ==> exists nonce :: d.result == Some(nonce) && d.children == [nonce])
  {
    SoundForever(Initial(serialized, managed), schedule);
  }

  // ---------------------------------------------------------------------------------------
  // Only an OSError from Popen reopens a claim
  // ---------------------------------------------------------------------------------------

  // The action is a Popen call that raises OSError.
  predicate PopenRaises(s: State, a: Action) {
    && a.Advance? && a.call in s.runners && s.runners[a.call].Armed?
    && !a.weather.fails && a.weather.popen.RaisedOsError?
  }

  predicate SomePopenRaises(s: State, schedule: seq<Action>)
    decreases |schedule|
  {
    schedule != [] && (PopenRaises(s, schedule[0]) || SomePopenRaises(Act(s, schedule[0]), schedule[1..]))
  }

  ghost predicate NoneFailing(s: State) {
    forall r :: r in s.runners ==> !s.runners[r].Failing?
  }

  lemma StepReopens(d: Disk, pc: Runner, w: Weather)
    requires DiskSound(d) && RunnerSound(d, pc) && !pc.Failing?
    ensures Launchable(Step(d, pc, w).disk.claim.phase) ==> Launchable(d.claim.phase)
    ensures Step(d, pc, w).next == Some(Failing) ==> pc.Armed? && !w.fails && w.popen.RaisedOsError?
  {}

  lemma ActReopens(s: State, a: Action)
    requires Sound(s) && NoneFailing(s) && !PopenRaises(s, a)
    ensures NoneFailing(Act(s, a))
    ensures Launchable(Act(s, a).disk.claim.phase) ==> Launchable(s.disk.claim.phase)
  {
    if a.Advance? && a.call in s.runners {
      assert RunnerSound(s.disk, s.runners[a.call]);
      StepReopens(s.disk, s.runners[a.call], a.weather);
    }
  }

  lemma {:induction false} QuietRunReopensNothing(s: State, schedule: seq<Action>)
    requires Sound(s) && NoneFailing(s) && !SomePopenRaises(s, schedule)
    ensures Sound(Run(s, schedule)) && NoneFailing(Run(s, schedule))
    ensures Launchable(Run(s, schedule).disk.claim.phase) ==> Launchable(s.disk.claim.phase)
    decreases |schedule|
  {
    if schedule == [] {
    } else {
      ActReopens(s, schedule[0]);
      ActKeepsSound(s, schedule[0]);
      QuietRunReopensNothing(Act(s, schedule[0]), schedule[1..]);
    }
  }

  lemma {:induction false} QuietParts(s: State, first: seq<Action>, second: seq<Action>)
    ensures SomePopenRaises(s, first + second) <==>
            SomePopenRaises(s, first) || SomePopenRaises(Run(s, first), second)
    decreases |first|
  {
    if first == [] {
      assert first + second == second;
    } else {
      assert (first + second)[1..] == first[1..] + second;
      QuietParts(Act(s, first[0]), first[1..], second);
    }
  }

  lemma LaunchableHasNoClaimant(s: State)
    requires Sound(s) && Launchable(s.disk.claim.phase)
    ensures NoneFailing(s)
  {
    forall r | r in s.runners ensures !s.runners[r].Failing? { assert RunnerSound(s.disk, s.runners[r]); }
  }

  // Whenever a claim is launchable, later is not, and then is again, some Popen call raised OSError
  // in between; an error of an earlier launch does not account for it.
  lemma ReopenedOnlyByOsError(serialized: bool, managed: bool, before: seq<Action>, away: seq<Action>, back: seq<Action>)
    requires Launchable(Run(Initial(serialized, managed), before).disk.claim.phase)
    requires !Launchable(Run(Initial(serialized, managed), before + away).disk.claim.phase)
    requires Launchable(Run(Initial(serialized, managed), before + away + back).disk.claim.phase)
    ensures SomePopenRaises(Run(Initial(serialized, managed), before), away + back)
  {
    var s := Run(Initial(serialized, managed), before);
    SoundForever(Initial(serialized, managed), before);
    LaunchableHasNoClaimant(s);
    Runs.RunAppend(Act, Initial(serialized, managed), before, away);
    Runs.RunAppend(Act, Initial(serialized, managed), before + away, back);
    QuietParts(s, away, back);
    if !SomePopenRaises(s, away) {
      QuietRunReopensNothing(s, away);
      if !SomePopenRaises(Run(s, away), back) { QuietRunReopensNothing(Run(s, away), back); }
    }
  }

  predicate Reopens(s: State, a: Action) {
    !Launchable(s.disk.claim.phase) && Launchable(Act(s, a).disk.claim.phase)
  }

  function CountReopens(s: State, schedule: seq<Action>): nat
    decreases |schedule|
  {
    if schedule == [] then 0
    else (if Reopens(s, schedule[0]) then 1 else 0) + CountReopens(Act(s, schedule[0]), schedule[1..])
  }

  function CountRaises(s: State, schedule: seq<Action>): nat
    decreases |schedule|
  {
    if schedule == [] then 0
    else (if PopenRaises(s, schedule[0]) then 1 else 0) + CountRaises(Act(s, schedule[0]), schedule[1..])
  }

  // A raise is pending while a call has learned of it and not yet settled the claim.
  ghost function Pending(s: State): nat {
    if NoneFailing(s) then 0 else 1
  }

  lemma ReopenSpendsRaise(s: State, a: Action)
    requires Sound(s)
    ensures (if Reopens(s, a) then 1 else 0) + Pending(Act(s, a)) <= (if PopenRaises(s, a) then 1 else 0) + Pending(s)
  {
    if a.Advance? && a.call in s.runners {
      assert RunnerSound(s.disk, s.runners[a.call]);
      if s.runners[a.call].Failing? {
        assert NoneFailing(Act(s, a));
      } else {
        StepReopens(s.disk, s.runners[a.call], a.weather);
      }
    }
  }

  lemma {:induction false} ReopensAreCovered(s: State, schedule: seq<Action>)
    requires Sound(s)
    ensures CountReopens(s, schedule) <= CountRaises(s, schedule) + Pending(s)
    decreases |schedule|
  {
    if schedule == [] {
    } else {
      ReopenSpendsRaise(s, schedule[0]);
      ActKeepsSound(s, schedule[0]);
      ReopensAreCovered(Act(s, schedule[0]), schedule[1..]);
    }
  }

  // No run reopens a claim more often than Popen raised OSError in it.
  lemma EachReopeningHasItsRaise(serialized: bool, managed: bool, schedule: seq<Action>)
    ensures CountReopens(Initial(serialized, managed), schedule) <= CountRaises(Initial(serialized, managed), schedule)
  {
    ReopensAreCovered(Initial(serialized, managed), schedule);
  }

  // ---------------------------------------------------------------------------------------
  // Claim, record and private claim file stay consistent
  // ---------------------------------------------------------------------------------------

  // A call that holds the lease, or would hold it on a managed host.
  predicate Leased(pc: Runner) {
    || pc.Checking? || pc.Writing? || pc.Loading? || pc.Sealing? || pc.Marking? || pc.Arming?
    || pc.Armed? || pc.Failing? || pc.Doubting? || pc.Returning? || pc.Releasing?
  }

  // The next call that gets past the lease passes every check of the path it will take, and a child
  // carries the nonce of the launch record.
  predicate Consistent(d: Disk) {
    && (d.claim.phase == Prepared || d.claim.phase == SpawnFailed ==> RecoveryAdmitted(d))
    && (d.claim.phase == Reserved ==> d.claim.contacted == None && d.claim.seal == None)
    && (d.claim.phase == Reserved && d.record.Some? ==>
          d.record.value.pid == None && (d.sealFile.None? || d.sealFile.value == RecordSeal(d.record.value)))
    && (d.record.None? ==> d.claim.phase == Reserved && d.sealFile.None?)
    && (d.children != [] ==> d.record.Some? && d.children[0] == d.record.value.nonce)
  }

  function RecordSeal(record: Record): Seal {
    Seal(record.nonce, record.bundle)
  }

  // What RecoveryAdmitted needs apart from the phase and the contact flag.
  predicate Finishable(d: Disk) {
    && d.claim.seal.Some? && d.record.Some? && d.record.value.pid == None
    && d.claim.seal.value == RecordSeal(d.record.value) && d.sealFile == d.claim.seal
  }

  // What holds between two steps of the one call that is past the lease.
  predicate Fits(d: Disk, pc: Runner) {
    match pc
    case Writing(_, _) => d.claim.phase == Reserved && d.record.None?
    case Sealing(seal) => d.claim.phase == Reserved && d.record.Some? && seal == RecordSeal(d.record.value)
    case Marking(seal) =>
      && d.claim.phase == Reserved && d.record.Some?
      && seal == RecordSeal(d.record.value) && d.sealFile == Some(seal)
    case Arming(from, nonce) =>
      && d.claim.phase == from && from != Reserved && Launchable(from)
      && d.record.Some? && nonce == d.record.value.nonce
    case Armed(nonce) =>
      && d.record.Some? && nonce == d.record.value.nonce
      && (d.claim.phase == LaunchClaimed ==> Finishable(d))
    case Failing => d.claim.phase == LaunchClaimed ==> Finishable(d)
    case _ => true
  }

  // The launch lock admits one call at all; the lease admits one past Leasing.
  ghost predicate Guarded(s: State) {
    && (s.serialized || s.disk.managed)
    && (s.serialized ==> forall r, q :: r in s.runners && q in s.runners ==> r == q)
    && (forall r, q :: r in s.runners && q in s.runners && Leased(s.runners[r]) && Leased(s.runners[q]) ==> r == q)
    && (s.disk.managed ==> forall r :: r in s.runners && Leased(s.runners[r]) ==> s.disk.lease == ByCall)
  }

  ghost predicate Ordered(s: State) {
    && Sound(s) && Guarded(s) && Consistent(s.disk)
    && (forall r :: r in s.runners && Leased(s.runners[r]) ==> Fits(s.disk, s.runners[r]))
  }

  lemma StepFits(d: Disk, pc: Runner, w: Weather)
    requires DiskSound(d) && RunnerSound(d, pc) && Consistent(d) && (Leased(pc) ==> Fits(d, pc))
    ensures Consistent(Step(d, pc, w).disk)
    ensures Step(d, pc, w).next.Some? ==> Fits(Step(d, pc, w).disk, Step(d, pc, w).next.value)
  {}

  // A call before or after the lease leaves the one under it alone.
  lemma OtherFits(d: Disk, pc: Runner, w: Weather, other: Runner)
    requires DiskSound(d) && RunnerSound(d, pc) && RunnerSound(d, other) && Fits(d, other)
    requires !Leased(pc) && Leased(other)
    ensures Fits(Step(d, pc, w).disk, other)
  {}

  lemma ChildFits(d: Disk, pc: Runner)
    requires DiskSound(d) && RunnerSound(d, pc) && Fits(d, pc) && Consistent(d)
    ensures Fits(SealTerminal(d), pc) && Fits(SealFailure(d), pc)
    ensures Consistent(SealTerminal(d)) && Consistent(SealFailure(d))
  {}

  // A step takes the lease only when it is free, and gives it back only from under it.
  lemma StepGuards(d: Disk, pc: Runner, w: Weather)
    ensures var o := Step(d, pc, w);
            && o.disk.managed == d.managed
            && (o.next.Some? && Leased(o.next.value) && !Leased(pc) ==>
                  pc.Leasing? && (d.managed ==> d.lease == Free && o.disk.lease == ByCall))
            && (!Leased(pc) && d.lease == ByCall ==> o.disk.lease == ByCall)
            && (Leased(pc) && o.next.Some? && Leased(o.next.value) ==> o.disk.lease == d.lease)
  {}

  lemma AdvanceKeepsGuarded(s: State, r: nat, w: Weather)
    requires Guarded(s) && r in s.runners
    ensures Guarded(Act(s, Advance(r, w)))
  {
    var t := Act(s, Advance(r, w));
    StepGuards(s.disk, s.runners[r], w);
    forall p, q | p in t.runners && q in t.runners && Leased(t.runners[p]) && Leased(t.runners[q])
      ensures p == q
    {
      if p != r && q != r { assert p in s.runners && q in s.runners; }
    }
  }

  lemma AdvanceKeepsOrdered(s: State, r: nat, w: Weather)
    requires Ordered(s) && r in s.runners
    ensures Ordered(Act(s, Advance(r, w)))
  {
    ActKeepsSound(s, Advance(r, w));
    AdvanceKeepsGuarded(s, r, w);
    assert RunnerSound(s.disk, s.runners[r]);
    StepFits(s.disk, s.runners[r], w);
    var t := Act(s, Advance(r, w));
    forall q | q in t.runners && Leased(t.runners[q]) ensures Fits(t.disk, t.runners[q]) {
      if q != r {
        assert RunnerSound(s.disk, s.runners[q]);
        OtherFits(s.disk, s.runners[r], w, s.runners[q]);
      }
    }
  }

  lemma ChildKeepsOrdered(s: State, a: Action)
    requires Ordered(s) && (a.ChildSealsTerminal? || a.ChildSealFails?)
    ensures Ordered(Act(s, a))
  {
    ActKeepsSound(s, a);
    var t := Act(s, a);
    forall r | r in t.runners && Leased(t.runners[r]) ensures Fits(t.disk, t.runners[r]) {
      assert RunnerSound(s.disk, s.runners[r]);
      ChildFits(s.disk, s.runners[r]);
    }
  }

  lemma EnterKeepsOrdered(s: State, r: nat)
    requires Ordered(s)
    ensures Ordered(Act(s, Enter(r)))
  {
    ActKeepsSound(s, Enter(r));
    assert forall q :: q in Act(s, Enter(r)).runners && Leased(Act(s, Enter(r)).runners[q]) ==> q in s.runners;
  }

  lemma CrashKeepsOrdered(s: State, r: nat)
    requires Ordered(s)
    ensures Ordered(Act(s, Crash(r)))
  {
    ActKeepsSound(s, Crash(r));
  }

  // A child's result, and the lease of another launcher, concern no check of a call.
  lemma SameClaimFits(d: Disk, e: Disk, pc: Runner)
    requires e == d.(result := e.result, lease := e.lease)
    ensures Fits(d, pc) ==> Fits(e, pc)
    ensures Consistent(d) ==> Consistent(e)
  {}

  lemma OutsideKeepsOrdered(s: State, a: Action)
    requires Ordered(s) && (a.ChildWritesResult? || a.OtherTakesLease? || a.OtherGivesBack?)
    ensures Ordered(Act(s, a))
  {
    ActKeepsSound(s, a);
    var t := Act(s, a);
    SameClaimFits(s.disk, t.disk, Returning);
    forall r | r in t.runners && Leased(t.runners[r]) ensures Fits(t.disk, t.runners[r]) {
      SameClaimFits(s.disk, t.disk, s.runners[r]);
    }
  }

  lemma ActKeepsOrdered(s: State, a: Action)
    requires Ordered(s)
    ensures Ordered(Act(s, a))
  {
    match a
    case Enter(r) => EnterKeepsOrdered(s, r);
    case Advance(r, w) => if r in s.runners { AdvanceKeepsOrdered(s, r, w); }
    case Crash(r) => CrashKeepsOrdered(s, r);
    case ChildSealsTerminal => ChildKeepsOrdered(s, a);
    case ChildSealFails => ChildKeepsOrdered(s, a);
    case _ => OutsideKeepsOrdered(s, a);
  }

  lemma OrderedForever(s: State, schedule: seq<Action>)
    requires Ordered(s)
    ensures Ordered(Run(s, schedule))
  {
    forall t, a | Ordered(t) ensures Ordered(Act(t, a)) { ActKeepsOrdered(t, a); }
    Runs.Invariant(Act, Ordered, s, schedule);
  }

  // ---------------------------------------------------------------------------------------
  // A lone call
  // ---------------------------------------------------------------------------------------

  function Again(a: Action, n: nat): seq<Action> {
    if n == 0 then [] else [a] + Again(a, n - 1)
  }

  lemma Advanced(s: State, r: nat, w: Weather, n: nat, pc: Runner)
    requires s.runners == map[r := pc]
    ensures Run(s, Again(Advance(r, w), n + 1)) ==
            Run(Apply(s, r, Step(s.disk, pc, w)), Again(Advance(r, w), n))
  {
    assert Again(Advance(r, w), n + 1)[1..] == Again(Advance(r, w), n);
    assert s.runners[r] == pc;
  }

  // The disk once a lone call has run from pc until it returned.
  function Finish(d: Disk, pc: Runner, w: Weather, n: nat): Option<Disk>
    decreases n
  {
    var o := Step(d, pc, w);
    if o.next.None? then Some(o.disk) else if n == 0 then None else Finish(o.disk, o.next.value, w, n - 1)
  }

  lemma {:induction false} IdleRun(s: State, r: nat, w: Weather, n: nat)
    requires s.runners == map[]
    ensures Run(s, Again(Advance(r, w), n)) == s
  {
    if n == 0 {
    } else {
      assert Again(Advance(r, w), n)[1..] == Again(Advance(r, w), n - 1);
      IdleRun(s, r, w, n - 1);
    }
  }

  lemma {:induction false} LoneRun(s: State, r: nat, pc: Runner, w: Weather, n: nat)
    requires s.runners == map[r := pc] && Finish(s.disk, pc, w, n).Some?
    ensures Run(s, Again(Advance(r, w), n + 1)) == State(Finish(s.disk, pc, w, n).value, map[], s.serialized)
    decreases n
  {
    var o := Step(s.disk, pc, w);
    var t := Apply(s, r, o);
    Advanced(s, r, w, n, pc);
    if o.next.None? {
      assert t.runners == map[];
      IdleRun(t, r, w, n);
    } else {
      assert t.runners == map[r := o.next.value];
      LoneRun(t, r, o.next.value, w, n - 1);
    }
  }

  // No write fails, and the lease can be unlinked afterwards.
  predicate Calm(w: Weather) {
    !w.fails && !w.stuck
  }

  // How a call ends that handed this nonce to Popen.  A relaunch forgets that an earlier launch made
  // no contact.
  predicate Ended(d: Disk, nonce: nat, popen: PopenFate, e: Disk) {
    && e.lease == (if d.managed then Free else d.lease) && e.result == d.result
    && (!popen.RaisedOsError? ==> e.claim.contacted == if d.claim.phase == SpawnFailed then None else d.claim.contacted)
    && e.record.Some? && e.record.value.nonce == nonce
    && match popen
       case Started(pid) =>
         && e.claim.phase == Spawned && e.claim.pid == Some(pid) && e.record.value.pid == Some(pid)
         && e.children == d.children + [nonce]
       case RaisedOsError =>
         e.claim.phase == SpawnFailed && e.claim.contacted == Some(false) && e.children == d.children
       case Interrupted(born) =>
         e.claim.phase == Indeterminate && e.children == d.children + if born then [nonce] else []
  }

  predicate EndsWell(d: Disk, nonce: nat, popen: PopenFate, f: Option<Disk>) {
    f.Some? && Ended(d, nonce, popen, f.value)
  }

  lemma OneStep(d: Disk, pc: Runner, w: Weather, n: nat, e: Disk, next: Runner)
    requires Step(d, pc, w) == Goto(e, next) && n > 0
    ensures Finish(d, pc, w, n) == Finish(e, next, w, n - 1)
  {}

  lemma ReleasedFinishes(d: Disk, pid: nat, w: Weather, n: nat)
    requires d.claim.phase == LaunchClaimed && d.record.Some? && Calm(w) && n >= 2
    ensures var f := Finish(d, Releasing(pid), w, n);
            && f.Some? && f.value.claim.phase == Spawned && f.value.claim.pid == Some(pid)
            && f.value.record == Some(d.record.value.(pid := Some(pid)))
            && f.value.children == d.children && f.value.result == d.result
            && f.value.claim.contacted == d.claim.contacted
            && f.value.lease == if d.managed then Free else d.lease
  {
    var e := GiveBack(d, false);
    var f := StampPid(e, pid, false).disk;
    OneStep(d, Releasing(pid), w, n, e, Stamping(pid));
    OneStep(e, Stamping(pid), w, n - 1, f, Confirming(pid));
    assert Finish(f, Confirming(pid), w, n - 2).Some?;
  }

  lemma ArmedFinishes(d: Disk, nonce: nat, w: Weather, n: nat)
    requires d.claim.phase == LaunchClaimed && d.record.Some? && d.record.value.nonce == nonce
    requires Calm(w) && n >= 3
    ensures EndsWell(d, nonce, w.popen, Finish(d, Armed(nonce), w, n))
  {
    match w.popen
    case Started(pid) =>
      var e := d.(children := d.children + [nonce]);
      OneStep(d, Armed(nonce), w, n, e, Releasing(pid));
      ReleasedFinishes(e, pid, w, n - 1);
    case RaisedOsError =>
      var e := Settle(d, false, SpawnFailed, Some(false), d.claim.pid);
      OneStep(d, Armed(nonce), w, n, d, Failing);
      OneStep(d, Failing, w, n - 1, e, Returning);
    case Interrupted(born) =>
      var e := if born then d.(children := d.children + [nonce]) else d;
      var f := Settle(e, false, Indeterminate, e.claim.contacted, e.claim.pid);
      OneStep(d, Armed(nonce), w, n, e, Doubting);
      OneStep(e, Doubting, w, n - 1, f, Returning);
  }

  lemma ArmingFinishes(d: Disk, from: Phase, nonce: nat, w: Weather, n: nat)
    requires d.claim.phase == from && (from == Prepared || from == SpawnFailed)
    requires d.record.Some? && d.record.value.nonce == nonce && Calm(w) && n >= 4
    ensures EndsWell(d, nonce, w.popen, Finish(d, Arming(from, nonce), w, n))
  {
    var e := ClaimLaunch(d, from, nonce).disk;
    OneStep(d, Arming(from, nonce), w, n, e, Armed(nonce));
    ArmedFinishes(e, nonce, w, n - 1);
  }

  // A refusal creates no child, and does not count as a launch.
  lemma RefusalFinishes(d: Disk, pc: Runner, w: Weather, n: nat)
    requires Step(d, pc, w) == Refuse(d) && n > 0
    ensures Finish(d, pc, w, n) == Some(GiveBack(d, w.stuck))
  {
    OneStep(d, pc, w, n, d, Returning);
  }

  // The private claim file is absent or already binds the record.
  predicate Sealable(d: Disk, seal: Seal) {
    d.sealFile == None || d.sealFile == Some(seal)
  }

  lemma SealingFinishes(d: Disk, seal: Seal, w: Weather, n: nat)
    requires d.record.Some? && seal == Seal(d.record.value.nonce, d.record.value.bundle)
    requires d.claim.phase == Reserved && Calm(w) && n >= 6
    ensures var f := Finish(d, Sealing(seal), w, n);
            if Sealable(d, seal) then EndsWell(d, seal.nonce, w.popen, f) else f == Some(GiveBack(d, w.stuck))
  {
    if Sealable(d, seal) {
      var e := SealClaim(d, seal).disk;
      var f := MarkPrepared(e, seal).disk;
      OneStep(d, Sealing(seal), w, n, e, Marking(seal));
      OneStep(e, Marking(seal), w, n - 1, f, Arming(Prepared, seal.nonce));
      ArmingFinishes(f, Prepared, seal.nonce, w, n - 2);
    } else {
      RefusalFinishes(d, Sealing(seal), w, n);
    }
  }

  // What the files must be for a call to launch: without a record, no foreign private claim; with
  // one, no pid in it, and either nothing sealed yet or claim, private file and record in agreement
  // and the contact flag of the phase.
  predicate Launches(d: Disk, drawn: Seal) {
    if d.claim.phase == Reserved && d.record.None? then Sealable(d, drawn)
    else
      && d.record.Some? && d.record.value.pid == None
      && var seal := Seal(d.record.value.nonce, d.record.value.bundle);
         match d.claim.phase
         case Reserved => d.claim.contacted == None && d.claim.seal == None && Sealable(d, seal)
         case Prepared => d.claim.contacted == None && d.claim.seal == Some(seal) && d.sealFile == Some(seal)
         case SpawnFailed =>
           d.claim.contacted == Some(false) && d.claim.seal == Some(seal) && d.sealFile == Some(seal)
         case _ => false
  }

  function NonceUsed(d: Disk, drawn: Seal): nat {
    if d.record.Some? then d.record.value.nonce else drawn.nonce
  }

  // Past the lease, the path that was chosen for the claim as it is runs to its end.
  lemma LeasedFinishes(d: Disk, w: Weather, n: nat)
    requires Launchable(d.claim.phase) && Calm(w) && n >= 8
    ensures var f, drawn := Finish(d, Begin(PathOf(d)), w, n), Seal(w.nonce, w.bundle);
            if Launches(d, drawn) then EndsWell(d, NonceUsed(d, drawn), w.popen, f)
            else
              && f.Some? && f.value.children == d.children && f.value.claim == d.claim
              && f.value.lease == if d.managed then Free else d.lease
  {
    if d.claim.phase != Reserved {
      if Launches(d, Seal(w.nonce, w.bundle)) {
        OneStep(d, Loading(true), w, n, d, Arming(d.claim.phase, d.record.value.nonce));
        ArmingFinishes(d, d.claim.phase, d.record.value.nonce, w, n - 1);
      } else {
        RefusalFinishes(d, Loading(true), w, n);
      }
    } else if d.record.Some? {
      if PreparationAdmitted(d) {
        var seal := RecordSeal(d.record.value);
        OneStep(d, Loading(false), w, n, d, Sealing(seal));
        SealingFinishes(d, seal, w, n - 1);
      } else {
        RefusalFinishes(d, Loading(false), w, n);
      }
    } else {
      var e := d.(record := Some(Record(w.nonce, w.bundle, None)));
      OneStep(d, Checking, w, n, d, Writing(w.nonce, w.bundle));
      OneStep(d, Writing(w.nonce, w.bundle), w, n - 1, e, Sealing(Seal(w.nonce, w.bundle)));
      SealingFinishes(e, Seal(w.nonce, w.bundle), w, n - 2);
    }
  }

  function PathOf(d: Disk): Path {
    if d.claim.phase != Reserved then Recover else if d.record.Some? then Continue else Fresh
  }

  // The lease is not in the way of another call.
  predicate LeaseAdmits(d: Disk) {
    !d.managed || d.lease == Free
  }

  lemma LookedFinishes(d: Disk, w: Weather)
    requires Launchable(d.claim.phase) && Calm(w) && LeaseAdmits(d)
    ensures var f, drawn := Finish(d, Looked(d.claim.phase), w, 10), Seal(w.nonce, w.bundle);
            if Launches(d, drawn) then EndsWell(d, NonceUsed(d, drawn), w.popen, f)
            else f.Some? && f.value.children == d.children && f.value.claim == d.claim && f.value.lease == d.lease
  {
    var e := if d.managed then d.(lease := ByCall) else d;
    OneStep(d, Looked(d.claim.phase), w, 10, d, Leasing(PathOf(d)));
    OneStep(d, Leasing(PathOf(d)), w, 9, e, Begin(PathOf(d)));
    LeasedFinishes(e, w, 8);
    assert Launches(e, Seal(w.nonce, w.bundle)) <==> Launches(d, Seal(w.nonce, w.bundle));
  }

  // A call that meets a taken lease waits or gives up, and does nothing else.
  lemma {:induction false} WaitsInVain(s: State, r: nat, path: Path, w: Weather, n: nat)
    requires s.runners == map[r := Leasing(path)] && !LeaseAdmits(s.disk)
    ensures Run(s, Again(Advance(r, w), n)).disk == s.disk
  {
    if n == 0 {
    } else {
      Advanced(s, r, w, n - 1, Leasing(path));
      if w.waits && !w.fails {
        assert s.runners[r := Leasing(path)] == s.runners;
        WaitsInVain(s, r, path, w, n - 1);
      } else {
        var t := Apply(s, r, Leave(s.disk));
        assert t.runners == map[];
        IdleRun(t, r, w, n - 1);
      }
    }
  }

  function Whole(r: nat, w: Weather): seq<Action> {
    [Enter(r)] + Again(Advance(r, w), 11)
  }

  lemma EnteredAlone(s: State, r: nat, w: Weather)
    requires s.runners == map[]
    ensures var t := s.(runners := map[r := Looked(s.disk.claim.phase)]);
            Run(s, Whole(r, w)) == Run(t, Again(Advance(r, w), 11))
  {
    assert Whole(r, w)[1..] == Again(Advance(r, w), 11);
    assert s.runners[r := Looked(s.disk.claim.phase)] == map[r := Looked(s.disk.claim.phase)];
  }

  lemma BlockedAlone(s: State, r: nat, w: Weather)
    requires s.runners == map[] && Launchable(s.disk.claim.phase) && !LeaseAdmits(s.disk)
    ensures Run(s, Whole(r, w)).disk == s.disk
  {
    var pc := Looked(s.disk.claim.phase);
    var t := s.(runners := map[r := pc]);
    EnteredAlone(s, r, w);
    Advanced(t, r, w, 10, pc);
    var u := Apply(t, r, Step(s.disk, pc, w));
    assert u.runners == map[r := Leasing(PathOf(s.disk))];
    WaitsInVain(u, r, PathOf(s.disk), w, 10);
  }

  // Whatever the files have become: one call that no write fails and that is alone launches a
  // launchable claim if and only if the lease is free and record, claim and private file are in
  // order; it then ends as Popen did, with the lease given back, and otherwise no child is created.
  lemma LoneCallLaunchesIff(s: State, r: nat, w: Weather)
    requires s.runners == map[] && Launchable(s.disk.claim.phase) && Calm(w)
    ensures var t, drawn := Run(s, Whole(r, w)), Seal(w.nonce, w.bundle);
            if (!s.disk.managed || s.disk.lease == Free) && Launches(s.disk, drawn) then
              t.runners == map[] && Ended(s.disk, NonceUsed(s.disk, drawn), w.popen, t.disk)
            else
              && t.disk.children == s.disk.children && t.disk.claim == s.disk.claim
              && t.disk.lease == s.disk.lease
  {
    if LeaseAdmits(s.disk) {
      var pc := Looked(s.disk.claim.phase);
      EnteredAlone(s, r, w);
      LookedFinishes(s.disk, w);
      LoneRun(s.(runners := map[r := pc]), r, pc, w, 10);
    } else {
      BlockedAlone(s, r, w);
    }
  }

  // However earlier calls crashed or failed: one undisturbed call under the launch lock turns a
  // launchable claim into exactly one spawned child if and only if the dispatcher is unmanaged or
  // no lease is left; otherwise it changes nothing.
  lemma LaunchableClaimsFinishIff(managed: bool, schedule: seq<Action>, r: nat, w: Weather)
    requires var s := Run(Initial(true, managed), schedule); Launchable(s.disk.claim.phase) && s.runners == map[]
    requires !w.fails && !w.stuck && w.popen.Started?
    ensures var s := Run(Initial(true, managed), schedule);
            var t := Run(s, Whole(r, w));
            && (t.disk.claim.phase == Spawned <==> !managed || s.disk.lease == Free)
            && (t.disk.claim.phase == Spawned ==>
                  && |t.disk.children| == 1 && t.runners == map[] && t.disk.lease == s.disk.lease
                  && t.disk.claim.pid == Some(w.popen.pid))
            && (t.disk.claim.phase != Spawned ==> t.disk == s.disk)
  {
    LaunchEndsAsPopenDid(managed, schedule, r, w);
  }

  // The same for every fate of the Popen call: it was started, and both claim and record name its
  // pid; it raised OSError, and the claim can be launched again; or it was interrupted, and only
  // the operating system knows whether there is a child.
  lemma LaunchEndsAsPopenDid(managed: bool, schedule: seq<Action>, r: nat, w: Weather)
    requires var s := Run(Initial(true, managed), schedule); Launchable(s.disk.claim.phase) && s.runners == map[]
    requires !w.fails && !w.stuck
    ensures var s := Run(Initial(true, managed), schedule);
            var t := Run(s, Whole(r, w));
            if managed && s.disk.lease != Free then t.disk == s.disk
            else
              && t.runners == map[] && t.disk.lease == s.disk.lease
              && match w.popen
                 case Started(pid) =>
                   && t.disk.claim.phase == Spawned && t.disk.claim.pid == Some(pid) && |t.disk.children| == 1
                   && t.disk.record.Some? && t.disk.record.value.pid == Some(pid)
                   && t.disk.claim.contacted == None
                 case RaisedOsError =>
                   t.disk.claim.phase == SpawnFailed && t.disk.claim.contacted == Some(false) && t.disk.children == []
                 case Interrupted(born) =>
                   && t.disk.claim.phase == Indeterminate && |t.disk.children| == (if born then 1 else 0)
                   && t.disk.claim.contacted == None
  {
    OrderedForever(Initial(true, managed), schedule);
    RunKeepsLocks(Initial(true, managed), schedule);
    var s := Run(Initial(true, managed), schedule);
    LoneCallLaunchesIff(s, r, w);
    assert Launches(s.disk, Seal(w.nonce, w.bundle));
    if !LeaseAdmits(s.disk) { BlockedAlone(s, r, w); }
  }

  // ---------------------------------------------------------------------------------------
  // A claim past its launch
  // ---------------------------------------------------------------------------------------

  // One undisturbed call on a claim past its launch, whatever the files have become.  A result that
  // carries the nonce of the record closes it.  Otherwise it is spawned, with the pid of the record,
  // if and only if a pid is recorded, no result is there and the process runs; what was once
  // indeterminate stays so.
  lemma LoneCallClassifies(s: State, r: nat, w: Weather)
    requires s.runners == map[]
    requires s.disk.claim.phase == LaunchClaimed || s.disk.claim.phase == Spawned || s.disk.claim.phase == Indeterminate
    ensures var d, t := s.disk, Run(s, Whole(r, w));
            var told := d.result.Some? && d.record.Some? && d.result.value == d.record.value.nonce;
            var alive := d.result.None? && d.record.Some? && d.record.value.pid.Some? && w.running;
            && t.runners == map[] && t.disk.(claim := d.claim) == d
            && t.disk.claim.phase == (if told then Terminal
                                      else if alive && d.claim.phase != Indeterminate then Spawned
                                      else Indeterminate)
            && t.disk.claim.pid == (if alive && d.claim.phase == LaunchClaimed then d.record.value.pid else d.claim.pid)
            && t.disk.claim.contacted == d.claim.contacted && t.disk.claim.seal == d.claim.seal
  {
    var pc := Looked(s.disk.claim.phase);
    EnteredAlone(s, r, w);
    var o := Step(s.disk, pc, w);
    if o.next.Some? { OneStep(s.disk, pc, w, 10, o.disk, o.next.value); }
    LoneRun(s.(runners := map[r := pc]), r, pc, w, 10);
  }

  // On every run under the launch lock or the lease, the result of a child is authentic: the child
  // itself closes the claim with it, or leaves it in doubt when that fails, and after a lost child a
  // later call closes it.
  lemma ResultClosesClaim(serialized: bool, managed: bool, schedule: seq<Action>, r: nat, w: Weather)
    requires serialized || managed
    requires Run(Initial(serialized, managed), schedule).disk.children != []
    ensures var s := Run(Initial(serialized, managed), schedule);
            && Run(s, [ChildWritesResult(0), ChildSealsTerminal]).disk.claim.phase == Terminal
            && (s.disk.claim.phase != Terminal ==>
                  Run(s, [ChildWritesResult(0), ChildSealFails]).disk.claim.phase == Indeterminate)
            && (s.runners == map[] ==> Run(s, [ChildWritesResult(0)] + Whole(r, w)).disk.claim.phase == Terminal)
  {
    OrderedForever(Initial(serialized, managed), schedule);
    var s := Run(Initial(serialized, managed), schedule);
    var t := Act(s, ChildWritesResult(0));
    assert !Launchable(s.disk.claim.phase) && Trusted(t.disk);
    Runs.RunsThrough(Act, s, [ChildWritesResult(0), ChildSealsTerminal], [s, t, Act(t, ChildSealsTerminal)]);
    Runs.RunsThrough(Act, s, [ChildWritesResult(0), ChildSealFails], [s, t, Act(t, ChildSealFails)]);
    if s.runners == map[] {
      assert ([ChildWritesResult(0)] + Whole(r, w))[1..] == Whole(r, w);
      if s.disk.claim.phase == Terminal { ClosedStays(t, r, w); } else { LoneCallClassifies(t, r, w); }
    }
  }

  lemma ClosedStays(s: State, r: nat, w: Weather)
    requires s.runners == map[] && s.disk.claim.phase == Terminal
    ensures Run(s, Whole(r, w)) == s
  {
    EnteredAlone(s, r, w);
    LoneRun(s.(runners := map[r := Looked(Terminal)]), r, Looked(Terminal), w, 10);
  }

  lemma {:induction false} RunKeepsLocks(s: State, schedule: seq<Action>)
    ensures Run(s, schedule).serialized == s.serialized && Run(s, schedule).disk.managed == s.disk.managed
    decreases |schedule|
  {
    if schedule == [] {
    } else {
      var a := schedule[0];
      if a.Advance? && a.call in s.runners { StepGuards(s.disk, s.runners[a.call], a.weather); }
      RunKeepsLocks(Act(s, a), schedule[1..]);
    }
  }

  // A hook bridge that refuses after the launch was claimed leaves the claim there, creates no child
  // and gives the lease back; since no pid was recorded, the next call puts the claim in doubt.
  lemma HookRefusalLeavesDoubt(s: State, r: nat, nonce: nat, w: Weather, v: Weather)
    requires s.runners == map[r := Armed(nonce)] && w.fails && !v.stuck
    requires s.disk.claim.phase == LaunchClaimed && !Trusted(s.disk)
    requires s.disk.record.Some? && s.disk.record.value.pid == None
    ensures var t := Run(s, [Advance(r, w), Advance(r, v)]);
            && t.runners == map[]
            && t.disk == s.disk.(lease := if s.disk.managed then Free else s.disk.lease)
            && Run(t, Whole(r, v)).disk == t.disk.(claim := t.disk.claim.(phase := Indeterminate))
  {
    var t1 := Act(s, Advance(r, w));
    assert t1.runners == map[r := Returning];
    var t2 := Act(t1, Advance(r, v));
    assert t2.runners == map[];
    Runs.RunsThrough(Act, s, [Advance(r, w), Advance(r, v)], [s, t1, t2]);
    LoneCallClassifies(t2, r, v);
  }

  // However a call ends that was past the lease, by refusing, raising or launching, it gives the
  // lease back unless it cannot be unlinked.
  lemma EndGivesLeaseBack(s: State, r: nat, w: Weather)
    requires r in s.runners && Leased(s.runners[r])
    ensures var t := Act(s, Advance(r, w));
            s.disk.managed && (r !in t.runners || !Leased(t.runners[r])) ==>
              t.disk.lease == if w.stuck then s.disk.lease else Free
  {}

  // A call that meets a lease waits or gives up; one that fails to write its own leaves it only if it
  // cannot be unlinked again.
  lemma LeaseIsAwaited(s: State, r: nat, path: Path, w: Weather)
    requires r in s.runners && s.runners[r] == Leasing(path) && s.disk.managed
    ensures var t := Act(s, Advance(r, w));
            && (s.disk.lease != Free && w.waits && !w.fails ==> t == s)
            && (s.disk.lease != Free && (w.fails || !w.waits) ==> t == s.(runners := s.runners - {r}))
            && (s.disk.lease == Free && w.fails ==>
                  t == s.(runners := s.runners - {r}, disk := s.disk.(lease := if w.stuck then ByCall else Free)))
  {
    assert s.runners[r := Leasing(path)] == s.runners;
  }

  // Preparing is idempotent: a call that finds its claim prepared with its own seal goes on.
  lemma PreparedAgainLaunches(d: Disk, seal: Seal, w: Weather)
    requires d.claim.phase == Prepared && d.claim.seal == Some(seal)
    requires d.record.Some? && d.record.value.nonce == seal.nonce && Calm(w)
    ensures EndsWell(d, seal.nonce, w.popen, Finish(d, Marking(seal), w, 5))
  {
    OneStep(d, Marking(seal), w, 5, d, Arming(Prepared, seal.nonce));
    ArmingFinishes(d, Prepared, seal.nonce, w, 4);
  }

  // Another launcher of the host holds a claim up as long as it has the lease, and no longer.
  lemma OtherHoldsUp(r: nat, w: Weather)
    requires Calm(w) && w.popen.Started?
    ensures var s := Run(Initial(true, true), [OtherTakesLease]);
            && Run(s, Whole(r, w)).disk == s.disk && s.disk.lease == ByOther && s.disk.claim.phase == Reserved
            && Run(Run(s, [OtherGivesBack]), Whole(r, w)).disk.claim.phase == Spawned
  {
    var i := Initial(true, true);
    var s := Act(i, OtherTakesLease);
    Runs.RunsThrough(Act, i, [OtherTakesLease], [i, s]);
    BlockedAlone(s, r, w);
    var t := Act(s, OtherGivesBack);
    Runs.RunsThrough(Act, s, [OtherGivesBack], [s, t]);
    LoneCallLaunchesIff(t, r, w);
  }

  // ---------------------------------------------------------------------------------------
  // The phases of a claim
  // ---------------------------------------------------------------------------------------

  // The transitions of parent_phase.
  predicate Moves(p: Phase, q: Phase) {
    match p
    case Reserved => q == Prepared
    case Prepared => q == LaunchClaimed
    case SpawnFailed => q == LaunchClaimed
    case LaunchClaimed => q == Spawned || q == SpawnFailed || q == Indeterminate || q == Terminal
    case Spawned => q == Indeterminate || q == Terminal
    case Indeterminate => q == Terminal
    case Terminal => false
  }

  lemma StepMoves(d: Disk, pc: Runner, w: Weather)
    requires DiskSound(d) && RunnerSound(d, pc)
    ensures var e := Step(d, pc, w).disk;
            e.claim.phase == d.claim.phase || Moves(d.claim.phase, e.claim.phase)
  {}

  // Whatever calls, crashes and children do, a claim moves along its table, one arrow an action.
  lemma ClaimMoves(serialized: bool, managed: bool, schedule: seq<Action>, a: Action)
    ensures var s := Run(Initial(serialized, managed), schedule);
            var p, q := s.disk.claim.phase, Act(s, a).disk.claim.phase;
            p == q || Moves(p, q)
  {
    SoundForever(Initial(serialized, managed), schedule);
    var s := Run(Initial(serialized, managed), schedule);
    if a.Advance? && a.call in s.runners {
      assert RunnerSound(s.disk, s.runners[a.call]);
      StepMoves(s.disk, s.runners[a.call], a.weather);
    }
  }

  // Once terminal, always terminal.
  lemma {:induction false} TerminalForever(serialized: bool, managed: bool, schedule: seq<Action>, later: seq<Action>)
    requires Run(Initial(serialized, managed), schedule).disk.claim.phase == Terminal
    ensures Run(Initial(serialized, managed), schedule + later).disk.claim.phase == Terminal
    decreases |later|
  {
    if later == [] {
      assert schedule + later == schedule;
    } else {
      ClaimMoves(serialized, managed, schedule, later[0]);
      var s := Run(Initial(serialized, managed), schedule);
      Runs.RunAppend(Act, Initial(serialized, managed), schedule, [later[0]]);
      Runs.RunsThrough(Act, s, [later[0]], [s, Act(s, later[0])]);
      assert schedule + later == schedule + [later[0]] + later[1..];
      TerminalForever(serialized, managed, schedule + [later[0]], later[1..]);
    }
  }

  // ---------------------------------------------------------------------------------------
  // A lease that a dead call left
  // ---------------------------------------------------------------------------------------

  // The lease was made by a call that no longer runs.
  ghost predicate Abandoned(s: State) {
    s.disk.managed && s.disk.lease == ByCall && forall r :: r in s.runners ==> !Leased(s.runners[r])
  }

  ghost predicate Stuck(s: State, phase: Phase) {
    Sound(s) && Abandoned(s) && Launchable(phase) && s.disk.claim.phase == phase
  }

  lemma StepIsStuck(d: Disk, pc: Runner, w: Weather)
    requires DiskSound(d) && RunnerSound(d, pc) && Launchable(d.claim.phase)
    requires d.managed && d.lease == ByCall && !Leased(pc)
    ensures Step(d, pc, w).disk.claim.phase == d.claim.phase
    ensures Step(d, pc, w).next.Some? ==> !Leased(Step(d, pc, w).next.value)
  {}

  lemma ActKeepsStuck(s: State, a: Action, phase: Phase)
    requires Stuck(s, phase)
    ensures Stuck(Act(s, a), phase)
  {
    ActKeepsSound(s, a);
    if a.Advance? && a.call in s.runners {
      assert RunnerSound(s.disk, s.runners[a.call]);
      StepGuards(s.disk, s.runners[a.call], a.weather);
      StepIsStuck(s.disk, s.runners[a.call], a.weather);
    }
  }

  lemma StuckForever(s: State, schedule: seq<Action>, phase: Phase)
    requires Stuck(s, phase)
    ensures Stuck(Run(s, schedule), phase)
  {
    forall t, a | Stuck(t, phase) ensures Stuck(Act(t, a), phase) { ActKeepsStuck(t, a, phase); }
    Runs.Invariant(Act, t => Stuck(t, phase), s, schedule);
  }

  const SHORT := Weather(false, false, 0, 0, RaisedOsError, false, false)

  // A call that dies under the lease of a managed host ends the claim: no schedule changes its
  // phase again, and every other launch of the host finds the lease taken.
  lemma LeaseLeftForever(serialized: bool) returns (schedule: seq<Action>)
    ensures var s := Run(Initial(serialized, true), schedule);
            && s.runners == map[] && s.disk.claim.phase == Reserved && s.disk.lease == ByCall
            && forall later :: Run(s, later).disk.claim.phase == Reserved && Run(s, later).disk.lease == ByCall
  {
    var s0 := Initial(serialized, true);
    var s1 := Act(s0, Enter(0));
    var s2 := Act(s1, Advance(0, SHORT));
    var s3 := Act(s2, Advance(0, SHORT));
    var s4 := Act(s3, Crash(0));
    assert s4.runners == map[];
    schedule := [Enter(0), Advance(0, SHORT), Advance(0, SHORT), Crash(0)];
    Runs.RunsThrough(Act, s0, schedule, [s0, s1, s2, s3, s4]);
    forall later ensures Run(s4, later).disk.claim.phase == Reserved && Run(s4, later).disk.lease == ByCall {
      StuckForever(s4, later, Reserved);
    }
  }

  const CALM := Weather(false, false, 0, 0, Started(0), false, false)

  // Once every call is gone, some later schedule still finishes a launchable claim if and only if
  // the lease was not left by a call; one that another launcher holds may yet be given back.
  lemma StillFinishableIff(managed: bool, schedule: seq<Action>)
    requires var s := Run(Initial(true, managed), schedule); Launchable(s.disk.claim.phase) && s.runners == map[]
    ensures var s := Run(Initial(true, managed), schedule);
            (exists later :: Run(s, later).disk.claim.phase == Spawned) <==> !managed || s.disk.lease != ByCall
  {
    var i := Initial(true, managed);
    var s := Run(i, schedule);
    SoundForever(i, schedule);
    RunKeepsLocks(i, schedule);
    if managed && s.disk.lease == ByCall {
      forall later ensures Run(s, later).disk.claim.phase != Spawned { StuckForever(s, later, s.disk.claim.phase); }
    } else {
      var free := [OtherGivesBack];
      Runs.RunAppend(Act, i, schedule, free);
      Runs.RunsThrough(Act, s, free, [s, Act(s, OtherGivesBack)]);
      LaunchableClaimsFinishIff(managed, schedule + free, 0, CALM);
      Runs.RunAppend(Act, s, free, Whole(0, CALM));
      assert Run(s, free + Whole(0, CALM)).disk.claim.phase == Spawned;
    }
  }

  // ---------------------------------------------------------------------------------------
  // What keeps the files consistent
  // ---------------------------------------------------------------------------------------

  // Two calls both find no launch record.
  lemma BothFindNoRecord() returns (schedule: seq<Action>)
    ensures Run(Initial(false, false), schedule) ==
            Initial(false, false).(runners := map[0 := Writing(0, 0), 1 := Writing(1, 0)])
  {
    var other := SHORT.(nonce := 1);
    var s0 := Initial(false, false);
    var s1 := Act(s0, Enter(0));
    var s2 := Act(s1, Advance(0, SHORT));
    var s3 := Act(s2, Advance(0, SHORT));
    var s4 := Act(s3, Advance(0, SHORT));
    assert s4.runners == map[0 := Writing(0, 0)];
    var s5 := Act(s4, Enter(1));
    var s6 := Act(s5, Advance(1, other));
    var s7 := Act(s6, Advance(1, other));
    var s8 := Act(s7, Advance(1, other));
    assert s8.runners == map[0 := Writing(0, 0), 1 := Writing(1, 0)];
    schedule := [Enter(0), Advance(0, SHORT), Advance(0, SHORT), Advance(0, SHORT),
                 Enter(1), Advance(1, other), Advance(1, other), Advance(1, other)];
    Runs.RunsThrough(Act, s0, schedule, [s0, s1, s2, s3, s4, s5, s6, s7, s8]);
  }

  // The slower one then overwrites the record that the faster one has already sealed.
  lemma LostRecord() returns (schedule: seq<Action>)
    ensures !Consistent(Run(Initial(false, false), schedule).disk)
  {
    var early := BothFindNoRecord();
    var s0 := Run(Initial(false, false), early);
    var s1 := Act(s0, Advance(0, SHORT));
    var s2 := Act(s1, Advance(0, SHORT));
    var s3 := Act(s2, Advance(0, SHORT));
    assert s3.disk.claim.phase == Prepared && s3.disk.claim.seal == Some(Seal(0, 0));
    var s4 := Act(s3, Advance(1, SHORT));
    assert s4.disk.record == Some(Record(1, 0, None));
    var late := [Advance(0, SHORT), Advance(0, SHORT), Advance(0, SHORT), Advance(1, SHORT)];
    Runs.RunsThrough(Act, s0, late, [s0, s1, s2, s3, s4]);
    Runs.RunAppend(Act, Initial(false, false), early, late);
    schedule := early + late;
  }

  // Claim, record and private claim file agree on every schedule exactly when calls hold the launch
  // lock or take the lease.
  lemma ConsistentIffGuarded(serialized: bool, managed: bool)
    ensures (forall schedule :: Consistent(Run(Initial(serialized, managed), schedule).disk)) <==> serialized || managed
  {
    if serialized || managed {
      forall schedule ensures Consistent(Run(Initial(serialized, managed), schedule).disk) {
        OrderedForever(Initial(serialized, managed), schedule);
      }
    } else {
      var schedule := LostRecord();
      assert !Consistent(Run(Initial(serialized, managed), schedule).disk);
    }
  }
}

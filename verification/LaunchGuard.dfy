/** The single-use launch guard and its order against revocation.
  *
  * A dispatcher consumes the guard inside an O_EXCL lock file, which nobody ever breaks; for a
  * continuation it also holds the family lock, which the operating system frees on a crash, from
  * its family read to the durable phase change.  Revocations and every other family operation run
  * under the family lock.
  */
module LaunchGuard {
  import opened Wrappers
  import Runs
  import opened Qualification
  import SF = SourceFamily

  const MAX_FRESH_SECONDS := 1800

  datatype Schema = V1 | V2(payload: string)

  datatype Terms = Terms(
    schema: Schema,
    backend: string,
    transport: string,
    attempt: string,
    ownerNonce: string,
    ownerGeneration: int,
    createdAt: int,
    expected: Option<Projection>,
    required: bool,
    qualification: Option<Qualification>,
    familyId: Option<FamilyId>,
    sourceTurn: Option<string>,
    token: Option<string>)               // stands for qualification_token_sha256

  datatype Owner = Owner(nonce: string, generation: int, expires: int)

  // What a dispatcher presents, and the live facts it reads while it checks.
  datatype Request = Request(
    backend: string,
    transport: string,
    attempt: string,
    observation: Option<Observation>,
    observedAt: int,
    payload: Option<string>,
    attemptDigest: Option<string>,
    qualification: Option<Qualification>,
    token: Option<string>,
    owner: Option<Owner>,
    now: int)

  // create and create_v2: a continuation cannot opt out of its qualification.
  function Create(t: Terms): (r: Terms)
    ensures r.required <==> t.required || t.expected.Some?
  {
    t.(required := t.required || t.expected.Some?)
  }

  predicate FenceHolds(t: Terms, q: Request) {
    && t.ownerNonce != "" && t.ownerGeneration >= 1
    && q.owner.Some? && q.owner.value.nonce == t.ownerNonce && q.owner.value.generation == t.ownerGeneration
    && q.now < q.owner.value.expires
  }

  predicate Fresh(t: Terms, q: Request) {
    && q.now - t.createdAt <= MAX_FRESH_SECONDS
    && 0 < q.observedAt <= q.now && q.now - q.observedAt <= MAX_FRESH_SECONDS
  }

  predicate QualificationPresented(t: Terms, q: Request) {
    && t.qualification.Some? && q.qualification == t.qualification
    && t.familyId.Some? && t.sourceTurn.Some? && t.sourceTurn.value != ""
    && q.token.Some? && q.token.value != "" && q.token == t.token
    && q.observation.Some?
    && Valid(t.qualification.value, q.token, Some(q.observation.value.bound), t.familyId, t.sourceTurn, q.now)
  }

  // Every check of _before_launch that precedes the family lock.
  predicate Admitted(t: Terms, q: Request) {
    && q.backend == t.backend && q.transport == t.transport && q.attempt == t.attempt
    && (t.schema.V2? ==> q.payload == Some(t.schema.payload) && q.attemptDigest == Some(q.attempt))
    && FenceHolds(t, q)
    && Fresh(t, q)
    && q.observation.Some?
    && q.observation.value.bound.route.backend == t.backend
    && q.observation.value.bound.route.transport == t.transport
    && (t.expected.Some? ==> t.expected == Some(q.observation.value.bound))
    && (t.required ==> QualificationPresented(t, q))
  }

  datatype Phase = Pending | Observed(projection: Projection)

  datatype Proc =
    | Arriving(request: Request)
    | Inside(request: Request)
    | AwaitingFamily(request: Request, projection: Projection)
    | ReadingFamily(request: Request, projection: Projection)
    | Committing(request: Request, projection: Projection)
    | Unwinding                        // releases the family lock
    | Departing                        // unlinks the guard lock

  // launches lists the requests that were answered by consuming the guard.
  datatype Shared = Shared(
    phase: Phase,
    guardLock: Option<nat>,
    familyLock: Option<nat>,
    store: SF.Store,
    launches: seq<Request>)

  datatype Outcome = Outcome(shared: Shared, next: Option<Proc>)

  function Goto(d: Shared, pc: Proc): Outcome {
    Outcome(d, Some(pc))
  }

  // The family read at the boundary: authentic, of the expected family, and not revoking.
  predicate Unrevoked(t: Terms, store: SF.Store) {
    t.familyId.Some? && t.qualification.Some? &&
    match SF.Read(store, SF.IdOnly(t.familyId.value))
    case Err(_) => false
    case Ok(f) => t.qualification.value.body.revocationId !in f.body.revocations
  }

  function Step(t: Terms, d: Shared, p: nat, pc: Proc, fails: bool): Outcome {
    match pc
    case Arriving(q) =>
      if d.guardLock.None? && !fails then Goto(d.(guardLock := Some(p)), Inside(q)) else Outcome(d, None)
    case Inside(q) =>
      if d.phase.Pending? && Admitted(t, q) then
        var projection := q.observation.value.bound;
        Goto(d, if t.required then AwaitingFamily(q, projection) else Committing(q, projection))
      else Goto(d, Departing)
    case AwaitingFamily(q, projection) =>
      if fails then Goto(d, Departing)
      else if d.familyLock.None? then Goto(d.(familyLock := Some(p)), ReadingFamily(q, projection))
      else Goto(d, pc)
    case ReadingFamily(q, projection) =>
      Goto(d, if Unrevoked(t, d.store) then Committing(q, projection) else Unwinding)
    case Committing(q, projection) =>
      if fails then Goto(d, Unwinding)
      else Goto(d.(phase := Observed(projection), launches := d.launches + [q]), Unwinding)
    case Unwinding => Goto(if d.familyLock == Some(p) then d.(familyLock := None) else d, Departing)
    case Departing => Outcome(if fails then d else d.(guardLock := None), None)
  }

  datatype State = State(terms: Terms, shared: Shared, procs: map<nat, Proc>)

  datatype Action =
    | Call(p: nat, request: Request)
    | Advance(p: nat, fails: bool)
    | Crash(p: nat)
    | FamilyOp(op: SF.Op)

  function Initial(terms: Terms, store: SF.Store): State {
    State(Create(terms), Shared(Pending, None, None, store, []), map[])
  }

  function Apply(s: State, p: nat, o: Outcome): State {
    s.(shared := o.shared, procs := if o.next.Some? then s.procs[p := o.next.value] else s.procs - {p})
  }

  function FreeFamilyLock(d: Shared, p: nat): Shared {
    if d.familyLock == Some(p) then d.(familyLock := None) else d
  }

  // One action; an action that is not enabled changes nothing.
  function Act(s: State, a: Action): State {
    match a
    case Call(p, q) =>
      if p in s.procs || s.shared.guardLock == Some(p) then s else s.(procs := s.procs[p := Arriving(q)])
    case Advance(p, fails) =>
      if p in s.procs then Apply(s, p, Step(s.terms, s.shared, p, s.procs[p], fails)) else s
    case Crash(p) => s.(shared := FreeFamilyLock(s.shared, p), procs := s.procs - {p})
    case FamilyOp(op) =>
      if s.shared.familyLock.None? then s.(shared := s.shared.(store := SF.Do(s.shared.store, op))) else s
  }

  function Run(s: State, schedule: seq<Action>): State {
    Runs.Run(Act, s, schedule)
  }

  // ---------------------------------------------------------------------------------------
  // Invariant
  // ---------------------------------------------------------------------------------------

  predicate ProcSound(t: Terms, d: Shared, p: nat, pc: Proc) {
    && (!pc.Arriving? ==> d.guardLock == Some(p))
    && (pc.AwaitingFamily? || pc.ReadingFamily? || pc.Committing? ==>
          && d.phase.Pending? && Admitted(t, pc.request)
          && pc.projection == pc.request.observation.value.bound)
    && (pc.ReadingFamily? || (pc.Committing? && t.required) ==> d.familyLock == Some(p))
    && (pc.Committing? && t.required ==> Unrevoked(t, d.store))
  }

  predicate Recorded(t: Terms, d: Shared) {
    match d.phase
    case Pending => d.launches == []
    case Observed(projection) =>
      && |d.launches| == 1 && Admitted(t, d.launches[0])
      && projection == d.launches[0].observation.value.bound
  }

  ghost predicate Sound(s: State) {
    && (s.terms.expected.Some? ==> s.terms.required)
    && Recorded(s.terms, s.shared)
    && SF.Linked(s.shared.store)
    && forall p :: p in s.procs ==> ProcSound(s.terms, s.shared, p, s.procs[p])
  }

  // What one step of p leaves for every other call.
  predicate Framed(t: Terms, d: Shared, p: nat, o: Outcome) {
    && Recorded(t, o.shared)
    && o.shared.store == d.store
    && (o.shared.guardLock == d.guardLock || d.guardLock.None? || d.guardLock == Some(p))
    && (o.shared.familyLock == d.familyLock || d.familyLock.None? || d.familyLock == Some(p))
    && (o.shared.phase == d.phase || d.guardLock == Some(p))
    && (o.next.Some? ==> ProcSound(t, o.shared, p, o.next.value))
  }

  lemma StepIsFramed(t: Terms, d: Shared, p: nat, pc: Proc, fails: bool)
    requires ProcSound(t, d, p, pc) && Recorded(t, d)
    ensures Framed(t, d, p, Step(t, d, p, pc, fails))
  {}

  // A call other than p cannot be past Arriving while p holds the guard lock.
  lemma OthersKeepSound(t: Terms, d: Shared, p: nat, pc: Proc, fails: bool, r: nat, other: Proc)
    requires ProcSound(t, d, p, pc) && Framed(t, d, p, Step(t, d, p, pc, fails))
    requires r != p && ProcSound(t, d, r, other)
    ensures ProcSound(t, Step(t, d, p, pc, fails).shared, r, other)
  {
    var e := Step(t, d, p, pc, fails).shared;
    if !other.Arriving? {
      assert e.guardLock == d.guardLock && e.phase == d.phase && e.store == d.store;
      assert e.familyLock == d.familyLock || d.familyLock.None?;
    }
  }

  lemma AdvanceKeepsSound(s: State, p: nat, fails: bool)
    requires Sound(s) && p in s.procs
    ensures Sound(Act(s, Advance(p, fails)))
  {
    assert ProcSound(s.terms, s.shared, p, s.procs[p]);
    StepIsFramed(s.terms, s.shared, p, s.procs[p], fails);
    var t := Act(s, Advance(p, fails));
    forall r | r in t.procs ensures ProcSound(t.terms, t.shared, r, t.procs[r]) {
      if r != p {
        assert ProcSound(s.terms, s.shared, r, s.procs[r]);
        OthersKeepSound(s.terms, s.shared, p, s.procs[p], fails, r, s.procs[r]);
      }
    }
  }

  // Nobody is between the family read and the phase change while the family lock is free.
  lemma StoreMayChange(t: Terms, d: Shared, store: SF.Store, r: nat, pc: Proc)
    requires ProcSound(t, d, r, pc) && d.familyLock.None?
    ensures ProcSound(t, d.(store := store), r, pc)
  {}

  lemma FamilyOpKeepsSound(s: State, op: SF.Op)
    requires Sound(s)
    ensures Sound(Act(s, FamilyOp(op)))
  {
    if s.shared.familyLock.None? {
      SF.DoKeeps(s.shared.store, op);
      var store := SF.Do(s.shared.store, op);
      forall r | r in s.procs ensures ProcSound(s.terms, s.shared.(store := store), r, s.procs[r]) {
        StoreMayChange(s.terms, s.shared, store, r, s.procs[r]);
      }
    }
  }

  lemma CrashKeepsSound(s: State, p: nat)
    requires Sound(s)
    ensures Sound(Act(s, Crash(p)))
  {
    var t := Act(s, Crash(p));
    forall r | r in t.procs ensures ProcSound(t.terms, t.shared, r, t.procs[r]) {
      assert ProcSound(s.terms, s.shared, r, s.procs[r]);
    }
  }

  lemma ActKeepsSound(s: State, a: Action)
    requires Sound(s)
    ensures Sound(Act(s, a))
  {
    match a
    case Advance(p, fails) => if p in s.procs { AdvanceKeepsSound(s, p, fails); }
    case FamilyOp(op) => FamilyOpKeepsSound(s, op);
    case Crash(p) => CrashKeepsSound(s, p);
    case Call(p, q) =>
  }

  lemma SoundForever(s: State, schedule: seq<Action>)
    requires Sound(s)
    ensures Sound(Run(s, schedule))
  {
    forall t, a | Sound(t) ensures Sound(Act(t, a)) { ActKeepsSound(t, a); }
    Runs.Invariant(Act, Sound, s, schedule);
  }

  // ---------------------------------------------------------------------------------------
  // Results
  // ---------------------------------------------------------------------------------------

  // Over every interleaving of calls, crashes and family operations the guard is consumed at most
  // once, and then by a request that presented what the guard was created for.
  lemma ConsumedAtMostOnce(terms: Terms, store: SF.Store, schedule: seq<Action>)
    requires SF.Linked(store)
    ensures var s := Run(Initial(terms, store), schedule);
            && |s.shared.launches| <= 1
            && (s.shared.phase.Observed? <==> |s.shared.launches| == 1)
            && (s.shared.phase.Observed? ==>
                  var q := s.shared.launches[0];
                  && q.backend == terms.backend && q.transport == terms.transport && q.attempt == terms.attempt
                  && (terms.schema.V2? ==> q.payload == Some(terms.schema.payload) && q.attemptDigest == Some(q.attempt))
                  // the run is still owned by the owner that created the guard
                  && q.owner.Some? && q.owner.value.nonce == terms.ownerNonce
                  && q.owner.value.generation == terms.ownerGeneration
                  && terms.ownerNonce != "" && terms.ownerGeneration >= 1 && q.now < q.owner.value.expires
                  // guard and observation are at most half an hour old
                  && q.now <= terms.createdAt + 1800 && 0 < q.observedAt <= q.now <= q.observedAt + 1800
                  && q.observation.Some? && s.shared.phase.projection == q.observation.value.bound
                  && s.shared.phase.projection.route.backend == terms.backend
                  && s.shared.phase.projection.route.transport == terms.transport
                  && (terms.expected.Some? ==> s.shared.phase.projection == terms.expected.value)
                  && (terms.required || terms.expected.Some? ==>
                        QualifiedBy(terms, q, s.shared.phase.projection)))
  {
    SoundForever(Initial(terms, store), schedule);
    RunKeepsTerms(Initial(terms, store), schedule);
    var s := Run(Initial(terms, store), schedule);
    if s.shared.phase.Observed? && s.terms.required { AdmittedPresents(terms, s.shared.launches[0]); }
  }

  // The qualification that the guard carries was presented under the token it names, is unexpired,
  // and qualifies what was observed for the family and turn of the guard.
  predicate QualifiedBy(terms: Terms, q: Request, projection: Projection) {
    && terms.qualification.Some? && q.qualification == terms.qualification
    && var body := terms.qualification.value.body;
    && terms.familyId == Some(body.familyId) && terms.sourceTurn == Some(body.turnId)
    && terms.token.Some? && terms.token.value != "" && q.token == terms.token
    && terms.qualification.value.auth == Mac(terms.token.value, body)
    && q.now < body.expiresAt && body.operation == "chat_resume" && body.status == "qualified"
    && body.route == projection.route && (body.observation == None || body.observation == Some(projection))
  }

  lemma AdmittedPresents(terms: Terms, q: Request)
    requires Admitted(Create(terms), q) && (terms.required || terms.expected.Some?)
    ensures QualifiedBy(terms, q, q.observation.value.bound)
  {
    ValidIsReviewed(terms.qualification.value, q.token, Some(q.observation.value.bound), terms.familyId, terms.sourceTurn, q.now);
  }

  lemma {:induction false} RunKeepsTerms(s: State, schedule: seq<Action>)
    ensures Run(s, schedule).terms == s.terms
    decreases |schedule|
  {
    if schedule == [] {
    } else {
      RunKeepsTerms(Act(s, schedule[0]), schedule[1..]);
    }
  }

  predicate Revoking(t: Terms, store: SF.Store) {
    && t.required && t.qualification.Some?
    && store.family.Some?
    && t.qualification.value.body.revocationId in store.family.value.body.revocations
  }

  lemma UnrevokedMeansNotRevoking(t: Terms, store: SF.Store)
    requires Unrevoked(t, store)
    ensures !Revoking(t, store)
  {}

  // Only a call past its family read changes the phase, and it leaves the family alone.
  lemma ConsumingStep(t: Terms, d: Shared, p: nat, pc: Proc, fails: bool)
    requires ProcSound(t, d, p, pc)
    ensures var e := Step(t, d, p, pc, fails).shared;
            e.store == d.store && (t.required && e.phase != d.phase ==> Unrevoked(t, d.store))
  {}

  // The instant a guard that requires a qualification is consumed, the family on disk is the
  // expected one and does not revoke it: a revocation is either later, or it wins.
  lemma ConsumptionSeesNoRevocation(terms: Terms, store: SF.Store, schedule: seq<Action>, a: Action)
    requires SF.Linked(store)
    ensures var s := Run(Initial(terms, store), schedule);
            s.terms.required && Act(s, a).shared.phase != s.shared.phase
            ==> Unrevoked(s.terms, s.shared.store) && !Revoking(s.terms, s.shared.store)
                && Act(s, a).shared.store == s.shared.store
  {
    SoundForever(Initial(terms, store), schedule);
    var s := Run(Initial(terms, store), schedule);
    if a.Advance? && a.p in s.procs {
      ConsumingStep(s.terms, s.shared, a.p, s.procs[a.p], a.fails);
      if Unrevoked(s.terms, s.shared.store) { UnrevokedMeansNotRevoking(s.terms, s.shared.store); }
    }
  }

  lemma RevokingIsStable(t: Terms, store: SF.Store, op: SF.Op)
    requires SF.Linked(store) && Revoking(t, store)
    ensures Revoking(t, SF.Do(store, op))
  {
    SF.DoKeeps(store, op);
  }

  // Once a revocation is on disk, a pending guard that requires the qualification stays pending.
  lemma {:induction false} RevokedNeverConsumed(s: State, schedule: seq<Action>)
    requires Sound(s) && Revoking(s.terms, s.shared.store) && s.shared.phase.Pending?
    ensures Run(s, schedule).shared.phase.Pending?
    ensures Revoking(s.terms, Run(s, schedule).shared.store)
    decreases |schedule|
  {
    if schedule == [] {
    } else {
      var a := schedule[0];
      ActKeepsSound(s, a);
      match a {
        case Advance(p, fails) =>
          if p in s.procs {
            ConsumingStep(s.terms, s.shared, p, s.procs[p], fails);
            if Unrevoked(s.terms, s.shared.store) { UnrevokedMeansNotRevoking(s.terms, s.shared.store); }
          }
        case FamilyOp(op) => RevokingIsStable(s.terms, s.shared.store, op);
        case _ =>
      }
      RevokedNeverConsumed(Act(s, a), schedule[1..]);
    }
  }

  ghost predicate Abandoned(s: State, p: nat) {
    && s.shared.guardLock == Some(p)
    && forall r :: r in s.procs ==> s.procs[r].Arriving? && r != p
  }

  // A crash inside the guard lock freezes the guard: pending stays pending, observed stays observed.
  lemma {:induction false} CrashFreezesGuard(s: State, p: nat, schedule: seq<Action>)
    requires Abandoned(s, p)
    ensures Run(s, schedule).shared.phase == s.shared.phase && Abandoned(Run(s, schedule), p)
    decreases |schedule|
  {
    if schedule == [] {
    } else {
      CrashFreezesGuard(Act(s, schedule[0]), p, schedule[1..]);
    }
  }

  lemma CrashInsideAbandons(terms: Terms, store: SF.Store, schedule: seq<Action>, p: nat)
    requires SF.Linked(store)
    ensures var s := Run(Initial(terms, store), schedule);
            p in s.procs && !s.procs[p].Arriving? ==> Abandoned(Act(s, Crash(p)), p)
  {
    SoundForever(Initial(terms, store), schedule);
    var s := Run(Initial(terms, store), schedule);
    forall r | r in s.procs ensures ProcSound(s.terms, s.shared, r, s.procs[r]) {}
  }

  // ---------------------------------------------------------------------------------------
  // Both locks are given back
  // ---------------------------------------------------------------------------------------

  // The call has the family lock.
  predicate InFamily(pc: Proc) {
    pc.ReadingFamily? || pc.Committing? || pc.Unwinding?
  }

  ghost predicate FamilyLockHeld(s: State) {
    && (s.shared.familyLock.Some? ==>
          && s.shared.familyLock.value in s.procs
          && InFamily(s.procs[s.shared.familyLock.value]))
  }

  lemma ActKeepsHeld(s: State, a: Action)
    requires FamilyLockHeld(s)
    ensures FamilyLockHeld(Act(s, a))
  {}

  // On every schedule the family lock is held only by a call that is under it: a crash, a refusal, a
  // revocation and a failing write all free it.
  lemma FamilyLockIsHeld(terms: Terms, store: SF.Store, schedule: seq<Action>)
    ensures FamilyLockHeld(Run(Initial(terms, store), schedule))
  {
    forall t, a | FamilyLockHeld(t) ensures FamilyLockHeld(Act(t, a)) { ActKeepsHeld(t, a); }
    Runs.Invariant(Act, FamilyLockHeld, Initial(terms, store), schedule);
  }

  // Whatever a call that entered the guard lock meets, it ends by unlinking that lock, which stays
  // only if unlinking fails.
  lemma EndUnlinksGuard(s: State, p: nat, fails: bool)
    requires p in s.procs && p !in Act(s, Advance(p, fails)).procs && !s.procs[p].Arriving?
    ensures Act(s, Advance(p, fails)).shared.guardLock == if fails then s.shared.guardLock else None
    ensures s.procs[p].Departing?
  {}

  // A revocation of its qualification that succeeds while a guard is pending, and its family is not
  // locked, is in time: on no later schedule is the guard consumed.
  lemma TimelyRevocationWins(terms: Terms, store: SF.Store, schedule: seq<Action>, later: seq<Action>, f: SF.Family)
    requires SF.Linked(store)
    requires var s := Run(Initial(terms, store), schedule);
             && s.terms.required && s.terms.qualification.Some? && s.shared.phase.Pending? && s.shared.familyLock.None?
             && SF.Revoke(s.shared.store, f, s.terms.qualification.value.body.revocationId).1.Ok?
    ensures var s := Run(Initial(terms, store), schedule);
            var op := SF.DoRevoke(f, s.terms.qualification.value.body.revocationId);
            Run(Act(s, FamilyOp(op)), later).shared.phase.Pending?
  {
    SoundForever(Initial(terms, store), schedule);
    var s := Run(Initial(terms, store), schedule);
    var op := SF.DoRevoke(f, s.terms.qualification.value.body.revocationId);
    ActKeepsSound(s, FamilyOp(op));
    assert Revoking(s.terms, SF.Do(s.shared.store, op));
    RevokedNeverConsumed(Act(s, FamilyOp(op)), later);
  }

  // An admitted call that needs no qualification goes straight to the phase change,
  lemma FreshReachesCommit(s: State, p: nat, q: Request) returns (schedule: seq<Action>)
    requires s.shared.phase.Pending? && s.shared.guardLock.None? && !s.terms.required
    requires s.procs == map[p := Arriving(q)] && Admitted(s.terms, q)
    ensures Run(s, schedule) == s.(shared := s.shared.(guardLock := Some(p)),
                                   procs := map[p := Committing(q, q.observation.value.bound)])
  {
    var go := Advance(p, false);
    var s1 := Act(s, go);
    var s2 := Act(s1, go);
    assert s2.procs == map[p := Committing(q, q.observation.value.bound)];
    schedule := [go, go];
    Runs.RunsThrough(Act, s, schedule, [s, s1, s2]);
  }

  lemma EntersFamily(s: State, p: nat, q: Request) returns (schedule: seq<Action>)
    requires s.shared.phase.Pending? && s.shared.guardLock.None? && s.terms.required
    requires s.procs == map[p := Arriving(q)] && Admitted(s.terms, q)
    ensures Run(s, schedule) == s.(shared := s.shared.(guardLock := Some(p)),
                                   procs := map[p := AwaitingFamily(q, q.observation.value.bound)])
  {
    var go := Advance(p, false);
    var s1 := Act(s, go);
    var s2 := Act(s1, go);
    assert s2.procs == map[p := AwaitingFamily(q, q.observation.value.bound)];
    schedule := [go, go];
    Runs.RunsThrough(Act, s, schedule, [s, s1, s2]);
  }

  // a continuation gets there through the family lock,
  lemma PassesFamily(s: State, p: nat, q: Request, projection: Projection) returns (schedule: seq<Action>)
    requires s.shared.familyLock.None? && Unrevoked(s.terms, s.shared.store)
    requires s.procs == map[p := AwaitingFamily(q, projection)]
    ensures Run(s, schedule) == s.(shared := s.shared.(familyLock := Some(p)), procs := map[p := Committing(q, projection)])
  {
    var go := Advance(p, false);
    var s1 := Act(s, go);
    var s2 := Act(s1, go);
    assert s2.procs == map[p := Committing(q, projection)];
    schedule := [go, go];
    Runs.RunsThrough(Act, s, schedule, [s, s1, s2]);
  }

  // and from the phase change to the release of both locks.
  lemma FinishesCommit(s: State, p: nat, q: Request, projection: Projection) returns (schedule: seq<Action>)
    requires s.procs == map[p := Committing(q, projection)]
    requires s.shared.familyLock.None? || s.shared.familyLock == Some(p)
    ensures var t := Run(s, schedule);
            && t.shared.phase == Observed(projection) && t.procs == map[]
            && t.shared.guardLock.None? && t.shared.familyLock.None?
  {
    var go := Advance(p, false);
    var s1 := Act(s, go);
    var s2 := Act(s1, go);
    var s3 := Act(s2, go);
    assert s3.procs == map[];
    schedule := [go, go, go];
    Runs.RunsThrough(Act, s, schedule, [s, s1, s2, s3]);
  }

  // The guard refuses only for cause: a lone call on an unlocked pending guard that passes every
  // check can consume it.
  lemma AdmittedCallConsumes(s: State, p: nat, q: Request)
    requires s.shared.phase.Pending? && s.shared.guardLock.None? && s.shared.familyLock.None? && s.procs == map[]
    requires Admitted(s.terms, q) && (s.terms.required ==> Unrevoked(s.terms, s.shared.store))
    ensures exists schedule ::
              && Run(s, schedule).shared.phase == Observed(q.observation.value.bound)
              && Run(s, schedule).shared.guardLock.None? && Run(s, schedule).shared.familyLock.None?
  {
    var s1 := Act(s, Call(p, q));
    var a := [Call(p, q)];
    Runs.RunsThrough(Act, s, a, [s, s1]);
    var b: seq<Action>;
    if s.terms.required {
      var enter := EntersFamily(s1, p, q);
      var pass := PassesFamily(Run(s1, enter), p, q, q.observation.value.bound);
      Runs.RunAppend(Act, s1, enter, pass);
      b := enter + pass;
    } else {
      b := FreshReachesCommit(s1, p, q);
    }
    var c := FinishesCommit(Run(s1, b), p, q, q.observation.value.bound);
    Runs.RunAppend(Act, s1, b, c);
    Runs.RunAppend(Act, s, a, b + c);
    assert Run(s, a + (b + c)) == Run(Run(s1, b), c);
  }

  // A guard whose terms ask for no qualification is consumed by a call of its own attempt, from its
  // owner, within half an hour, that observed its route.
  lemma OwnCallConsumes(terms: Terms, store: SF.Store, p: nat, q: Request)
    requires !terms.required && terms.expected == None
    requires PresentsTerms(terms, q)
    ensures exists schedule ::
              && Run(Initial(terms, store), schedule).shared.phase == Observed(q.observation.value.bound)
              && Run(Initial(terms, store), schedule).shared.guardLock.None?
  {
    AdmittedCallConsumes(Initial(terms, store), p, q);
  }

  // What the attempt itself presents.
  predicate PresentsTerms(terms: Terms, q: Request) {
    && q.backend == terms.backend && q.transport == terms.transport && q.attempt == terms.attempt
    && (terms.schema.V2? ==> q.payload == Some(terms.schema.payload) && q.attemptDigest == Some(terms.attempt))
    && q.owner.Some? && q.owner.value.nonce == terms.ownerNonce && q.owner.value.generation == terms.ownerGeneration
    && terms.ownerNonce != "" && terms.ownerGeneration >= 1 && q.now < q.owner.value.expires
    && q.now <= terms.createdAt + 1800 && 0 < q.observedAt <= q.now <= q.observedAt + 1800
    && q.observation.Some?
    && q.observation.value.bound.route.backend == terms.backend
    && q.observation.value.bound.route.transport == terms.transport
    && (terms.expected.Some? ==> terms.expected.value == q.observation.value.bound)
  }

  // A continuation's guard is consumed by such a call if it also presents the qualification that the
  // guard carries, valid as issued, for what was observed, while the family does not revoke it.
  lemma QualifiedCallConsumes(terms: Terms, store: SF.Store, p: nat, q: Request, f: SF.Family)
    requires PresentsTerms(terms, q)
    requires terms.qualification.Some? && q.qualification == terms.qualification
    requires q.token.Some? && q.token.value != "" && q.token == terms.token
    requires Valid(terms.qualification.value, q.token, None, None, None, q.now)
    requires QualifiedBy(terms, q, q.observation.value.bound)
    requires SF.Read(store, SF.IdOnly(terms.familyId.value)) == Ok(f)
    requires terms.qualification.value.body.revocationId !in f.body.revocations
    ensures exists schedule ::
              && Run(Initial(terms, store), schedule).shared.phase == Observed(q.observation.value.bound)
              && Run(Initial(terms, store), schedule).shared.guardLock.None?
  {
    ValidIsReviewed(terms.qualification.value, q.token, None, None, None, q.now);
    assert Valid(terms.qualification.value, q.token, Some(q.observation.value.bound), terms.familyId, terms.sourceTurn, q.now);
    AdmittedCallConsumes(Initial(terms, store), p, q);
  }
}

/** The private source-family seal of a chat lineage and its linked qualifications.
  *
  * Every operation holds the family lock, so an interleaving is a sequence of operations; an
  * operation that publishes writes the qualification file first and the family file second, and
  * may stop between the two.  Lists kept sorted by key are maps and sets here.
  */
module SourceFamily {
  import opened Wrappers
  import opened Qualification
  import Runs
  import Text

  const MAX_QUALIFICATIONS := 128

  datatype Identity = Identity(
    id: FamilyId, session: string, participant: string, projectRoot: string, identitySha: string)

  datatype Link = Link(qualification: Qualification, observation: Projection)

  datatype Sealed = Sealed(
    identity: Identity,
    nonce: string,
    links: map<string, Link>,        // by turn id; a Link holds two digests
    revocations: set<Digest>,
    createdAt: int)

  datatype FamilyMac = FamilyMac(nonce: string, body: Sealed)

  datatype Family = Family(body: Sealed, auth: FamilyMac)

  datatype Store = Store(family: Option<Family>, quals: map<string, Qualification>)

  datatype Expected = Everything(identity: Identity) | IdOnly(id: FamilyId)

  datatype Error =
    | Untrusted | AuthFailed | Mismatch | NotUnused | Invalid | QualificationAuthFailed
    | Revoked | Conflict | Stale | Missing | NotLinked | BadTurn | Halted

  function Seal(body: Sealed): Family {
    Family(body, FamilyMac(body.nonce, body))
  }

  predicate Fits(field: string) {
    1 <= |field| <= 256
  }

  // _valid_shape: readers refuse empty or long fields and more than 128 links or revocations.
  predicate ValidShape(f: Family) {
    && Fits(f.body.identity.session) && Fits(f.body.identity.participant) && Fits(f.body.nonce)
    && |f.body.links| <= MAX_QUALIFICATIONS && |f.body.revocations| <= MAX_QUALIFICATIONS
  }

  function ValidateRecord(f: Family, expected: Expected): Result<Family, Error> {
    if !ValidShape(f) then Err(Untrusted)
    else if f.auth != FamilyMac(f.body.nonce, f.body) then Err(AuthFailed)
    else match expected
      case Everything(identity) => if f.body.identity == identity then Ok(f) else Err(Mismatch)
      case IdOnly(id) => if f.body.identity.id == id then Ok(f) else Err(Mismatch)
  }

  function Read(s: Store, expected: Expected): Result<Family, Error> {
    if s.family.None? then Err(Untrusted) else ValidateRecord(s.family.value, expected)
  }

  predicate TurnChar(c: char) {
    'a' <= c <= 'z' || 'A' <= c <= 'Z' || '0' <= c <= '9' || c == '.' || c == '_' || c == '-'
  }

  // qualification_path refuses every other turn id.
  predicate SafeTurn(turnId: string) {
    turnId != "" && forall i :: 0 <= i < |turnId| ==> TurnChar(turnId[i])
  }

  // ---------------------------------------------------------------------------------------
  // The operations as functions
  // ---------------------------------------------------------------------------------------

  function Ensure(s: Store, identity: Identity, nonce: string, now: int): (Store, Result<Family, Error>) {
    if s.family.Some? then (s, Read(s, Everything(identity)))
    else if identity.session == "" || identity.participant == "" then (s, Err(Invalid))
    else if identity.id != DerivedId(identity.session, identity.participant, identity.projectRoot, identity.identitySha)
    then (s, Err(Mismatch))
    else
      var t := s.(family := Some(Seal(Sealed(identity, nonce, map[], {}, now))));
      (t, Read(t, Everything(identity)))
  }

  // A migration packet may seed only an unused family.
  function Unused(packet: Family, identity: Identity): Result<Family, Error> {
    match ValidateRecord(packet, Everything(identity))
    case Err(e) => Err(e)
    case Ok(f) => if f.body.links != map[] || f.body.revocations != {} then Err(NotUnused) else Ok(f)
  }

  function Publish(s: Store, packet: Family, identity: Identity): (Store, Result<Family, Error>) {
    if s.family.Some? then (s, Read(s, Everything(identity)))
    else match Unused(packet, identity)
      case Err(e) => (s, Err(e))
      case Ok(f) =>
        var t := s.(family := Some(f));
        (t, Read(t, Everything(identity)))
  }

  // The checks of a qualification against the family it is to be linked to.
  function Admit(f: Family, q: Qualification, seen: Observation, now: int): Option<Error> {
    if q.body.familyId != f.body.identity.id then Some(Mismatch)
    else if q.body.observation != Some(seen.bound) then Some(Invalid)
    else if !Valid(q, Some(f.body.nonce), Some(seen.bound), Some(f.body.identity.id), Some(q.body.turnId), now)
    then Some(QualificationAuthFailed)
    else None
  }

  function LinkOf(q: Qualification, seen: Observation): Link {
    Link(q, seen.bound)
  }

  // The two writes that publication and linking share.
  function Connect(s: Store, current: Family, q: Qualification, seen: Observation, halts: bool)
    : (Store, Result<Link, Error>)
  {
    var turn := q.body.turnId;
    if q.body.revocationId in current.body.revocations then (s, Err(Revoked))
    else if !SafeTurn(turn) then (s, Err(BadTurn))
    else if turn in s.quals && s.quals[turn] != q then (s, Err(Conflict))
    else
      var filed := s.(quals := s.quals[turn := q]);
      if halts then (filed, Err(Halted))
      else if turn in current.body.links then
        if current.body.links[turn] == LinkOf(q, seen) then (filed, Ok(LinkOf(q, seen))) else (filed, Err(Conflict))
      else
        var body := current.body.(links := current.body.links[turn := LinkOf(q, seen)]);
        (filed.(family := Some(Seal(body))), Ok(LinkOf(q, seen)))
  }

  function PublishQualification(s: Store, packet: Family, q: Qualification, seen: Observation,
                                identity: Identity, now: int, halts: bool): (Store, Result<Link, Error>) {
    var current := if s.family.None? then Unused(packet, identity) else Read(s, Everything(identity));
    if current.Err? then (s, Err(current.error))
    else if q.body.observation != Some(seen.bound) then (s, Err(Invalid))
    else if Admit(current.value, q, seen, now).Some? then (s, Err(Admit(current.value, q, seen, now).value))
    else Connect(s, current.value, q, seen, halts)
  }

  // A snapshot is current exactly when nonce and tag still match.
  predicate Current(f: Family, snapshot: Family) {
    f.body.nonce == snapshot.body.nonce && f.auth == snapshot.auth
  }

  function WriteQualification(s: Store, snapshot: Family, q: Qualification, seen: Observation, now: int, halts: bool)
    : (Store, Result<Link, Error>)
  {
    if Admit(snapshot, q, seen, now).Some? then (s, Err(Admit(snapshot, q, seen, now).value))
    else if !SafeTurn(q.body.turnId) then (s, Err(BadTurn))
    else match Read(s, IdOnly(snapshot.body.identity.id))
      case Err(e) => (s, Err(e))
      case Ok(f) => if !Current(f, snapshot) then (s, Err(Stale)) else Connect(s, f, q, seen, halts)
  }

  function Revoke(s: Store, snapshot: Family, id: Digest): (Store, Result<(), Error>) {
    match Read(s, IdOnly(snapshot.body.identity.id))
    case Err(e) => (s, Err(e))
    case Ok(f) =>
      if !Current(f, snapshot) then (s, Err(Stale))
      else if id in f.body.revocations then (s, Ok(()))
      else (s.(family := Some(Seal(f.body.(revocations := f.body.revocations + {id})))), Ok(()))
  }

  function ReadQualification(s: Store, snapshot: Family, turn: string, now: int): Result<(Qualification, Projection), Error> {
    match Read(s, IdOnly(snapshot.body.identity.id))
    case Err(e) => Err(e)
    case Ok(f) =>
      if !Current(f, snapshot) then Err(Stale)
      else if !SafeTurn(turn) then Err(BadTurn)
      else if turn !in s.quals then Err(Missing)
      else
        var q := s.quals[turn];
        if !Valid(q, Some(f.body.nonce), None, Some(f.body.identity.id), Some(turn), now) then Err(Invalid)
        else if turn !in f.body.links || f.body.links[turn].qualification != q then Err(NotLinked)
        else if q.body.observation.None? || f.body.links[turn].observation != q.body.observation.value then Err(NotLinked)
        else Ok((q, q.body.observation.value))
  }

  // ---------------------------------------------------------------------------------------
  // The operations as the module performs them, under the family lock
  // ---------------------------------------------------------------------------------------

  class Directory {
    var family: Option<Family>
    var quals: map<string, Qualification>

    function Contents(): Store
      reads this
    {
      Store(family, quals)
    }

    constructor ()
      ensures Contents() == Store(None, map[])
    {
      family, quals := None, map[];
    }

    method EnsureFamily(identity: Identity, nonce: string, now: int) returns (r: Result<Family, Error>)
      modifies this
      ensures (Contents(), r) == Ensure(old(Contents()), identity, nonce, now)
    {
      if family.Some? { return Read(Contents(), Everything(identity)); }
      if identity.session == "" || identity.participant == "" { return Err(Invalid); }
      if identity.id != DerivedId(identity.session, identity.participant, identity.projectRoot, identity.identitySha) {
        return Err(Mismatch);
      }
      family := Some(Seal(Sealed(identity, nonce, map[], {}, now)));
      return Read(Contents(), Everything(identity));
    }

    method PublishFamily(packet: Family, identity: Identity) returns (r: Result<Family, Error>)
      modifies this
      ensures (Contents(), r) == Publish(old(Contents()), packet, identity)
    {
      if family.Some? { return Read(Contents(), Everything(identity)); }
      r := Unused(packet, identity);
      if r.Ok? {
        family := Some(r.value);
        r := Read(Contents(), Everything(identity));
      }
    }

    method ConnectQualification(current: Family, q: Qualification, seen: Observation, halts: bool)
      returns (r: Result<Link, Error>)
      modifies this
      ensures (Contents(), r) == Connect(old(Contents()), current, q, seen, halts)
    {
      var turn := q.body.turnId;
      if q.body.revocationId in current.body.revocations { return Err(Revoked); }
      if !SafeTurn(turn) { return Err(BadTurn); }
      if turn in quals && quals[turn] != q { return Err(Conflict); }
      if turn !in quals {
        quals := quals[turn := q];
      }
      assert quals == old(quals)[turn := q];
      if halts { return Err(Halted); }
      var link := LinkOf(q, seen);
      if turn in current.body.links {
        return if current.body.links[turn] == link then Ok(link) else Err(Conflict);
      }
      family := Some(Seal(current.body.(links := current.body.links[turn := link])));
      return Ok(link);
    }

    method PublishFirst(packet: Family, q: Qualification, seen: Observation, identity: Identity, now: int, halts: bool)
      returns (r: Result<Link, Error>)
      modifies this
      ensures (Contents(), r) == PublishQualification(old(Contents()), packet, q, seen, identity, now, halts)
    {
      var current;
      if family.None? { current := Unused(packet, identity); } else { current := Read(Contents(), Everything(identity)); }
      if current.Err? { return Err(current.error); }
      if q.body.observation != Some(seen.bound) { return Err(Invalid); }
      var refused := Admit(current.value, q, seen, now);
      if refused.Some? { return Err(refused.value); }
      r := ConnectQualification(current.value, q, seen, halts);
    }

    method Write(snapshot: Family, q: Qualification, seen: Observation, now: int, halts: bool)
      returns (r: Result<Link, Error>)
      modifies this
      ensures (Contents(), r) == WriteQualification(old(Contents()), snapshot, q, seen, now, halts)
    {
      var refused := Admit(snapshot, q, seen, now);
      if refused.Some? { return Err(refused.value); }
      if !SafeTurn(q.body.turnId) { return Err(BadTurn); }
      var current := Read(Contents(), IdOnly(snapshot.body.identity.id));
      if current.Err? { return Err(current.error); }
      if !Current(current.value, snapshot) { return Err(Stale); }
      r := ConnectQualification(current.value, q, seen, halts);
    }

    method RevokeId(snapshot: Family, id: Digest) returns (r: Result<(), Error>)
      modifies this
      ensures (Contents(), r) == Revoke(old(Contents()), snapshot, id)
    {
      var current := Read(Contents(), IdOnly(snapshot.body.identity.id));
      if current.Err? { return Err(current.error); }
      if !Current(current.value, snapshot) { return Err(Stale); }
      if id !in current.value.body.revocations {
        family := Some(Seal(current.value.body.(revocations := current.value.body.revocations + {id})));
      }
      return Ok(());
    }
  }

  // ---------------------------------------------------------------------------------------
  // Histories
  // ---------------------------------------------------------------------------------------

  // One operation with whatever arguments and snapshot its caller holds.
  datatype Op =
    | DoEnsure(identity: Identity, nonce: string, now: int)
    | DoPublish(packet: Family, identity: Identity)
    | DoPublishQualification(packet: Family, q: Qualification, seen: Observation, identity: Identity, now: int, halts: bool)
    | DoWrite(packet: Family, q: Qualification, seen: Observation, now: int, halts: bool)
    | DoRevoke(packet: Family, id: Digest)

  function Do(s: Store, op: Op): Store {
    match op
    case DoEnsure(identity, nonce, now) => Ensure(s, identity, nonce, now).0
    case DoPublish(packet, identity) => Publish(s, packet, identity).0
    case DoPublishQualification(packet, q, seen, identity, now, halts) =>
      PublishQualification(s, packet, q, seen, identity, now, halts).0
    case DoWrite(packet, q, seen, now, halts) => WriteQualification(s, packet, q, seen, now, halts).0
    case DoRevoke(packet, id) => Revoke(s, packet, id).0
  }

  function DoAll(s: Store, ops: seq<Op>): Store {
    Runs.Run(Do, s, ops)
  }

  // Each link names an existing qualification file with that exact digest, and the seal verifies.
  ghost predicate Linked(s: Store) {
    s.family.Some? ==>
      && s.family.value.auth == FamilyMac(s.family.value.body.nonce, s.family.value.body)
      && forall t :: t in s.family.value.body.links ==>
           && t in s.quals
           && s.family.value.body.links[t].qualification == s.quals[t]
           && s.quals[t].body.turnId == t
           && s.quals[t].body.observation == Some(s.family.value.body.links[t].observation)
  }

  // What every operation keeps of the store it started from.
  ghost predicate Evolves(s: Store, t: Store) {
    && (forall n :: n in s.quals ==> n in t.quals && t.quals[n] == s.quals[n])
    && (s.family.Some? ==>
          && t.family.Some?
          && t.family.value.body.identity == s.family.value.body.identity
          && t.family.value.body.nonce == s.family.value.body.nonce
          && t.family.value.body.createdAt == s.family.value.body.createdAt
          && s.family.value.body.revocations <= t.family.value.body.revocations
          && forall n :: n in s.family.value.body.links ==>
               n in t.family.value.body.links && t.family.value.body.links[n] == s.family.value.body.links[n])
  }

  lemma ConnectKeeps(s: Store, current: Family, q: Qualification, seen: Observation, halts: bool)
    requires Linked(s) && (s.family == Some(current) || (s.family.None? && current.body.links == map[]))
    requires q.body.observation == Some(seen.bound)
    ensures Linked(Connect(s, current, q, seen, halts).0) && Evolves(s, Connect(s, current, q, seen, halts).0)
  {}

  lemma SealingKeeps(s: Store, op: Op)
    requires Linked(s) && (op.DoEnsure? || op.DoPublish?)
    ensures Linked(Do(s, op)) && Evolves(s, Do(s, op))
  {}

  lemma RevokeKeeps(s: Store, snapshot: Family, id: Digest)
    requires Linked(s)
    ensures Linked(Revoke(s, snapshot, id).0) && Evolves(s, Revoke(s, snapshot, id).0)
  {}

  lemma PublishKeeps(s: Store, packet: Family, q: Qualification, seen: Observation, identity: Identity, now: int, halts: bool)
    requires Linked(s)
    ensures var t := PublishQualification(s, packet, q, seen, identity, now, halts).0; Linked(t) && Evolves(s, t)
  {
    var current := if s.family.None? then Unused(packet, identity) else Read(s, Everything(identity));
    if current.Ok? && Admit(current.value, q, seen, now).None? { ConnectKeeps(s, current.value, q, seen, halts); }
  }

  lemma WriteKeeps(s: Store, snapshot: Family, q: Qualification, seen: Observation, now: int, halts: bool)
    requires Linked(s)
    ensures var t := WriteQualification(s, snapshot, q, seen, now, halts).0; Linked(t) && Evolves(s, t)
  {
    var current := Read(s, IdOnly(snapshot.body.identity.id));
    if current.Ok? && Admit(snapshot, q, seen, now).None? { ConnectKeeps(s, current.value, q, seen, halts); }
  }

  lemma DoKeeps(s: Store, op: Op)
    requires Linked(s)
    ensures Linked(Do(s, op)) && Evolves(s, Do(s, op))
  {
    match op
    case DoPublishQualification(packet, q, seen, identity, now, halts) =>
      PublishKeeps(s, packet, q, seen, identity, now, halts);
    case DoWrite(packet, q, seen, now, halts) => WriteKeeps(s, packet, q, seen, now, halts);
    case DoRevoke(packet, id) => RevokeKeeps(s, packet, id);
    case _ => SealingKeeps(s, op);
  }

  // Over every history, with stale snapshots and stops between the two writes: every link names
  // its exact qualification file; identity, nonce, links and qualification files never change;
  // revocations and links only grow.
  lemma {:induction false} HistoryKeeps(s: Store, ops: seq<Op>)
    requires Linked(s)
    ensures Linked(DoAll(s, ops)) && Evolves(s, DoAll(s, ops))
    decreases |ops|
  {
    if ops == [] {
    } else {
      DoKeeps(s, ops[0]);
      HistoryKeeps(Do(s, ops[0]), ops[1..]);
    }
  }

  // A writer acts only on a snapshot of exactly the current seal, so no stale one changes anything.
  lemma StaleWritersAreRefused(s: Store, snapshot: Family, q: Qualification, seen: Observation, id: Digest, now: int, halts: bool)
    requires Linked(s) && s.family.Some? && s.family.value.auth != snapshot.auth
    ensures WriteQualification(s, snapshot, q, seen, now, halts) == (s, WriteQualification(s, snapshot, q, seen, now, halts).1)
    ensures WriteQualification(s, snapshot, q, seen, now, halts).1.Err?
    ensures Revoke(s, snapshot, id).0 == s && Revoke(s, snapshot, id).1.Err?
  {}

  // A seal that has changed never comes back.
  lemma SealsDoNotReturn(s: Store, t: Store, u: Store)
    requires Linked(s) && Linked(t) && Linked(u) && Evolves(s, t) && Evolves(t, u)
    requires s.family.Some? && u.family == s.family
    ensures t.family == s.family
  {
    var x, y := s.family.value.body, t.family.value.body;
    assert x.links == y.links by {
      forall n | n in y.links ensures n in x.links && x.links[n] == y.links[n] {}
      assert x.links.Keys == y.links.Keys;
    }
    assert x.revocations == y.revocations;
  }

  // Whoever holds a snapshot loses every write and every revocation from the first change of the
  // family on: both are refused without effect, and nothing makes the snapshot current again.
  lemma SnapshotsExpire(s: Store, snapshot: Family, ops: seq<Op>, later: seq<Op>,
                        q: Qualification, seen: Observation, id: Digest, now: int, halts: bool)
    requires Linked(s) && s.family == Some(snapshot) && DoAll(s, ops).family != Some(snapshot)
    ensures var t := DoAll(s, ops + later);
            && t.family != Some(snapshot)
            && WriteQualification(t, snapshot, q, seen, now, halts).0 == t
            && WriteQualification(t, snapshot, q, seen, now, halts).1.Err?
            && Revoke(t, snapshot, id).0 == t && Revoke(t, snapshot, id).1.Err?
  {
    Runs.RunAppend(Do, s, ops, later);
    var t, u := DoAll(s, ops), DoAll(s, ops + later);
    HistoryKeeps(s, ops);
    HistoryKeeps(t, later);
    assert u.family != Some(snapshot) by { if u.family == Some(snapshot) { SealsDoNotReturn(s, t, u); } }
    assert u.family.value.auth != snapshot.auth;
    StaleWritersAreRefused(u, snapshot, q, seen, id, now, halts);
  }

  // ---------------------------------------------------------------------------------------
  // Links carry the family's own signature
  // ---------------------------------------------------------------------------------------

  predicate Signed(f: Family, q: Qualification) {
    && f.body.nonce != "" && q.auth == Mac(f.body.nonce, q.body)
    && WellFormed(q.body) && q.body.familyId == f.body.identity.id
  }

  ghost predicate Authentic(s: Store) {
    s.family.Some? ==> forall t :: t in s.family.value.body.links ==>
                         t in s.quals && Signed(s.family.value, s.quals[t])
  }

  // What connecting can have done to the store.
  predicate Connected(s: Store, current: Family, q: Qualification, t: Store) {
    var turn := q.body.turnId;
    || t == s
    || (&& t.quals == s.quals[turn := q] && (turn in s.quals ==> s.quals[turn] == q)
        && (|| t.family == s.family
            || (t.family.Some?
                && t.family.value.body.nonce == current.body.nonce
                && t.family.value.body.identity == current.body.identity
                && t.family.value.body.links.Keys == current.body.links.Keys + {turn})))
  }

  lemma ConnectIsConnected(s: Store, current: Family, q: Qualification, seen: Observation, halts: bool)
    ensures Connected(s, current, q, Connect(s, current, q, seen, halts).0)
  {}

  lemma ConnectedIsAuthentic(s: Store, current: Family, q: Qualification, t: Store)
    requires Authentic(s) && (s.family == Some(current) || (s.family.None? && current.body.links == map[]))
    requires Signed(current, q) && Connected(s, current, q, t)
    ensures Authentic(t)
  {}

  lemma ConnectKeepsAuthentic(s: Store, current: Family, q: Qualification, seen: Observation, halts: bool)
    requires Authentic(s) && (s.family == Some(current) || (s.family.None? && current.body.links == map[]))
    requires Signed(current, q)
    ensures Authentic(Connect(s, current, q, seen, halts).0)
  {
    ConnectIsConnected(s, current, q, seen, halts);
    ConnectedIsAuthentic(s, current, q, Connect(s, current, q, seen, halts).0);
  }

  // The caller's snapshot lends only its nonce and its id.
  lemma AdmittedIsSigned(f: Family, snapshot: Family, q: Qualification, seen: Observation, now: int)
    requires ValidShape(f) && Admit(snapshot, q, seen, now).None?
    requires f.body.nonce == snapshot.body.nonce && f.body.identity.id == snapshot.body.identity.id
    ensures Signed(f, q)
  {}

  lemma PublishKeepsAuthentic(s: Store, packet: Family, q: Qualification, seen: Observation, identity: Identity, now: int, halts: bool)
    requires Authentic(s)
    ensures Authentic(PublishQualification(s, packet, q, seen, identity, now, halts).0)
  {
    var current := if s.family.None? then Unused(packet, identity) else Read(s, Everything(identity));
    if current.Ok? && Admit(current.value, q, seen, now).None? {
      AdmittedIsSigned(current.value, current.value, q, seen, now);
      ConnectKeepsAuthentic(s, current.value, q, seen, halts);
    }
  }

  lemma WriteKeepsAuthentic(s: Store, snapshot: Family, q: Qualification, seen: Observation, now: int, halts: bool)
    requires Authentic(s)
    ensures Authentic(WriteQualification(s, snapshot, q, seen, now, halts).0)
  {
    var current := Read(s, IdOnly(snapshot.body.identity.id));
    if current.Ok? && Current(current.value, snapshot) && Admit(snapshot, q, seen, now).None? {
      AdmittedIsSigned(current.value, snapshot, q, seen, now);
      ConnectKeepsAuthentic(s, current.value, q, seen, halts);
    }
  }

  lemma DoKeepsAuthentic(s: Store, op: Op)
    requires Authentic(s)
    ensures Authentic(Do(s, op))
  {
    match op
    case DoPublishQualification(packet, q, seen, identity, now, halts) =>
      PublishKeepsAuthentic(s, packet, q, seen, identity, now, halts);
    case DoWrite(packet, q, seen, now, halts) => WriteKeepsAuthentic(s, packet, q, seen, now, halts);
    case _ =>
  }

  // Over every history from an empty directory, a linked qualification is what issue returns for
  // its fields under the nonce of this family, at any time before it expires; no other family with
  // another nonce ever links the same one.
  lemma LinksWereIssued(ops: seq<Op>, turn: string, now: int)
    requires var s := DoAll(Store(None, map[]), ops);
             s.family.Some? && turn in s.family.value.body.links
    ensures var s := DoAll(Store(None, map[]), ops);
            && turn in s.quals
            && var q := s.quals[turn];
            q.body.familyId == s.family.value.body.identity.id
            && (now < q.body.expiresAt ==>
                  exists observation: Option<Observation> ::
                    Issue(q.body.familyId, q.body.turnId, q.body.route, q.body.contract, observation,
                          q.body.expiresAt, q.body.revocationId, s.family.value.body.nonce, now) == Ok(q))
  {
    AuthenticForever(ops);
    var s := DoAll(Store(None, map[]), ops);
    assert Signed(s.family.value, s.quals[turn]);
    if now < s.quals[turn].body.expiresAt { IssueRoundTrip(s.quals[turn], s.family.value.body.nonce, now); }
  }

  lemma AuthenticForever(ops: seq<Op>)
    ensures Authentic(DoAll(Store(None, map[]), ops))
  {
    forall t, op | Authentic(t) ensures Authentic(Do(t, op)) { DoKeepsAuthentic(t, op); }
    Runs.Invariant(Do, Authentic, Store(None, map[]), ops);
  }

  // Two directories link one qualification only if their families share their nonce and their id.
  lemma LinksAreNotShared(ops: seq<Op>, others: seq<Op>, turn: string)
    requires var s := DoAll(Store(None, map[]), ops); s.family.Some? && turn in s.family.value.body.links && turn in s.quals
    requires var t := DoAll(Store(None, map[]), others); t.family.Some? && turn in t.family.value.body.links && turn in t.quals
    requires DoAll(Store(None, map[]), ops).quals[turn] == DoAll(Store(None, map[]), others).quals[turn]
    ensures var f, g := DoAll(Store(None, map[]), ops).family.value, DoAll(Store(None, map[]), others).family.value;
            f.body.nonce == g.body.nonce && f.body.identity.id == g.body.identity.id
  {
    AuthenticForever(ops);
    AuthenticForever(others);
    var s, t := DoAll(Store(None, map[]), ops), DoAll(Store(None, map[]), others);
    var q := s.quals[turn];
    assert Signed(s.family.value, q) && Signed(t.family.value, q);
    TagsAreBinding(q, q, s.family.value.body.nonce, t.family.value.body.nonce, q.body.expiresAt - 1);
  }

  // ---------------------------------------------------------------------------------------
  // Two-file publication
  // ---------------------------------------------------------------------------------------

  // A reader gets a qualification exactly when the current seal links the very file it names.
  lemma OrphansAreNeverRead(s: Store, snapshot: Family, turn: string, now: int)
    requires Linked(s) && s.family.Some?
    ensures var f := s.family.value;
            && (ReadQualification(s, snapshot, turn, now).Ok? <==>
                  && ValidShape(f) && f.body.identity.id == snapshot.body.identity.id && Current(f, snapshot)
                  && SafeTurn(turn) && turn in f.body.links
                  && Valid(s.quals[turn], Some(f.body.nonce), None, Some(f.body.identity.id), Some(turn), now))
            && (ReadQualification(s, snapshot, turn, now).Ok? ==>
                  ReadQualification(s, snapshot, turn, now).value == (s.quals[turn], f.body.links[turn].observation))
  {}

  // Filing the same qualification first changes nothing for a run that would succeed.
  lemma ConnectAgain(s: Store, current: Family, q: Qualification, seen: Observation)
    requires Connect(s, current, q, seen, false).1.Ok?
    ensures Connect(s.(quals := s.quals[q.body.turnId := q]), current, q, seen, false) == Connect(s, current, q, seen, false)
  {
    assert s.quals[q.body.turnId := q][q.body.turnId := q] == s.quals[q.body.turnId := q];
  }

  lemma PublishAgain(s: Store, packet: Family, q: Qualification, seen: Observation, identity: Identity, earlier: int, now: int)
    requires PublishQualification(s, packet, q, seen, identity, now, false).1.Ok?
    ensures var t := PublishQualification(s, packet, q, seen, identity, earlier, true).0;
            PublishQualification(t, packet, q, seen, identity, now, false)
            == PublishQualification(s, packet, q, seen, identity, now, false)
  {
    var current := if s.family.None? then Unused(packet, identity) else Read(s, Everything(identity));
    ConnectAgain(s, current.value, q, seen);
  }

  // A publication of this packet that stops between the writes, at whatever time.
  predicate StoppedPublication(op: Op, packet: Family, q: Qualification, seen: Observation, identity: Identity) {
    op.DoPublishQualification? && op.packet == packet && op.q == q && op.seen == seen && op.identity == identity && op.halts
  }

  // After any number of publications that stopped between the writes, the same packet, if it
  // would be accepted now, reaches the state and the answer of an uninterrupted run.
  lemma {:induction false} InterruptedPublicationConverges(
      s: Store, ops: seq<Op>, packet: Family, q: Qualification, seen: Observation, identity: Identity, now: int)
    requires forall op :: op in ops ==> StoppedPublication(op, packet, q, seen, identity)
    requires PublishQualification(s, packet, q, seen, identity, now, false).1.Ok?
    ensures PublishQualification(DoAll(s, ops), packet, q, seen, identity, now, false)
            == PublishQualification(s, packet, q, seen, identity, now, false)
    decreases |ops|
  {
    if ops == [] {
    } else {
      assert ops[0] in ops;
      PublishAgain(s, packet, q, seen, identity, ops[0].now, now);
      InterruptedPublicationConverges(Do(s, ops[0]), ops[1..], packet, q, seen, identity, now);
    }
  }

  predicate StoppedWrite(op: Op, snapshot: Family, q: Qualification, seen: Observation) {
    op.DoWrite? && op.packet == snapshot && op.q == q && op.seen == seen && op.halts
  }

  lemma WriteAgain(s: Store, snapshot: Family, q: Qualification, seen: Observation, earlier: int, now: int)
    requires WriteQualification(s, snapshot, q, seen, now, false).1.Ok?
    ensures WriteQualification(WriteQualification(s, snapshot, q, seen, earlier, true).0, snapshot, q, seen, now, false)
            == WriteQualification(s, snapshot, q, seen, now, false)
  {
    ConnectAgain(s, Read(s, IdOnly(snapshot.body.identity.id)).value, q, seen);
  }

  // The same for any number of stopped writes of one qualification.
  lemma {:induction false} InterruptedWriteConverges(
      s: Store, ops: seq<Op>, snapshot: Family, q: Qualification, seen: Observation, now: int)
    requires forall op :: op in ops ==> StoppedWrite(op, snapshot, q, seen)
    requires WriteQualification(s, snapshot, q, seen, now, false).1.Ok?
    ensures WriteQualification(DoAll(s, ops), snapshot, q, seen, now, false)
            == WriteQualification(s, snapshot, q, seen, now, false)
    decreases |ops|
  {
    if ops == [] {
    } else {
      assert ops[0] in ops;
      WriteAgain(s, snapshot, q, seen, ops[0].now, now);
      InterruptedWriteConverges(Do(s, ops[0]), ops[1..], snapshot, q, seen, now);
    }
  }

  // A published link is read back by whoever holds the new seal, unless it made the seal too long.
  lemma PublishedIsReadable(s: Store, packet: Family, q: Qualification, seen: Observation, identity: Identity, now: int)
    requires Linked(s) && PublishQualification(s, packet, q, seen, identity, now, false).1.Ok?
    ensures var t := PublishQualification(s, packet, q, seen, identity, now, false).0;
            && t.family.Some?
            && (ReadQualification(t, t.family.value, q.body.turnId, now) == Ok((q, seen.bound)) <==>
                |t.family.value.body.links| <= MAX_QUALIFICATIONS)
  {
    var current := if s.family.None? then Unused(packet, identity) else Read(s, Everything(identity));
    ConnectLinks(s, current.value, q, seen);
    ConnectKeeps(s, current.value, q, seen, false);
    var t := Connect(s, current.value, q, seen, false).0;
    OrphansAreNeverRead(t, t.family.value, q.body.turnId, now);
  }

  lemma ConnectLinks(s: Store, current: Family, q: Qualification, seen: Observation)
    requires Connect(s, current, q, seen, false).1.Ok? && (s.family == Some(current) || current.body.links == map[])
    ensures var t := Connect(s, current, q, seen, false).0;
            && t.family.Some? && q.body.turnId in t.family.value.body.links && SafeTurn(q.body.turnId)
            && t.family.value.body.links[q.body.turnId] == LinkOf(q, seen)
            && t.family.value.body.identity == current.body.identity
            && t.family.value.body.nonce == current.body.nonce
            && t.family.value.body.revocations == current.body.revocations
            && q.body.turnId in t.quals && t.quals[q.body.turnId] == q
  {}

  // The first file written for a turn is final: from then on, in every later state, only that very
  // qualification can be published or written for the turn.  A stopped publication whose packet
  // has expired therefore leaves a turn that no other packet can use.
  lemma FirstPacketWins(s: Store, ops: seq<Op>, turn: string, q: Qualification, seen: Observation,
                        packet: Family, identity: Identity, now: int, halts: bool)
    requires Linked(s) && turn in s.quals && q.body.turnId == turn
    ensures var t := DoAll(s, ops);
            && turn in t.quals && t.quals[turn] == s.quals[turn]
            && (PublishQualification(t, packet, q, seen, identity, now, halts).1.Ok? ==> q == s.quals[turn])
            && (WriteQualification(t, packet, q, seen, now, halts).1.Ok? ==> q == s.quals[turn])
  {
    HistoryKeeps(s, ops);
  }

  // A first publication that would succeed leaves such a file, and no link, when it stops.
  lemma StoppedPublicationOrphans(s: Store, packet: Family, q: Qualification, seen: Observation, identity: Identity, now: int)
    requires Linked(s) && PublishQualification(s, packet, q, seen, identity, now, false).1.Ok?
    requires s.family.Some? ==> q.body.turnId !in s.family.value.body.links
    ensures var t := PublishQualification(s, packet, q, seen, identity, now, true).0;
            && Linked(t) && q.body.turnId in t.quals && t.quals[q.body.turnId] == q
            && (t.family.Some? ==> q.body.turnId !in t.family.value.body.links)
            && now < q.body.expiresAt
  {
    PublishKeeps(s, packet, q, seen, identity, now, true);
  }

  // A publication that stops between the writes and is not completed before its packet expires
  // leaves a turn that, in every later state, nothing can be published, written or read for.
  lemma ExpiredOrphanWedges(s: Store, first: Qualification, ops: seq<Op>, q: Qualification, seen: Observation,
                            packet: Family, identity: Identity, now: int, halts: bool)
    requires Linked(s) && first.body.turnId in s.quals && s.quals[first.body.turnId] == first
    requires q.body.turnId == first.body.turnId && first.body.expiresAt <= now
    ensures var t := DoAll(s, ops);
            && PublishQualification(t, packet, q, seen, identity, now, halts).1.Err?
            && WriteQualification(t, packet, q, seen, now, halts).1.Err?
            && ReadQualification(t, packet, q.body.turnId, now).Err?
  {
    FirstPacketWins(s, ops, q.body.turnId, q, seen, packet, identity, now, halts);
  }

  // ---------------------------------------------------------------------------------------
  // Identity, names, and where revocations come from
  // ---------------------------------------------------------------------------------------

  // An operation that expects any other identity than the one that is sealed, in id, session,
  // participant, project root or identity digest, is refused without effect; one that holds only an
  // id is refused for any other id; and a packet of another identity seeds nothing.
  lemma OtherIdentityIsRefused(s: Store, packet: Family, q: Qualification, seen: Observation, identity: Identity,
                               nonce: string, turn: string, id: Digest, now: int, halts: bool)
    ensures s.family.Some? && s.family.value.body.identity != identity ==>
              && Ensure(s, identity, nonce, now).0 == s && Ensure(s, identity, nonce, now).1.Err?
              && Publish(s, packet, identity).0 == s && Publish(s, packet, identity).1.Err?
              && PublishQualification(s, packet, q, seen, identity, now, halts).0 == s
              && PublishQualification(s, packet, q, seen, identity, now, halts).1.Err?
    ensures s.family.Some? && s.family.value.body.identity.id != packet.body.identity.id ==>
              && WriteQualification(s, packet, q, seen, now, halts).0 == s
              && WriteQualification(s, packet, q, seen, now, halts).1.Err?
              && Revoke(s, packet, id).0 == s && Revoke(s, packet, id).1.Err?
              && ReadQualification(s, packet, turn, now).Err?
    ensures s.family.None? && packet.body.identity != identity ==>
              && Publish(s, packet, identity).0 == s && Publish(s, packet, identity).1.Err?
              && PublishQualification(s, packet, q, seen, identity, now, halts).0 == s
              && PublishQualification(s, packet, q, seen, identity, now, halts).1.Err?
  {}

  // A family is read exactly when it is there, its fields and lists have their lengths, its seal
  // verifies, and it is what the reader expects.
  lemma ReadIff(s: Store, identity: Identity, id: FamilyId)
    ensures Read(s, Everything(identity)).Ok? <==> Sealing(s) && s.family.value.body.identity == identity
    ensures Read(s, IdOnly(id)).Ok? <==> Sealing(s) && s.family.value.body.identity.id == id
    ensures Read(s, IdOnly(id)).Ok? ==> s.family == Some(Read(s, IdOnly(id)).value)
    ensures Read(s, Everything(identity)).Ok? ==> s.family == Some(Read(s, Everything(identity)).value)
  {}

  predicate Sealing(s: Store) {
    && s.family.Some?
    && var body := s.family.value.body;
       && 1 <= |body.identity.session| <= 256 && 1 <= |body.identity.participant| <= 256 && 1 <= |body.nonce| <= 256
       && |body.links| <= 128 && |body.revocations| <= 128
       && s.family.value.auth == FamilyMac(body.nonce, body)
  }

  const SMALL := "abcdefghijklmnopqrstuvwxyz"
  const CAPITAL := "ABCDEFGHIJKLMNOPQRSTUVWXYZ"

  predicate PlainChar(c: char) {
    c in SMALL || c in CAPITAL || c in "0123456789" || c in "._-"
  }

  lemma SmallIff(c: char)
    ensures c in SMALL <==> 'a' <= c <= 'z'
  {
    if 'a' <= c <= 'z' { assert SMALL[c as int - 'a' as int] == c; }
  }

  lemma CapitalIff(c: char)
    ensures c in CAPITAL <==> 'A' <= c <= 'Z'
  {
    if 'A' <= c <= 'Z' { assert CAPITAL[c as int - 'A' as int] == c; }
  }

  lemma DigitIff(c: char)
    ensures c in "0123456789" <==> '0' <= c <= '9'
  {
    if '0' <= c <= '9' { assert "0123456789"[c as int - '0' as int] == c; }
  }

  lemma TurnCharIff(c: char)
    ensures TurnChar(c) <==> PlainChar(c)
  {
    SmallIff(c);
    CapitalIff(c);
    DigitIff(c);
  }

  // A qualification file has a non-empty name of letters, digits, dots, underscores and hyphens.
  ghost predicate Named(s: Store) {
    forall turn :: turn in s.quals ==>
      turn != "" && forall c :: c in turn ==> PlainChar(c)
  }

  lemma SafeTurnIsPlain(turn: string)
    requires SafeTurn(turn)
    ensures turn != "" && forall c :: c in turn ==> PlainChar(c)
  {
    forall c | c in turn ensures PlainChar(c) {
      var i :| 0 <= i < |turn| && turn[i] == c;
      TurnCharIff(c);
    }
  }

  lemma ConnectKeepsNamed(s: Store, current: Family, q: Qualification, seen: Observation, halts: bool)
    requires Named(s)
    ensures Named(Connect(s, current, q, seen, halts).0)
  {
    ConnectIsConnected(s, current, q, seen, halts);
    if SafeTurn(q.body.turnId) { SafeTurnIsPlain(q.body.turnId); }
  }

  lemma DoKeepsNamed(s: Store, op: Op)
    requires Named(s)
    ensures Named(Do(s, op))
  {
    match op
    case DoPublishQualification(packet, q, seen, identity, now, halts) =>
      var current := if s.family.None? then Unused(packet, identity) else Read(s, Everything(identity));
      if current.Ok? { ConnectKeepsNamed(s, current.value, q, seen, halts); }
    case DoWrite(packet, q, seen, now, halts) =>
      var current := Read(s, IdOnly(packet.body.identity.id));
      if current.Ok? { ConnectKeepsNamed(s, current.value, q, seen, halts); }
    case _ =>
  }

  // Over every history no file is ever written outside the directory of the family.
  lemma FilesStayInside(ops: seq<Op>)
    ensures Named(DoAll(Store(None, map[]), ops))
  {
    forall t, op | Named(t) ensures Named(Do(t, op)) { DoKeepsNamed(t, op); }
    Runs.Invariant(Do, Named, Store(None, map[]), ops);
  }

  function Revocations(s: Store): set<Digest> {
    if s.family.Some? then s.family.value.body.revocations else {}
  }

  lemma ConnectRevokesNothing(s: Store, current: Family, q: Qualification, seen: Observation, halts: bool)
    requires s.family == Some(current) || (s.family.None? && current.body.revocations == {})
    ensures Revocations(Connect(s, current, q, seen, halts).0) == Revocations(s)
  {}

  lemma LinkingRevokesNothing(s: Store, op: Op)
    requires op.DoPublishQualification? || op.DoWrite?
    ensures Revocations(Do(s, op)) == Revocations(s)
  {
    match op
    case DoPublishQualification(packet, q, seen, identity, now, halts) =>
      var current := if s.family.None? then Unused(packet, identity) else Read(s, Everything(identity));
      if current.Ok? { ConnectRevokesNothing(s, current.value, q, seen, halts); }
    case DoWrite(packet, q, seen, now, halts) =>
      var current := Read(s, IdOnly(packet.body.identity.id));
      if current.Ok? { ConnectRevokesNothing(s, current.value, q, seen, halts); }
  }

  lemma OnlyRevokeRevokes(s: Store, op: Op)
    ensures Revocations(Do(s, op)) <= Revocations(s) + if op.DoRevoke? then {op.id} else {}
  {
    if op.DoPublishQualification? || op.DoWrite? { LinkingRevokesNothing(s, op); }
  }

  predicate Asks(ops: seq<Op>, i: nat, id: Digest) {
    i < |ops| && ops[i].DoRevoke? && ops[i].id == id
  }

  // Over every history a family starts without revocations, and each that it has was asked for.
  lemma {:induction false} RevocationsWereAsked(s: Store, ops: seq<Op>, id: Digest)
    requires id !in Revocations(s) && id in Revocations(DoAll(s, ops))
    ensures exists i: nat :: Asks(ops, i, id)
    decreases |ops|
  {
    if ops == [] {
      assert false;
    } else {
      OnlyRevokeRevokes(s, ops[0]);
      if id in Revocations(Do(s, ops[0])) {
        assert Asks(ops, 0, id);
      } else {
        RevocationsWereAsked(Do(s, ops[0]), ops[1..], id);
        var i: nat :| Asks(ops[1..], i, id);
        assert Asks(ops, i + 1, id);
      }
    }
  }

  // From an empty directory: a family that is sealed for an identity with its derived id accepts the
  // qualification that is issued under its nonce for what was observed, gives it back to whoever
  // holds the new seal, and is found again, not sealed again.
  lemma IssuedIsPublished(identity: Identity, nonce: string, turn: string, q: Qualification, seen: Observation,
                          other: string, now: int)
    requires identity.id == DerivedId(identity.session, identity.participant, identity.projectRoot, identity.identitySha)
    requires 1 <= |identity.session| <= 256 && 1 <= |identity.participant| <= 256 && 1 <= |nonce| <= 256
    requires SafeTurn(turn) && seen.bound.route == q.body.route
    requires Issue(identity.id, turn, q.body.route, q.body.contract, Some(seen), q.body.expiresAt,
                   q.body.revocationId, nonce, now) == Ok(q)
    ensures var (s, f) := Ensure(Store(None, map[]), identity, nonce, now);
            && f.Ok? && s == Store(Some(f.value), map[]) && f.value.body.identity == identity && f.value.body.nonce == nonce
            && Ensure(s, identity, other, now) == (s, f)
            && var (t, r) := WriteQualification(s, f.value, q, seen, now, false);
            && r == Ok(Link(q, seen.bound)) && t.quals == map[turn := q] && t.family.Some?
            && t.family.value.body == f.value.body.(links := map[turn := Link(q, seen.bound)])
            && ReadQualification(t, t.family.value, turn, now) == Ok((q, seen.bound))
  {
    var (s, f) := Ensure(Store(None, map[]), identity, nonce, now);
    assert Admit(f.value, q, seen, now).None?;
    var (t, r) := WriteQualification(s, f.value, q, seen, now, false);
    assert (t, r) == Connect(s, f.value, q, seen, false);
    assert t.family.value.body.links == map[turn := Link(q, seen.bound)];
    assert |t.family.value.body.links| == 1;
    ConnectKeeps(s, f.value, q, seen, false);
    OrphansAreNeverRead(t, t.family.value, turn, now);
  }

  // ---------------------------------------------------------------------------------------
  // The size limit
  // ---------------------------------------------------------------------------------------

  predicate Readable(s: Store) {
    s.family.Some? && Read(s, IdOnly(s.family.value.body.identity.id)).Ok?
  }

  // Writers do not check the limit that readers enforce: a successful revocation leaves a readable
  // family exactly when the revocation was already there or fewer than 128 were.
  lemma RevocationStaysReadableIff(s: Store, snapshot: Family, id: Digest)
    requires Revoke(s, snapshot, id).1.Ok?
    ensures Readable(Revoke(s, snapshot, id).0) <==>
            id in s.family.value.body.revocations || |s.family.value.body.revocations| < MAX_QUALIFICATIONS
  {
    var f := s.family.value;
    if id !in f.body.revocations {
      assert |f.body.revocations + {id}| == |f.body.revocations| + 1;
    }
  }

  // Once a family is too long to read, no operation ever changes or answers for it again.
  lemma {:induction false} OverlongIsForever(s: Store, ops: seq<Op>)
    requires s.family.Some? && !ValidShape(s.family.value)
    ensures DoAll(s, ops) == s && !Readable(DoAll(s, ops))
    decreases |ops|
  {
    if ops == [] {
    } else {
      assert Do(s, ops[0]) == s;
      OverlongIsForever(s, ops[1..]);
    }
  }

  const IDENTITY := Identity(DerivedId("s", "p", "r", "i"), "s", "p", "r", "i")

  function Numbered(n: nat): Digest {
    OtherDigest(Text.Decimal(n))
  }

  // A family with exactly these revocations and nothing else.
  ghost predicate Revokes(s: Store, n: nat) {
    && s.family.Some?
    && s.family.value == Seal(Sealed(IDENTITY, "n", map[], s.family.value.body.revocations, 0))
    && |s.family.value.body.revocations| == n
    && forall d :: d in s.family.value.body.revocations ==> exists i: nat :: i < n && d == Numbered(i)
  }

  lemma OneMoreRevocation(s: Store, n: nat)
    requires Revokes(s, n) && n <= MAX_QUALIFICATIONS
    ensures Revokes(Do(s, DoRevoke(s.family.value, Numbered(n))), n + 1)
  {
    var f := s.family.value;
    if Numbered(n) in f.body.revocations {
      var i: nat :| i < n && Numbered(n) == Numbered(i);
      Text.DecimalInjective(n, i);
    }
    var t := Do(s, DoRevoke(f, Numbered(n)));
    assert t.family == Some(Seal(f.body.(revocations := f.body.revocations + {Numbered(n)})));
    forall d | d in t.family.value.body.revocations ensures exists i: nat :: i < n + 1 && d == Numbered(i) {
      if d in f.body.revocations { var i: nat :| i < n && d == Numbered(i); }
    }
  }

  lemma {:induction false} ReachRevocations(n: nat) returns (ops: seq<Op>)
    requires n <= MAX_QUALIFICATIONS + 1
    ensures Revokes(DoAll(Store(None, map[]), ops), n)
  {
    var s := Store(None, map[]);
    if n == 0 {
      ops := [DoEnsure(IDENTITY, "n", 0)];
      assert Runs.Run(Do, Do(s, ops[0]), ops[1..]) == Do(s, ops[0]);
    } else {
      var before := ReachRevocations(n - 1);
      var t := DoAll(s, before);
      var op := DoRevoke(t.family.value, Numbered(n - 1));
      OneMoreRevocation(t, n - 1);
      ops := before + [op];
      Runs.RunAppend(Do, s, before, [op]);
      assert Runs.Run(Do, Do(t, op), [op][1..]) == Do(t, op);
    }
  }

  // The limit is passed: 129 successful revocations make a family that nothing ever reads again.
  lemma RevocationsBrickFamily() returns (ops: seq<Op>)
    ensures var s := DoAll(Store(None, map[]), ops);
            s.family.Some? && forall later :: DoAll(s, later) == s && !Readable(DoAll(s, later))
  {
    ops := ReachRevocations(MAX_QUALIFICATIONS + 1);
    var s := DoAll(Store(None, map[]), ops);
    forall later ensures DoAll(s, later) == s && !Readable(DoAll(s, later)) { OverlongIsForever(s, later); }
  }

  // A revocation that was ever written is seen by every later publication and write.
  lemma RevokedStaysRefused(s: Store, ops: seq<Op>, q: Qualification, seen: Observation,
                            packet: Family, identity: Identity, now: int, halts: bool)
    requires Linked(s) && s.family.Some? && q.body.revocationId in s.family.value.body.revocations
    ensures var t := DoAll(s, ops);
            && PublishQualification(t, packet, q, seen, identity, now, halts).0 == t
            && PublishQualification(t, packet, q, seen, identity, now, halts).1.Err?
            && WriteQualification(t, packet, q, seen, now, halts).0 == t
            && WriteQualification(t, packet, q, seen, now, halts).1.Err?
  {
    HistoryKeeps(s, ops);
  }

  // A revocation written for one qualification stops, in every later state, every qualification of
  // the same launch material, and by itself no other.
  lemma RevocationStopsMaterial(s: Store, snapshot: Family, p: Qualification, ops: seq<Op>, q: Qualification,
                                seen: Observation, packet: Family, identity: Identity, now: int, halts: bool)
    requires Linked(s) && Revoke(s, snapshot, p.body.revocationId).1.Ok?
    requires Valid(p, None, None, None, None, now) && Valid(q, None, None, None, None, now)
    ensures var r := Revoke(s, snapshot, p.body.revocationId).0;
            && r.family.Some?
            && (q.body.revocationId in r.family.value.body.revocations <==>
                  q.body.route == p.body.route || q.body.revocationId in s.family.value.body.revocations)
            && (q.body.route == p.body.route ==>
                  && PublishQualification(DoAll(r, ops), packet, q, seen, identity, now, halts).1.Err?
                  && WriteQualification(DoAll(r, ops), packet, q, seen, now, halts).1.Err?)
  {
    RevocationCoversMaterial(p, q, now);
    RevokeKeeps(s, snapshot, p.body.revocationId);
    var r := Revoke(s, snapshot, p.body.revocationId).0;
    if q.body.route == p.body.route { RevokedStaysRefused(r, ops, q, seen, packet, identity, now, halts); }
  }
}

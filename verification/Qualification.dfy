/** The chat launch qualification: the record that the source family and the launch guard check.
  *
  * HMAC and SHA-256 are injective constructors: two tags or digests are equal exactly when they
  * were made from equal inputs.
  */
module Qualification {
  import opened Wrappers
  import Text

  // The fields of a launch observation that outlive it (binding_projection).
  datatype Projection = Projection(route: Route, rest: string)

  datatype Observation = Observation(bound: Projection, transient: string)

  // The nine fields that an observation and a qualification must agree on.
  datatype Route = Route(
    backend: string,
    transport: string,
    registryGeneration: int,
    registryDigest: string,
    adapter: string,
    adapterVersion: string,
    externalCliVersion: string,
    executableSha: string,
    launchMaterialSha: string)

  datatype FamilyId = DerivedId(session: string, participant: string, projectRoot: string, identitySha: string)
                    | OtherId(text: string)

  // revocation_id_for digests the operation, the route and the material contract.
  datatype Digest = RevocationOf(operation: string, route: Route, contract: string) | OtherDigest(text: string)

  datatype Body = Body(
    familyId: FamilyId,
    turnId: string,
    operation: string,
    route: Route,
    contract: string,
    observation: Option<Projection>,
    status: string,
    expiresAt: int,
    revocationId: Digest)

  datatype Mac = Mac(token: string, body: Body)

  datatype Qualification = Qualification(body: Body, auth: Mac)

  // The resolver-owned allowlist of material contracts.
  function ContractFor(route: Route): Option<string> {
    if route.backend == "claude" && route.transport == "subprocess"
       && route.adapter == "summon-cli-subprocess" && route.adapterVersion == "summon-executor/3.4.0"
    then Some("summon-claude-subprocess-material/v1")
    else None
  }

  predicate Undeclared(version: string) {
    var v := Text.Lower(version);
    v == "not_declared" || v == "unavailable" || v == "unknown" || v == "none"
  }

  predicate WellFormed(b: Body) {
    && b.turnId != ""
    && b.operation == "chat_resume"
    && b.route.backend != "" && b.route.transport != "" && b.route.adapter != ""
    && b.route.adapterVersion != "" && b.route.externalCliVersion != "" && b.contract != ""
    && !Undeclared(b.route.externalCliVersion)
    && b.route.registryGeneration >= 1
    && b.revocationId == RevocationOf(b.operation, b.route, b.contract)
    && ContractFor(b.route) == Some(b.contract)
    && b.status == "qualified"
  }

  // valid(): None stands for an argument that the caller left out.
  predicate Valid(q: Qualification, token: Option<string>, seen: Option<Projection>,
                  familyId: Option<FamilyId>, turnId: Option<string>, now: int) {
    && (familyId.Some? ==> q.body.familyId == familyId.value)
    && (turnId.Some? ==> q.body.turnId == turnId.value)
    && WellFormed(q.body)
    && now < q.body.expiresAt
    && (token.Some? ==> q.auth == Mac(token.value, q.body))
    && (seen.Some? ==>
          && seen.value.route == q.body.route
          && (q.body.observation.Some? ==> q.body.observation == seen))
  }

  // issue(): sign the canonical projection, then refuse what valid() would refuse.
  function Issue(familyId: FamilyId, turnId: string, route: Route, contract: string,
                 observation: Option<Observation>, expiresAt: int, revocationId: Digest,
                 token: string, now: int): Result<Qualification, string> {
    var linked := if observation.Some? then Some(observation.value.bound) else None;
    var body := Body(familyId, turnId, "chat_resume", route, contract, linked, "qualified", expiresAt, revocationId);
    if token == "" then Err("chat qualification token is unavailable")
    else
      var q := Qualification(body, Mac(token, body));
      if Valid(q, Some(token), None, None, None, now) then Ok(q) else Err("chat qualification fields are invalid")
  }

  // Whatever is valid was qualified for the one reviewed launch material, by a declared CLI version
  // and a registered generation, has not expired, and names the revocation that covers it; and each
  // argument that is given was met.
  lemma ValidIsReviewed(q: Qualification, token: Option<string>, seen: Option<Projection>,
                        familyId: Option<FamilyId>, turnId: Option<string>, now: int)
    requires Valid(q, token, seen, familyId, turnId, now)
    ensures q.body.operation == "chat_resume" && q.body.status == "qualified" && q.body.turnId != ""
    ensures q.body.route.backend == "claude" && q.body.route.transport == "subprocess"
    ensures q.body.route.adapter == "summon-cli-subprocess"
    ensures q.body.route.adapterVersion == "summon-executor/3.4.0"
    ensures q.body.contract == "summon-claude-subprocess-material/v1"
    ensures q.body.route.registryGeneration >= 1 && now < q.body.expiresAt
    ensures q.body.route.externalCliVersion != ""
    ensures Text.Lower(q.body.route.externalCliVersion) !in ["not_declared", "unavailable", "unknown", "none"]
    ensures q.body.revocationId == RevocationOf(q.body.operation, q.body.route, q.body.contract)
    ensures token.Some? ==> q.auth == Mac(token.value, q.body)
    ensures familyId.Some? ==> q.body.familyId == familyId.value
    ensures turnId.Some? ==> q.body.turnId == turnId.value
    ensures seen.Some? ==> seen.value.route == q.body.route && (q.body.observation == None || q.body.observation == seen)
  {}

  // The reviewed material of a declared CLI version is what issue accepts.
  lemma ReviewedIsIssued(familyId: FamilyId, turnId: string, route: Route, observation: Option<Observation>,
                         expiresAt: int, token: string, now: int)
    requires turnId != "" && token != "" && now < expiresAt
    requires route.backend == "claude" && route.transport == "subprocess"
    requires route.adapter == "summon-cli-subprocess" && route.adapterVersion == "summon-executor/3.4.0"
    requires route.registryGeneration >= 1 && route.externalCliVersion != ""
    requires Text.Lower(route.externalCliVersion) !in ["not_declared", "unavailable", "unknown", "none"]
    ensures var contract := "summon-claude-subprocess-material/v1";
            Issue(familyId, turnId, route, contract, observation, expiresAt,
                  RevocationOf("chat_resume", route, contract), token, now).Ok?
  {
    NamedVersion(route.externalCliVersion);
  }

  lemma NamedVersion(version: string)
    requires Text.Lower(version) !in ["not_declared", "unavailable", "unknown", "none"]
    ensures !Undeclared(version)
  {
    var names := ["not_declared", "unavailable", "unknown", "none"];
    assert names[0] in names && names[1] in names && names[2] in names && names[3] in names;
  }

  // Issuing and validating are inverse: what issue returns stays valid for its family, turn and
  // token until it expires, and whatever is valid under a token is what issue returns for its fields.
  lemma IssueRoundTrip(q: Qualification, token: string, now: int)
    requires token != ""
    ensures Valid(q, Some(token), None, None, None, now) <==>
            exists observation: Option<Observation> ::
              Issue(q.body.familyId, q.body.turnId, q.body.route, q.body.contract, observation,
                    q.body.expiresAt, q.body.revocationId, token, now) == Ok(q)
  {
    if Valid(q, Some(token), None, None, None, now) {
      var observation := if q.body.observation.Some? then Some(Observation(q.body.observation.value, "")) else None;
      assert Issue(q.body.familyId, q.body.turnId, q.body.route, q.body.contract, observation,
                   q.body.expiresAt, q.body.revocationId, token, now) == Ok(q);
    }
  }

  // A tag fixes its record: no two records share one under valid tokens, and no record is valid
  // under two tokens.
  lemma TagsAreBinding(p: Qualification, q: Qualification, s: string, t: string, now: int)
    requires Valid(p, Some(s), None, None, None, now) && Valid(q, Some(t), None, None, None, now)
    ensures p.auth == q.auth <==> p == q && s == t
  {}

  // A revocation identity covers exactly the qualifications of one launch material: two valid
  // records share it if and only if they qualify the same route, whatever their turn or family.
  lemma RevocationCoversMaterial(p: Qualification, q: Qualification, now: int)
    requires Valid(p, None, None, None, None, now) && Valid(q, None, None, None, None, now)
    ensures p.body.revocationId == q.body.revocationId <==> p.body.route == q.body.route
  {
    assert p.body.contract == q.body.contract;
  }
}

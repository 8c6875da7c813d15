/** Endpoints, boot contexts and the redemption of credentials against them. The log is
    the history the properties are stated over; no decision reads it. */
module Endpoints {
  import opened Workflow
  import opened Credentials

  datatype BootContext = BootContext(
    id: Uuid, verifier: Verifier, expiresAt: int, signal: string, nonce: Uuid, resolved: Option<Uuid>)

  datatype CurrentBoot = CurrentBoot(contextId: Uuid, nonce: Uuid, trusted: bool)

  datatype Endpoint = Endpoint(id: Uuid, signal: string, chain: Chain, currentBoot: Option<CurrentBoot>)

  // ---------------------------------------------------------------------
  // Transitions
  // ---------------------------------------------------------------------

  datatype Conflict = ResolvedElsewhere(existing: Uuid)

  /** A context resolves to one Endpoint for good. */
  function Resolve(context: BootContext, endpointId: Uuid): Result<BootContext, Conflict> {
    match context.resolved
    case None => Ok(context.(resolved := Some(endpointId)))
    case Some(existing) => if existing == endpointId then Ok(context) else Err(ResolvedElsewhere(existing))
  }

  predicate AdmitsFirstRedemption(context: BootContext, presented: Credential, now: int) {
    && presented.kind.Enrollment?
    && presented.lookupId == context.id
    && now < context.expiresAt
    && Verifies(context.verifier, presented.secret)
  }

  datatype Redeemed =
    | Established(endpoint: Endpoint, resolved: Option<BootContext>)
    | RedemptionRejected

  function FirstContact(
    context: BootContext, presented: Credential, minted: Credential, endpointId: Uuid, now: int, ttl: int)
    : Result<Redeemed, Conflict>
  {
    if context.resolved.Some? || !AdmitsFirstRedemption(context, presented, now) then Ok(RedemptionRejected)
    else match Establish(presented.lookupId, context.verifier, minted, now, ttl)
      case None => Ok(RedemptionRejected)
      case Some(chain) =>
        var boot := CurrentBoot(context.id, context.nonce, false);
        match Resolve(context, endpointId)
        case Err(conflict) => Err(conflict)
        case Ok(resolved) => Ok(Established(Endpoint(endpointId, context.signal, chain, Some(boot)), Some(resolved)))
  }

  function RedeemKnown(endpoint: Endpoint, presented: Credential, minted: Credential, now: int, ttl: int): Redeemed {
    match Authenticate(endpoint.chain, presented, minted, now, ttl)
    case Accepted(chain, _, _) => Established(endpoint.(chain := chain), None)
    case AuthRejected => RedemptionRejected
  }

  function GenuineReboot(
    context: BootContext, candidate: Endpoint, presented: Credential, minted: Credential, now: int, ttl: int)
    : Result<Redeemed, Conflict>
  {
    if context.resolved.Some? || !AdmitsFirstRedemption(context, presented, now) || candidate.chain.revoked then
      Ok(RedemptionRejected)
    else match Establish(presented.lookupId, context.verifier, minted, now, ttl)
      case None => Ok(RedemptionRejected)
      case Some(chain) =>
        match Resolve(context, candidate.id)
        case Err(conflict) => Err(conflict)
        case Ok(resolved) =>
          var boot := CurrentBoot(context.id, context.nonce, false);
          Ok(Established(candidate.(chain := chain, currentBoot := Some(boot)), Some(resolved)))
  }

  function RevokeCredential(endpoint: Endpoint): Endpoint {
    endpoint.(chain := Revoke(endpoint.chain))
  }

  /** Evidence counts only for the boot that is current. */
  function EstablishTrustedBootstrap(endpoint: Endpoint, nonce: Uuid): Option<Endpoint> {
    match endpoint.currentBoot
    case None => None
    case Some(boot) =>
      if boot.nonce != nonce then None
      else Some(endpoint.(currentBoot := Some(boot.(trusted := true))))
  }

  // ---------------------------------------------------------------------
  // The registry
  // ---------------------------------------------------------------------

  datatype Entry =
    | Booted(endpoint: Uuid, presented: Credential, issued: Credential, contextId: Uuid, nonce: Uuid)
    | Rotated(endpoint: Uuid, presented: Credential, issued: Credential)
    | Evidence(endpoint: Uuid, nonce: Uuid)
    | Revocation(endpoint: Uuid)

  /** `lookups` maps the identifiers of current chains to their Endpoint; `used` are all
      identifiers ever issued. */
  datatype Registry = Registry(
    endpoints: map<Uuid, Endpoint>,
    contexts: map<Uuid, BootContext>,
    lookups: map<Uuid, Uuid>,
    used: set<Uuid>,
    log: seq<Entry>)

  function ChainIds(chain: Chain): set<Uuid> {
    {chain.predecessor.lookupId} + (if chain.successor.Some? then {chain.successor.value.lookupId} else {})
  }

  /** Replaces the projection of one Endpoint's chain. */
  function Project(lookups: map<Uuid, Uuid>, endpointId: Uuid, chain: Chain): map<Uuid, Uuid> {
    (map id | id in lookups && lookups[id] != endpointId :: lookups[id])
    + (map id | id in ChainIds(chain) :: endpointId)
  }

  function Persist(r: Registry, endpoint: Endpoint, context: Option<BootContext>, minted: Credential, entry: Entry)
    : Registry
  {
    Registry(r.endpoints[endpoint.id := endpoint],
             if context.Some? then r.contexts[context.value.id := context.value] else r.contexts,
             Project(r.lookups, endpoint.id, endpoint.chain),
             r.used + {minted.lookupId},
             r.log + [entry])
  }

  function Record(r: Registry, redeemed: Redeemed, presented: Credential, minted: Credential): Registry {
    match redeemed
    case RedemptionRejected => r
    case Established(endpoint, None) =>
      Persist(r, endpoint, None, minted, Rotated(endpoint.id, presented, minted))
    case Established(endpoint, Some(context)) =>
      Persist(r, endpoint, Some(context), minted, Booted(endpoint.id, presented, minted, context.id, context.nonce))
  }

  ghost predicate HasSignal(r: Registry, endpointId: Uuid, signal: string) {
    endpointId in r.endpoints && r.endpoints[endpointId].signal == signal
  }

  /** Routing: a current chain's identifier leads to its Endpoint; otherwise an enrollment
      credential leads to its boot context, and by its signal to a known Endpoint. */
  ghost function Decide(r: Registry, presented: Credential, minted: Credential, newId: Uuid, now: int, ttl: int)
    : Redeemed
  {
    var id := presented.lookupId;
    if id in r.lookups then
      if r.lookups[id] in r.endpoints then RedeemKnown(r.endpoints[r.lookups[id]], presented, minted, now, ttl)
      else RedemptionRejected
    else if presented.kind.Runtime? || id !in r.contexts then RedemptionRejected
    else
      var context := r.contexts[id];
      if context.resolved.Some? then
        if context.resolved.value in r.endpoints then
          RedeemKnown(r.endpoints[context.resolved.value], presented, minted, now, ttl)
        else RedemptionRejected
      else
        var outcome :=
          if exists e :: HasSignal(r, e, context.signal) then
            var e :| HasSignal(r, e, context.signal);
            GenuineReboot(context, r.endpoints[e], presented, minted, now, ttl)
          else FirstContact(context, presented, minted, newId, now, ttl);
        if outcome.Ok? then outcome.value else RedemptionRejected
  }

  datatype Step =
    | IssueContext(context: BootContext)
    | Redeem(presented: Credential, minted: Credential, newId: Uuid, now: int, ttl: int)
    | RevokeStep(endpointId: Uuid)
    | EvidenceStep(endpointId: Uuid, nonce: Uuid)

  /** Generated identifiers were never issued before, nor are they the one being presented. */
  predicate Enabled(r: Registry, step: Step) {
    match step
    case IssueContext(context) => context.id !in r.used && context.resolved.None?
    case Redeem(presented, minted, newId, _, _) =>
      && minted.kind.Runtime? && minted.lookupId !in r.used && minted.lookupId != presented.lookupId
      && newId !in r.endpoints
    case RevokeStep(endpointId) => endpointId in r.endpoints
    case EvidenceStep(endpointId, _) => endpointId in r.endpoints
  }

  ghost function Next(r: Registry, step: Step): Registry
    requires Enabled(r, step)
  {
    match step
    case IssueContext(context) => r.(contexts := r.contexts[context.id := context], used := r.used + {context.id})
    case Redeem(presented, minted, newId, now, ttl) =>
      Record(r, Decide(r, presented, minted, newId, now, ttl), presented, minted)
    case RevokeStep(endpointId) =>
      r.(endpoints := r.endpoints[endpointId := RevokeCredential(r.endpoints[endpointId])],
         log := r.log + [Revocation(endpointId)])
    case EvidenceStep(endpointId, nonce) =>
      (match EstablishTrustedBootstrap(r.endpoints[endpointId], nonce)
       case None => r
       case Some(endpoint) =>
         r.(endpoints := r.endpoints[endpointId := endpoint], log := r.log + [Evidence(endpointId, nonce)]))
  }

  const EMPTY := Registry(map[], map[], map[], {}, [])

  ghost predicate ValidRun(r: Registry, run: seq<Step>)
    decreases |run|
  {
    run == [] || (Enabled(r, run[0]) && ValidRun(Next(r, run[0]), run[1..]))
  }

  ghost function Exec(r: Registry, run: seq<Step>): Registry
    requires ValidRun(r, run)
    decreases |run|
  {
    if run == [] then r else Exec(Next(r, run[0]), run[1..])
  }

  // ---------------------------------------------------------------------
  // The history of one Endpoint
  // ---------------------------------------------------------------------

  /** The last successful authentication: what was presented and what was issued. */
  function LastAuthentication(log: seq<Entry>, e: Uuid): Option<(Credential, Credential)> {
    if log == [] then None
    else
      var last := log[|log| - 1];
      if last.endpoint == e && (last.Booted? || last.Rotated?) then Some((last.presented, last.issued))
      else LastAuthentication(log[..|log| - 1], e)
  }

  function LastBoot(log: seq<Entry>, e: Uuid): Option<(Uuid, Uuid)> {
    if log == [] then None
    else
      var last := log[|log| - 1];
      if last.endpoint == e && last.Booted? then Some((last.contextId, last.nonce))
      else LastBoot(log[..|log| - 1], e)
  }

  /** Evidence with this nonce was accepted since the Endpoint last booted. */
  function EvidenceSinceBoot(log: seq<Entry>, e: Uuid, nonce: Uuid): bool {
    if log == [] then false
    else
      var last := log[|log| - 1];
      if last.endpoint == e && last.Booted? then false
      else last == Evidence(e, nonce) || EvidenceSinceBoot(log[..|log| - 1], e, nonce)
  }

  function BootsFrom(log: seq<Entry>, contextId: Uuid): nat {
    if log == [] then 0
    else
      var last := log[|log| - 1];
      BootsFrom(log[..|log| - 1], contextId) + (if last.Booted? && last.contextId == contextId then 1 else 0)
  }

  // ---------------------------------------------------------------------
  // The invariant
  // ---------------------------------------------------------------------

  /** The chain and the current boot of an Endpoint are what its history says. */
  ghost predicate Tells(log: seq<Entry>, endpoint: Endpoint) {
    && var last := LastAuthentication(log, endpoint.id);
    && last.Some? && endpoint.chain.successor.Some?
    && For(endpoint.chain.predecessor, last.value.0) && For(endpoint.chain.successor.value, last.value.1)
    && endpoint.chain.predecessor.lookupId != endpoint.chain.successor.value.lookupId
    && (endpoint.chain.revoked <==> Revocation(endpoint.id) in log)
    && endpoint.currentBoot.Some?
    && LastBoot(log, endpoint.id) == Some((endpoint.currentBoot.value.contextId, endpoint.currentBoot.value.nonce))
    && (endpoint.currentBoot.value.trusted <==>
          EvidenceSinceBoot(log, endpoint.id, endpoint.currentBoot.value.nonce))
  }

  ghost predicate EndpointsInv(r: Registry) {
    && (forall e :: e in r.endpoints ==> r.endpoints[e].id == e && Tells(r.log, r.endpoints[e]))
    && (forall e, f :: e in r.endpoints && f in r.endpoints && e != f ==> r.endpoints[e].signal != r.endpoints[f].signal)
    && (forall entry :: entry in r.log ==> entry.endpoint in r.endpoints)
  }

  predicate InChain(endpoints: map<Uuid, Endpoint>, e: Uuid, id: Uuid) {
    e in endpoints && id in ChainIds(endpoints[e].chain)
  }

  /** Lookups are exactly the identifiers of the chains. */
  ghost predicate LookupsInv(r: Registry) {
    && (forall id :: id in r.lookups ==> InChain(r.endpoints, r.lookups[id], id) && id in r.used)
    && (forall e, id :: InChain(r.endpoints, e, id) ==> id in r.lookups && r.lookups[id] == e)
  }

  ghost predicate ContextsInv(r: Registry) {
    forall id :: id in r.contexts ==>
      var context := r.contexts[id];
      && context.id == id && id in r.used
      && (context.resolved.Some? ==> context.resolved.value in r.endpoints)
      && (context.resolved.None? ==> id !in r.lookups)
      && BootsFrom(r.log, id) == (if context.resolved.Some? then 1 else 0)
  }

  ghost predicate BootsKnown(r: Registry) {
    forall id :: id !in r.contexts ==> BootsFrom(r.log, id) == 0
  }

  ghost predicate Inv(r: Registry) {
    EndpointsInv(r) && LookupsInv(r) && ContextsInv(r) && BootsKnown(r)
  }
}

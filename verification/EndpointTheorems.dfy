/** What holds of Endpoints, boot contexts and credentials in every run of the registry. */
module EndpointTheorems {
  import opened Workflow
  import opened Credentials
  import opened Endpoints

  // ---------------------------------------------------------------------
  // One step of the history
  // ---------------------------------------------------------------------

  /** An entry about one Endpoint leaves the history of the others alone. */
  lemma OthersHistory(log: seq<Entry>, entry: Entry, endpoint: Endpoint)
    requires entry.endpoint != endpoint.id && Tells(log, endpoint)
    ensures Tells(log + [entry], endpoint)
  {
  }

  lemma AppendHistory(log: seq<Entry>, entry: Entry, e: Uuid, nonce: Uuid)
    requires entry.endpoint == e
    ensures LastAuthentication(log + [entry], e) ==
            if entry.Booted? || entry.Rotated? then Some((entry.presented, entry.issued)) else LastAuthentication(log, e)
    ensures LastBoot(log + [entry], e) ==
            if entry.Booted? then Some((entry.contextId, entry.nonce)) else LastBoot(log, e)
    ensures EvidenceSinceBoot(log + [entry], e, nonce) ==
            (!entry.Booted? && (entry == Evidence(e, nonce) || EvidenceSinceBoot(log, e, nonce)))
  {
  }

  lemma AppendBoots(log: seq<Entry>, entry: Entry, id: Uuid)
    ensures BootsFrom(log + [entry], id) ==
            BootsFrom(log, id) + (if entry.Booted? && entry.contextId == id then 1 else 0)
  {
  }

  // ---------------------------------------------------------------------
  // Persisting a redemption
  // ---------------------------------------------------------------------

  /** A redemption whose chain takes identifiers from nobody else. */
  ghost predicate Takes(r: Registry, endpoint: Endpoint, minted: Credential, own: set<Uuid>) {
    && ChainIds(endpoint.chain) <= own + {minted.lookupId}
    && minted.lookupId !in r.used
    && own <= r.used
    && forall id :: id in own && id in r.lookups ==> r.lookups[id] == endpoint.id
  }

  lemma LookupsPersist(
    r: Registry, endpoint: Endpoint, context: Option<BootContext>, minted: Credential, entry: Entry, own: set<Uuid>)
    requires LookupsInv(r) && Takes(r, endpoint, minted, own)
    ensures LookupsInv(Persist(r, endpoint, context, minted, entry))
  {
    var r' := Persist(r, endpoint, context, minted, entry);
    forall e, id | InChain(r'.endpoints, e, id) ensures id in r'.lookups && r'.lookups[id] == e {
      assert e != endpoint.id ==> InChain(r.endpoints, e, id);
    }
    forall id | id in r'.lookups ensures InChain(r'.endpoints, r'.lookups[id], id) && id in r'.used {
      assert id in r.lookups ==> InChain(r.endpoints, r.lookups[id], id) && id in r.used;
    }
  }

  lemma EndpointsPersist(
    r: Registry, endpoint: Endpoint, context: Option<BootContext>, minted: Credential, entry: Entry)
    requires EndpointsInv(r) && entry.endpoint == endpoint.id && Tells(r.log + [entry], endpoint)
    requires forall e :: e in r.endpoints && e != endpoint.id ==> r.endpoints[e].signal != endpoint.signal
    ensures EndpointsInv(Persist(r, endpoint, context, minted, entry))
  {
    var r' := Persist(r, endpoint, context, minted, entry);
    forall e | e in r'.endpoints ensures r'.endpoints[e].id == e && Tells(r'.log, r'.endpoints[e]) {
      if e != endpoint.id {
        OthersHistory(r.log, entry, r.endpoints[e]);
      }
    }
  }

  /** Contexts that are neither resolved nor booted by a step keep their standing. */
  lemma ContextsKeep(r: Registry, r': Registry)
    requires ContextsInv(r) && BootsKnown(r)
    requires r'.contexts == r.contexts && r.used <= r'.used && r.endpoints.Keys <= r'.endpoints.Keys
    requires forall id :: BootsFrom(r'.log, id) == BootsFrom(r.log, id)
    requires forall id :: id in r'.lookups && id in r.used ==> id in r.lookups
    ensures ContextsInv(r') && BootsKnown(r')
  {
  }

  // ---------------------------------------------------------------------
  // Rotations
  // ---------------------------------------------------------------------

  lemma RotationKeeps(r: Registry, e: Uuid, presented: Credential, minted: Credential, now: int, ttl: int)
    requires Inv(r) && e in r.endpoints && minted.kind.Runtime? && minted.lookupId !in r.used
    requires RedeemKnown(r.endpoints[e], presented, minted, now, ttl).Established?
    ensures Inv(Record(r, RedeemKnown(r.endpoints[e], presented, minted, now, ttl), presented, minted))
  {
    var before := r.endpoints[e];
    var after := RedeemKnown(before, presented, minted, now, ttl).endpoint;
    var entry := Rotated(e, presented, minted);
    OwnIds(r, e);
    LookupsPersist(r, after, None, minted, entry, ChainIds(before.chain));
    RotationTells(r.log, before, presented, minted, now, ttl);
    EndpointsPersist(r, after, None, minted, entry);
    RotationContexts(r, after, minted, entry);
  }

  lemma OwnIds(r: Registry, e: Uuid)
    requires LookupsInv(r) && e in r.endpoints
    ensures forall id :: id in ChainIds(r.endpoints[e].chain) ==> id in r.lookups && r.lookups[id] == e && id in r.used
  {
    forall id | id in ChainIds(r.endpoints[e].chain) ensures id in r.lookups && r.lookups[id] == e && id in r.used {
      assert InChain(r.endpoints, e, id);
    }
  }

  lemma RotationContexts(r: Registry, after: Endpoint, minted: Credential, entry: Entry)
    requires ContextsInv(r) && BootsKnown(r) && entry.Rotated? && minted.lookupId !in r.used
    requires forall id :: id in ChainIds(after.chain) && id in r.used ==> id in r.lookups
    ensures ContextsInv(Persist(r, after, None, minted, entry)) && BootsKnown(Persist(r, after, None, minted, entry))
  {
  }

  lemma RotationTells(log: seq<Entry>, before: Endpoint, presented: Credential, minted: Credential, now: int, ttl: int)
    requires Tells(log, before) && minted.kind.Runtime?
    requires minted.lookupId !in ChainIds(before.chain)
    requires RedeemKnown(before, presented, minted, now, ttl).Established?
    ensures Tells(log + [Rotated(before.id, presented, minted)],
                  RedeemKnown(before, presented, minted, now, ttl).endpoint)
  {
  }

  // ---------------------------------------------------------------------
  // First contacts and reboots
  // ---------------------------------------------------------------------

  /** What a boot establishes: a chain of the enrollment credential and the minted one, an
      untrusted current boot, and the resolution of its context. */
  ghost predicate BootOf(
    r: Registry, context: BootContext, presented: Credential, minted: Credential, redeemed: Redeemed)
  {
    && redeemed.Established?
    && redeemed.resolved == Some(context.(resolved := Some(redeemed.endpoint.id)))
    && presented.lookupId == context.id && Verifies(context.verifier, presented.secret)
    && For(redeemed.endpoint.chain.predecessor, presented)
    && redeemed.endpoint.chain.successor.Some? && For(redeemed.endpoint.chain.successor.value, minted)
    && !redeemed.endpoint.chain.revoked
    && redeemed.endpoint.currentBoot == Some(CurrentBoot(context.id, context.nonce, false))
    && redeemed.endpoint.signal == context.signal
    && Revocation(redeemed.endpoint.id) !in r.log
    && (forall e :: e in r.endpoints && e != redeemed.endpoint.id ==> r.endpoints[e].signal != context.signal)
  }

  lemma BootKeeps(r: Registry, context: BootContext, presented: Credential, minted: Credential, redeemed: Redeemed)
    requires Inv(r) && context.id in r.contexts && r.contexts[context.id] == context && context.resolved.None?
    requires minted.lookupId !in r.used && BootOf(r, context, presented, minted, redeemed)
    ensures Inv(Record(r, redeemed, presented, minted))
  {
    var endpoint := redeemed.endpoint;
    var entry := Booted(endpoint.id, presented, minted, context.id, context.nonce);
    LookupsPersist(r, endpoint, redeemed.resolved, minted, entry, {context.id});
    AppendHistory(r.log, entry, endpoint.id, context.nonce);
    EndpointsPersist(r, endpoint, redeemed.resolved, minted, entry);
    BootContextsKeep(r, context, minted, redeemed, entry);
  }

  lemma BootContextsKeep(r: Registry, context: BootContext, minted: Credential, redeemed: Redeemed, entry: Entry)
    requires ContextsInv(r) && BootsKnown(r) && context.id in r.contexts && r.contexts[context.id] == context
    requires context.resolved.None? && redeemed.Established?
    requires redeemed.resolved == Some(context.(resolved := Some(redeemed.endpoint.id)))
    requires ChainIds(redeemed.endpoint.chain) == {context.id, minted.lookupId} && minted.lookupId !in r.used
    requires entry.Booted? && entry.contextId == context.id && entry.endpoint == redeemed.endpoint.id
    ensures ContextsInv(Persist(r, redeemed.endpoint, redeemed.resolved, minted, entry))
    ensures BootsKnown(Persist(r, redeemed.endpoint, redeemed.resolved, minted, entry))
  {
    var r' := Persist(r, redeemed.endpoint, redeemed.resolved, minted, entry);
    forall id ensures BootsFrom(r'.log, id) == BootsFrom(r.log, id) + (if id == context.id then 1 else 0) {
      AppendBoots(r.log, entry, id);
    }
    forall id | id in r'.contexts && id != context.id && r'.contexts[id].resolved.None?
      ensures id !in r'.lookups
    {
      assert id in r.contexts && r.contexts[id] == r'.contexts[id] && id in r.used && id !in r.lookups;
    }
  }

  // ---------------------------------------------------------------------
  // Every step
  // ---------------------------------------------------------------------

  /** An identifier outside every chain matches no Endpoint. */
  lemma UnknownIsRejected(r: Registry, e: Uuid, presented: Credential, minted: Credential, now: int, ttl: int)
    requires LookupsInv(r) && e in r.endpoints && presented.lookupId !in r.lookups
    ensures RedeemKnown(r.endpoints[e], presented, minted, now, ttl).RedemptionRejected?
  {
    assert !InChain(r.endpoints, e, presented.lookupId);
  }

  /** The three ways a redemption can succeed. */
  lemma DecisionCases(r: Registry, presented: Credential, minted: Credential, newId: Uuid, now: int, ttl: int)
    requires Inv(r) && newId !in r.endpoints && minted.kind.Runtime?
    requires Decide(r, presented, minted, newId, now, ttl).Established?
    ensures var redeemed := Decide(r, presented, minted, newId, now, ttl);
            if presented.lookupId in r.lookups then
              && r.lookups[presented.lookupId] in r.endpoints
              && redeemed == RedeemKnown(r.endpoints[r.lookups[presented.lookupId]], presented, minted, now, ttl)
              && redeemed.endpoint.id == r.lookups[presented.lookupId]
            else
              && presented.lookupId in r.contexts && r.contexts[presented.lookupId].resolved.None?
              && BootOf(r, r.contexts[presented.lookupId], presented, minted, redeemed)
              && (redeemed.endpoint.id in r.endpoints ==> !r.endpoints[redeemed.endpoint.id].chain.revoked)
  {
    if presented.lookupId !in r.lookups {
      var context := r.contexts[presented.lookupId];
      if context.resolved.Some? {
        UnknownIsRejected(r, context.resolved.value, presented, minted, now, ttl);
      } else if !exists e :: HasSignal(r, e, context.signal) {
        forall e | e in r.endpoints ensures r.endpoints[e].signal != context.signal {
          assert !HasSignal(r, e, context.signal);
        }
        assert Revocation(newId) !in r.log;
      }
    }
  }

  lemma RedeemKeeps(r: Registry, presented: Credential, minted: Credential, newId: Uuid, now: int, ttl: int)
    requires Inv(r) && Enabled(r, Redeem(presented, minted, newId, now, ttl))
    ensures Inv(Next(r, Redeem(presented, minted, newId, now, ttl)))
  {
    var redeemed := Decide(r, presented, minted, newId, now, ttl);
    if redeemed.Established? {
      DecisionCases(r, presented, minted, newId, now, ttl);
      if presented.lookupId in r.lookups {
        RotationKeeps(r, r.lookups[presented.lookupId], presented, minted, now, ttl);
      } else {
        BootKeeps(r, r.contexts[presented.lookupId], presented, minted, redeemed);
      }
    }
  }

  /** Changing an Endpoint without its identifiers. */
  lemma UpdateKeeps(r: Registry, endpoint: Endpoint, entry: Entry)
    requires Inv(r) && endpoint.id in r.endpoints && entry.endpoint == endpoint.id && !entry.Booted?
    requires ChainIds(endpoint.chain) == ChainIds(r.endpoints[endpoint.id].chain)
    requires endpoint.signal == r.endpoints[endpoint.id].signal
    requires Tells(r.log + [entry], endpoint)
    ensures Inv(r.(endpoints := r.endpoints[endpoint.id := endpoint], log := r.log + [entry]))
  {
    var r' := r.(endpoints := r.endpoints[endpoint.id := endpoint], log := r.log + [entry]);
    UpdateEndpoints(r, endpoint, entry);
    forall id ensures BootsFrom(r'.log, id) == BootsFrom(r.log, id) {
      AppendBoots(r.log, entry, id);
    }
    ContextsKeep(r, r');
    UpdateLookups(r, endpoint, r');
  }

  lemma UpdateEndpoints(r: Registry, endpoint: Endpoint, entry: Entry)
    requires EndpointsInv(r) && endpoint.id in r.endpoints && entry.endpoint == endpoint.id
    requires endpoint.signal == r.endpoints[endpoint.id].signal && Tells(r.log + [entry], endpoint)
    ensures EndpointsInv(r.(endpoints := r.endpoints[endpoint.id := endpoint], log := r.log + [entry]))
  {
  }

  lemma UpdateLookups(r: Registry, endpoint: Endpoint, r': Registry)
    requires LookupsInv(r) && endpoint.id in r.endpoints
    requires ChainIds(endpoint.chain) == ChainIds(r.endpoints[endpoint.id].chain)
    requires r'.endpoints == r.endpoints[endpoint.id := endpoint] && r'.lookups == r.lookups && r'.used == r.used
    ensures LookupsInv(r')
  {
    forall e, id | InChain(r'.endpoints, e, id) ensures id in r'.lookups && r'.lookups[id] == e {
      assert InChain(r.endpoints, e, id);
    }
    forall id | id in r'.lookups ensures InChain(r'.endpoints, r'.lookups[id], id) {
      assert InChain(r.endpoints, r.lookups[id], id);
    }
  }

  lemma IssueKeeps(r: Registry, context: BootContext)
    requires Inv(r) && Enabled(r, IssueContext(context))
    ensures Inv(Next(r, IssueContext(context)))
  {
  }

  lemma RevokeKeeps(r: Registry, e: Uuid)
    requires Inv(r) && e in r.endpoints
    ensures Inv(Next(r, RevokeStep(e)))
  {
    AppendHistory(r.log, Revocation(e), e, r.endpoints[e].currentBoot.value.nonce);
    UpdateKeeps(r, RevokeCredential(r.endpoints[e]), Revocation(e));
  }

  lemma EvidenceKeeps(r: Registry, e: Uuid, nonce: Uuid)
    requires Inv(r) && e in r.endpoints
    ensures Inv(Next(r, EvidenceStep(e, nonce)))
  {
    var established := EstablishTrustedBootstrap(r.endpoints[e], nonce);
    if established.Some? {
      AppendHistory(r.log, Evidence(e, nonce), e, nonce);
      UpdateKeeps(r, established.value, Evidence(e, nonce));
    }
  }

  lemma NextKeeps(r: Registry, step: Step)
    requires Inv(r) && Enabled(r, step)
    ensures Inv(Next(r, step))
  {
    match step {
      case IssueContext(context) => IssueKeeps(r, context);
      case Redeem(presented, minted, newId, now, ttl) => RedeemKeeps(r, presented, minted, newId, now, ttl);
      case RevokeStep(e) => RevokeKeeps(r, e);
      case EvidenceStep(e, nonce) => EvidenceKeeps(r, e, nonce);
    }
  }

  lemma {:induction false} RunKeeps(r: Registry, run: seq<Step>)
    requires Inv(r) && ValidRun(r, run)
    ensures Inv(Exec(r, run))
    decreases |run|
  {
    if run != [] {
      NextKeeps(r, run[0]);
      RunKeeps(Next(r, run[0]), run[1..]);
    }
  }

  // ---------------------------------------------------------------------
  // Recovery
  // ---------------------------------------------------------------------

  /** In every reachable registry the credential an Endpoint last authenticated with, and the
      one that was issued for it, are accepted again exactly until their own expiry unless
      the Endpoint was revoked; the boot context's expiry plays no part. */
  lemma ReconnectRecovers(run: seq<Step>, e: Uuid, minted: Credential, newId: Uuid, now: int, ttl: int)
    requires ValidRun(EMPTY, run) && e in Exec(EMPTY, run).endpoints
    requires minted.kind.Runtime? && newId !in Exec(EMPTY, run).endpoints
    ensures var r := Exec(EMPTY, run);
            var chain := r.endpoints[e].chain;
            var last := LastAuthentication(r.log, e);
            && last.Some? && chain.successor.Some?
            && var (presented, issued) := last.value;
               var again := Decide(r, presented, minted, newId, now, ttl);
               var onward := Decide(r, issued, minted, newId, now, ttl);
            && (again.Established? <==> now < chain.predecessor.expiresAt && Revocation(e) !in r.log)
            && (again.Established? ==> again.endpoint.id == e && again.endpoint.chain.predecessor == chain.predecessor)
            && (onward.Established? <==> now < chain.successor.value.expiresAt && Revocation(e) !in r.log)
            && (onward.Established? ==>
                  onward.endpoint.id == e && onward.endpoint.chain.predecessor == chain.successor.value)
  {
    RunKeeps(EMPTY, run);
    var r := Exec(EMPTY, run);
    assert Tells(r.log, r.endpoints[e]);
    var (presented, issued) := LastAuthentication(r.log, e).value;
    ChainIsKnown(r, e, presented, minted, newId, now, ttl);
    ChainIsKnown(r, e, issued, minted, newId, now, ttl);
    ChainAccepts(r.endpoints[e], presented, issued, minted, now, ttl);
  }

  /** An identifier of a current chain leads to its Endpoint. */
  lemma ChainIsKnown(
    r: Registry, e: Uuid, presented: Credential, minted: Credential, newId: Uuid, now: int, ttl: int)
    requires LookupsInv(r) && e in r.endpoints && presented.lookupId in ChainIds(r.endpoints[e].chain)
    ensures Decide(r, presented, minted, newId, now, ttl) == RedeemKnown(r.endpoints[e], presented, minted, now, ttl)
  {
    assert InChain(r.endpoints, e, presented.lookupId);
  }

  lemma ChainAccepts(
    endpoint: Endpoint, presented: Credential, issued: Credential, minted: Credential, now: int, ttl: int)
    requires endpoint.chain.successor.Some? && minted.kind.Runtime?
    requires endpoint.chain.predecessor.lookupId != endpoint.chain.successor.value.lookupId
    requires For(endpoint.chain.predecessor, presented) && For(endpoint.chain.successor.value, issued)
    ensures var chain := endpoint.chain;
            var again := RedeemKnown(endpoint, presented, minted, now, ttl);
            var onward := RedeemKnown(endpoint, issued, minted, now, ttl);
            && (again.Established? <==> now < chain.predecessor.expiresAt && !chain.revoked)
            && (again.Established? ==>
                  again.endpoint.id == endpoint.id && again.endpoint.chain.predecessor == chain.predecessor)
            && (onward.Established? <==> now < chain.successor.value.expiresAt && !chain.revoked)
            && (onward.Established? ==>
                  onward.endpoint.id == endpoint.id && onward.endpoint.chain.predecessor == chain.successor.value)
  {
  }

  // ---------------------------------------------------------------------
  // Retired credentials
  // ---------------------------------------------------------------------

  /** The identifier was issued once and is neither in a chain nor on an unresolved context. */
  ghost predicate Retired(r: Registry, id: Uuid) {
    && id in r.used && id !in r.lookups
    && (id in r.contexts ==> r.contexts[id].resolved.Some?)
  }

  lemma RetiredIsRejected(
    r: Registry, presented: Credential, minted: Credential, newId: Uuid, now: int, ttl: int)
    requires Inv(r) && Retired(r, presented.lookupId) && newId !in r.endpoints && minted.kind.Runtime?
    ensures Decide(r, presented, minted, newId, now, ttl).RedemptionRejected?
  {
    if Decide(r, presented, minted, newId, now, ttl).Established? {
      DecisionCases(r, presented, minted, newId, now, ttl);
    }
  }

  lemma RetiredRecord(r: Registry, id: Uuid, redeemed: Redeemed, presented: Credential, minted: Credential)
    requires Retired(r, id)
    requires redeemed.Established? ==>
               && id !in ChainIds(redeemed.endpoint.chain)
               && (redeemed.resolved.Some? ==> redeemed.resolved.value.resolved.Some?)
    ensures Retired(Record(r, redeemed, presented, minted), id)
  {
  }

  lemma RetiredStep(r: Registry, id: Uuid, step: Step)
    requires Inv(r) && Retired(r, id) && Enabled(r, step)
    ensures Retired(Next(r, step), id)
  {
    if step.Redeem? {
      var redeemed := Decide(r, step.presented, step.minted, step.newId, step.now, step.ttl);
      if redeemed.Established? {
        DecisionCases(r, step.presented, step.minted, step.newId, step.now, step.ttl);
        ChainSources(r, step.presented, step.minted, step.newId, step.now, step.ttl);
      }
      RetiredRecord(r, id, redeemed, step.presented, step.minted);
    }
  }

  /** Where the identifiers of a redeemed chain come from. */
  lemma ChainSources(r: Registry, presented: Credential, minted: Credential, newId: Uuid, now: int, ttl: int)
    requires Inv(r) && newId !in r.endpoints && minted.kind.Runtime?
    requires Decide(r, presented, minted, newId, now, ttl).Established?
    ensures ChainIds(Decide(r, presented, minted, newId, now, ttl).endpoint.chain) <=
            {presented.lookupId, minted.lookupId}
  {
    DecisionCases(r, presented, minted, newId, now, ttl);
  }

  /** A credential that left its chain never authenticates again, whatever happens in between. */
  lemma {:induction false} NoResurrection(
    r: Registry, run: seq<Step>, presented: Credential, minted: Credential, newId: Uuid, now: int, ttl: int)
    requires Inv(r) && Retired(r, presented.lookupId) && ValidRun(r, run)
    requires newId !in Exec(r, run).endpoints && minted.kind.Runtime?
    ensures Decide(Exec(r, run), presented, minted, newId, now, ttl).RedemptionRejected?
    decreases |run|
  {
    if run == [] {
      RetiredIsRejected(r, presented, minted, newId, now, ttl);
    } else {
      NextKeeps(r, run[0]);
      RetiredStep(r, presented.lookupId, run[0]);
      NoResurrection(Next(r, run[0]), run[1..], presented, minted, newId, now, ttl);
    }
  }

  /** Every successful redemption retires what it replaces: of the old chain only the
      presented credential stays. */
  lemma RedemptionRetires(
    r: Registry, presented: Credential, minted: Credential, newId: Uuid, now: int, ttl: int, id: Uuid)
    requires Inv(r) && Enabled(r, Redeem(presented, minted, newId, now, ttl))
    requires var redeemed := Decide(r, presented, minted, newId, now, ttl);
             && redeemed.Established? && redeemed.endpoint.id in r.endpoints
             && id in ChainIds(r.endpoints[redeemed.endpoint.id].chain) && id != presented.lookupId
    ensures Retired(Next(r, Redeem(presented, minted, newId, now, ttl)), id)
  {
    var redeemed := Decide(r, presented, minted, newId, now, ttl);
    var e := redeemed.endpoint.id;
    DecisionCases(r, presented, minted, newId, now, ttl);
    ChainSources(r, presented, minted, newId, now, ttl);
    var entry := if redeemed.resolved.None? then Rotated(e, presented, minted)
                 else Booted(e, presented, minted, redeemed.resolved.value.id, redeemed.resolved.value.nonce);
    OwnIds(r, e);
    PersistRetires(r, redeemed.endpoint, redeemed.resolved, minted, entry, id);
  }

  lemma PersistRetires(
    r: Registry, endpoint: Endpoint, context: Option<BootContext>, minted: Credential, entry: Entry, id: Uuid)
    requires LookupsInv(r) && ContextsInv(r) && endpoint.id in r.endpoints
    requires id in ChainIds(r.endpoints[endpoint.id].chain) && id !in ChainIds(endpoint.chain)
    requires context.Some? ==> context.value.resolved.Some?
    ensures Retired(Persist(r, endpoint, context, minted, entry), id)
  {
    assert InChain(r.endpoints, endpoint.id, id);
  }

  // ---------------------------------------------------------------------
  // Revocation
  // ---------------------------------------------------------------------

  lemma RevokedRedeem(
    r: Registry, e: Uuid, presented: Credential, minted: Credential, newId: Uuid, now: int, ttl: int)
    requires Inv(r) && e in r.endpoints && r.endpoints[e].chain.revoked
    requires newId !in r.endpoints && minted.kind.Runtime?
    requires Decide(r, presented, minted, newId, now, ttl).Established?
    ensures Decide(r, presented, minted, newId, now, ttl).endpoint.id != e
  {
  }

  lemma Unrelated(log: seq<Entry>, entry: Entry, e: Uuid)
    requires entry.endpoint != e || !(entry.Booted? || entry.Rotated?)
    ensures LastAuthentication(log + [entry], e) == LastAuthentication(log, e)
  {
  }

  lemma RevokedRecord(r: Registry, e: Uuid, redeemed: Redeemed, presented: Credential, minted: Credential)
    requires e in r.endpoints && (redeemed.Established? ==> redeemed.endpoint.id != e)
    ensures var r' := Record(r, redeemed, presented, minted);
            && e in r'.endpoints && r'.endpoints[e] == r.endpoints[e]
            && LastAuthentication(r'.log, e) == LastAuthentication(r.log, e)
  {
  }

  lemma RevokedStep(r: Registry, e: Uuid, step: Step)
    requires Inv(r) && e in r.endpoints && r.endpoints[e].chain.revoked && Enabled(r, step)
    ensures var r' := Next(r, step);
            && e in r'.endpoints && r'.endpoints[e].chain == r.endpoints[e].chain
            && LastAuthentication(r'.log, e) == LastAuthentication(r.log, e)
  {
    match step {
      case IssueContext(_) =>
      case Redeem(presented, minted, newId, now, ttl) =>
        var redeemed := Decide(r, presented, minted, newId, now, ttl);
        if redeemed.Established? {
          RevokedRedeem(r, e, presented, minted, newId, now, ttl);
        }
        RevokedRecord(r, e, redeemed, presented, minted);
      case RevokeStep(f) => Unrelated(r.log, Revocation(f), e);
      case EvidenceStep(f, nonce) => Unrelated(r.log, Evidence(f, nonce), e);
    }
  }

  /** No credential, whatever is presented and whenever, authenticates as this Endpoint. */
  ghost predicate Unredeemable(r: Registry, e: Uuid) {
    forall presented, minted: Credential, newId, now, ttl ::
      && newId !in r.endpoints && minted.kind.Runtime?
      && Decide(r, presented, minted, newId, now, ttl).Established? ==>
        Decide(r, presented, minted, newId, now, ttl).endpoint.id != e
  }

  /** A revoked Endpoint never authenticates again: neither rotation nor reboot restores it,
      and every credential presented for it is refused in every later state. */
  lemma {:induction false} RevocationIsFinal(r: Registry, e: Uuid, run: seq<Step>)
    requires Inv(r) && e in r.endpoints && r.endpoints[e].chain.revoked && ValidRun(r, run)
    ensures var r' := Exec(r, run);
            && e in r'.endpoints && r'.endpoints[e].chain == r.endpoints[e].chain
            && LastAuthentication(r'.log, e) == LastAuthentication(r.log, e)
            && Unredeemable(r', e)
    decreases |run|
  {
    if run == [] {
      forall presented, minted: Credential, newId, now, ttl |
        && newId !in r.endpoints && minted.kind.Runtime?
        && Decide(r, presented, minted, newId, now, ttl).Established?
        ensures Decide(r, presented, minted, newId, now, ttl).endpoint.id != e
      {
        RevokedRedeem(r, e, presented, minted, newId, now, ttl);
      }
    } else {
      NextKeeps(r, run[0]);
      RevokedStep(r, e, run[0]);
      RevocationIsFinal(Next(r, run[0]), e, run[1..]);
    }
  }

  // ---------------------------------------------------------------------
  // Boot contexts and trusted bootstrap
  // ---------------------------------------------------------------------

  /** In every run a boot context establishes at most one chain, and has established one
      exactly when it is resolved. */
  lemma ContextsEstablishOnce(run: seq<Step>, id: Uuid)
    requires ValidRun(EMPTY, run)
    ensures var r := Exec(EMPTY, run);
            && BootsFrom(r.log, id) <= 1
            && (BootsFrom(r.log, id) == 1 <==> id in r.contexts && r.contexts[id].resolved.Some?)
  {
    RunKeeps(EMPTY, run);
  }

  /** Trusted bootstrap is established exactly when evidence with the nonce of the current
      boot was accepted since the Endpoint last booted. */
  lemma TrustNeedsEvidence(run: seq<Step>, e: Uuid)
    requires ValidRun(EMPTY, run) && e in Exec(EMPTY, run).endpoints
    ensures var r := Exec(EMPTY, run);
            var boot := r.endpoints[e].currentBoot;
            && boot.Some? && LastBoot(r.log, e) == Some((boot.value.contextId, boot.value.nonce))
            && (boot.value.trusted <==> EvidenceSinceBoot(r.log, e, boot.value.nonce))
  {
    RunKeeps(EMPTY, run);
    assert Tells(Exec(EMPTY, run).log, Exec(EMPTY, run).endpoints[e]);
  }

  /** An enrollment credential on an unresolved context is redeemed exactly with the right
      secret, before the context expires, and unless it belongs to a revoked Endpoint. */
  lemma FirstRedemptionIff(
    r: Registry, presented: Credential, minted: Credential, newId: Uuid, now: int, ttl: int)
    requires Inv(r) && newId !in r.endpoints && minted.kind.Runtime?
    requires presented.lookupId in r.contexts && r.contexts[presented.lookupId].resolved.None?
    ensures var context := r.contexts[presented.lookupId];
            Decide(r, presented, minted, newId, now, ttl).Established? <==>
            && presented.kind.Enrollment? && Verifies(context.verifier, presented.secret) && now < context.expiresAt
            && forall e :: HasSignal(r, e, context.signal) ==> !r.endpoints[e].chain.revoked
  {
    var context := r.contexts[presented.lookupId];
    assert presented.lookupId !in r.lookups && context.id == presented.lookupId;
    forall e, f | HasSignal(r, e, context.signal) && HasSignal(r, f, context.signal) ensures e == f {
    }
  }

  /** Evidence establishes trust exactly when its nonce is the current boot's. */
  lemma EvidenceIff(r: Registry, e: Uuid, nonce: Uuid)
    requires Inv(r) && e in r.endpoints
    ensures var before, after := r.endpoints[e].currentBoot, Next(r, EvidenceStep(e, nonce)).endpoints[e].currentBoot;
            && before.Some? && after.Some? && after.value.nonce == before.value.nonce
            && (after.value.trusted <==> before.value.trusted || nonce == before.value.nonce)
  {
    assert Tells(r.log, r.endpoints[e]);
  }
}

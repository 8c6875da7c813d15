/** The credential chain of one Endpoint: a predecessor in grace and one unconfirmed
    successor. A verifier is modelled by the secret it was made from: it accepts that
    secret and no other. Instants are integers. */
module Credentials {
  import opened Workflow

  datatype Kind = Enrollment | Runtime

  datatype Credential = Credential(kind: Kind, lookupId: Uuid, secret: Uuid)

  datatype Verifier = Verifier(madeFrom: Uuid)

  predicate Verifies(verifier: Verifier, secret: Uuid) {
    verifier.madeFrom == secret
  }

  datatype Slot = Slot(lookupId: Uuid, verifier: Verifier, issuedAt: int, expiresAt: int)

  datatype Chain = Chain(predecessor: Slot, successor: Option<Slot>, revoked: bool)

  predicate ValidAt(slot: Slot, now: int) {
    now < slot.expiresAt
  }

  predicate Matches(slot: Slot, presented: Credential, now: int) {
    ValidAt(slot, now) && slot.lookupId == presented.lookupId && Verifies(slot.verifier, presented.secret)
  }

  /** Only a Runtime credential may become a successor. */
  function MintSuccessor(minted: Credential, now: int, ttl: int): Option<Slot> {
    if !minted.kind.Runtime? then None
    else Some(Slot(minted.lookupId, Verifier(minted.secret), now, now + ttl))
  }

  function Establish(lookupId: Uuid, verifier: Verifier, minted: Credential, now: int, ttl: int): Option<Chain> {
    match MintSuccessor(minted, now, ttl)
    case None => None
    case Some(successor) => Some(Chain(Slot(lookupId, verifier, now, now + ttl), Some(successor), false))
  }

  datatype Dimension = CredentialActive | CredentialExpired | CredentialRevoked

  function DimensionOf(chain: Chain, now: int): Dimension {
    if chain.revoked then CredentialRevoked
    else if ValidAt(chain.predecessor, now) || (chain.successor.Some? && ValidAt(chain.successor.value, now)) then
      CredentialActive
    else CredentialExpired
  }

  function Revoke(chain: Chain): Chain {
    chain.(revoked := true)
  }

  datatype AuthOutcome = Accepted(chain: Chain, expiresAt: int, successorConfirmed: bool) | AuthRejected

  function Authenticate(chain: Chain, presented: Credential, minted: Credential, now: int, ttl: int): AuthOutcome {
    if chain.revoked then AuthRejected
    else if Matches(chain.predecessor, presented, now) then
      match MintSuccessor(minted, now, ttl)
      case None => AuthRejected
      case Some(slot) => Accepted(Chain(chain.predecessor, Some(slot), false), slot.expiresAt, false)
    else if chain.successor.Some? && Matches(chain.successor.value, presented, now) then
      match MintSuccessor(minted, now, ttl)
      case None => AuthRejected
      case Some(slot) => Accepted(Chain(chain.successor.value, Some(slot), false), slot.expiresAt, true)
    else AuthRejected
  }

  /** A chain is active exactly while some credential would still be accepted. */
  lemma ActiveIff(chain: Chain, now: int)
    ensures DimensionOf(chain, now).CredentialActive? <==>
            exists c: Credential :: Authenticate(chain, c, Credential(Runtime, 0, 0), now, 0).Accepted?
  {
    if DimensionOf(chain, now).CredentialActive? {
      var slot := if ValidAt(chain.predecessor, now) then chain.predecessor else chain.successor.value;
      var c := Credential(Runtime, slot.lookupId, slot.verifier.madeFrom);
      assert Authenticate(chain, c, Credential(Runtime, 0, 0), now, 0).Accepted?;
    }
  }

  // ---------------------------------------------------------------------
  // An Agent that reconnects over a connection that may lose the reply
  // ---------------------------------------------------------------------

  /** The slot was made for this credential. */
  predicate For(slot: Slot, credential: Credential) {
    slot.lookupId == credential.lookupId && Verifies(slot.verifier, credential.secret)
  }

  /** One reconnect: the Agent presents what it holds and holds the successor it receives. */
  datatype Reconnect = Reconnect(now: int, ttl: int, minted: Credential, replyLost: bool)

  datatype Session = Session(chain: Chain, held: Credential)

  function AfterReconnect(s: Session, r: Reconnect): Session {
    match Authenticate(s.chain, s.held, r.minted, r.now, r.ttl)
    case Accepted(chain, _, _) => Session(chain, if r.replyLost then s.held else r.minted)
    case AuthRejected => s
  }

  function AfterReconnects(s: Session, rs: seq<Reconnect>): Session
    decreases |rs|
  {
    if rs == [] then s else AfterReconnects(AfterReconnect(s, rs[0]), rs[1..])
  }

  /** The Agent holds the predecessor or the successor, which are different credentials. */
  ghost predicate InStep(s: Session) {
    && s.chain.successor.Some?
    && s.chain.predecessor.lookupId != s.chain.successor.value.lookupId
    && (For(s.chain.predecessor, s.held) || For(s.chain.successor.value, s.held))
  }

  /** Freshly generated successors are Runtime credentials with identifiers never seen before. */
  ghost predicate FreshSuccessors(s: Session, rs: seq<Reconnect>) {
    && (forall i :: 0 <= i < |rs| ==>
          && rs[i].minted.kind.Runtime?
          && rs[i].minted.lookupId != s.chain.predecessor.lookupId
          && (s.chain.successor.Some? ==> rs[i].minted.lookupId != s.chain.successor.value.lookupId))
    && (forall i, j :: 0 <= i < j < |rs| ==> rs[i].minted.lookupId != rs[j].minted.lookupId)
  }

  /** The slot that answers for what the Agent holds. */
  function HeldSlot(s: Session): Slot
    requires s.chain.successor.Some?
  {
    if For(s.chain.predecessor, s.held) then s.chain.predecessor else s.chain.successor.value
  }

  lemma ReconnectKeeps(s: Session, rs: seq<Reconnect>)
    requires InStep(s) && rs != [] && FreshSuccessors(s, rs)
    ensures InStep(AfterReconnect(s, rs[0])) && FreshSuccessors(AfterReconnect(s, rs[0]), rs[1..])
  {
  }

  /** After any reconnects, however many replies were lost, the Agent is still in step: what
      it holds is accepted exactly until that credential's own expiry, unless revoked, and
      once accepted it is the predecessor. */
  lemma {:induction false} NoLockOut(s: Session, rs: seq<Reconnect>, next: Reconnect)
    requires InStep(s) && FreshSuccessors(s, rs) && next.minted.kind.Runtime?
    ensures InStep(AfterReconnects(s, rs))
    ensures var end := AfterReconnects(s, rs);
            var outcome := Authenticate(end.chain, end.held, next.minted, next.now, next.ttl);
            && (outcome.Accepted? <==> !end.chain.revoked && ValidAt(HeldSlot(end), next.now))
            && (outcome.Accepted? ==> outcome.chain.predecessor == HeldSlot(end))
    decreases |rs|
  {
    if rs != [] {
      ReconnectKeeps(s, rs);
      NoLockOut(AfterReconnect(s, rs[0]), rs[1..], next);
    }
  }

  /** As long as every reply is lost, nothing about the Agent's credential changes: the same
      slot, with the same expiry, keeps answering for it. */
  lemma {:induction false} LostRepliesChangeNothing(s: Session, rs: seq<Reconnect>)
    requires InStep(s) && For(s.chain.predecessor, s.held) && FreshSuccessors(s, rs)
    requires forall i :: 0 <= i < |rs| ==> rs[i].replyLost
    ensures var end := AfterReconnects(s, rs);
            && end.held == s.held && end.chain.predecessor == s.chain.predecessor
            && end.chain.revoked == s.chain.revoked
    decreases |rs|
  {
    if rs != [] {
      ReconnectKeeps(s, rs);
      LostRepliesChangeNothing(AfterReconnect(s, rs[0]), rs[1..]);
    }
  }
}

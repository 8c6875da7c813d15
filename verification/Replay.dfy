/** Proof freshness and the replay cache. Proofs carry milliseconds; the clock and the
    cache's deadlines are nanoseconds, the resolution at which the code compares them. */
module Replay {
  import opened Workflow

  const MILLISECOND := 1_000_000
  const PAST_WINDOW := 120_000
  const FUTURE_SKEW := 30_000

  datatype FreshnessError = ProofTooStale | ProofTooFarInFuture

  /** Freshness looks at the millisecond the clock is in. */
  function Freshness(issuedAt: nat, now: int): Result<(), FreshnessError> {
    var delta := now / MILLISECOND - issuedAt;
    if delta > PAST_WINDOW then Err(ProofTooStale)
    else if delta < -FUTURE_SKEW then Err(ProofTooFarInFuture)
    else Ok(())
  }

  /** Where the last millisecond in which a proof can still be fresh begins. */
  function ReplayDeadline(issuedAt: nat): int {
    (issuedAt + PAST_WINDOW) * MILLISECOND
  }

  datatype Rejection = Replayed | CapacitySaturated

  /** What survives an eviction at `now`. */
  function Retained(seen: map<Uuid, int>, now: int): map<Uuid, int> {
    map id | id in seen && now <= seen[id] :: seen[id]
  }

  function CheckAndInsert(seen: map<Uuid, int>, capacity: nat, proofId: Uuid, now: int, validUntil: int)
    : (map<Uuid, int>, Result<(), Rejection>)
  {
    var live := Retained(seen, now);
    if proofId in live then (live, Err(Replayed))
    else if |live| >= capacity then (live, Err(CapacitySaturated))
    else (live[proofId := validUntil], Ok(()))
  }

  class ReplayCache {
    const capacity: nat
    var seen: map<Uuid, int>

    ghost predicate Valid()
      reads this
    {
      capacity >= 1 && |seen| <= capacity
    }

    constructor (requested: nat)
      ensures Valid() && seen == map[] && capacity == if requested == 0 then 1 else requested
    {
      capacity := if requested == 0 then 1 else requested;
      seen := map[];
    }

    method TryInsert(proofId: Uuid, now: int, validUntil: int) returns (result: Result<(), Rejection>)
      requires Valid()
      modifies this`seen
      ensures Valid()
      ensures (seen, result) == CheckAndInsert(old(seen), capacity, proofId, now, validUntil)
    {
      RetainedIsSmaller(seen, now);
      seen := Retained(seen, now);
      var atCapacity := |seen| >= capacity;
      if proofId in seen {
        return Err(Replayed);
      }
      if atCapacity {
        return Err(CapacitySaturated);
      }
      seen := seen[proofId := validUntil];
      return Ok(());
    }
  }

  lemma RetainedIsSmaller(seen: map<Uuid, int>, now: int)
    ensures |Retained(seen, now)| <= |seen|
  {
    var kept, all := Retained(seen, now).Keys, seen.Keys;
    assert kept <= all;
    assert all == kept + (all - kept);
    assert |Retained(seen, now)| == |kept| && |seen| == |all|;
  }

  // ---------------------------------------------------------------------
  // Sequences of requests
  // ---------------------------------------------------------------------

  /** A presented proof: its identifier and issue time are signed together. */
  datatype Proof = Proof(id: Uuid, issuedAt: nat)

  datatype Request = Request(proof: Proof, now: int)

  predicate Approved(seen: map<Uuid, int>, capacity: nat, r: Request) {
    && Freshness(r.proof.issuedAt, r.now).Ok?
    && CheckAndInsert(seen, capacity, r.proof.id, r.now, ReplayDeadline(r.proof.issuedAt)).1.Ok?
  }

  /** A proof that is not fresh never reaches the cache. */
  function AfterRequest(seen: map<Uuid, int>, capacity: nat, r: Request): map<Uuid, int> {
    if Freshness(r.proof.issuedAt, r.now).Err? then seen
    else CheckAndInsert(seen, capacity, r.proof.id, r.now, ReplayDeadline(r.proof.issuedAt)).0
  }

  function AfterRequests(seen: map<Uuid, int>, capacity: nat, rs: seq<Request>): map<Uuid, int>
    decreases |rs|
  {
    if rs == [] then seen else AfterRequests(AfterRequest(seen, capacity, rs[0]), capacity, rs[1..])
  }

  /** The instants at which a proof is still fresh and its own entry already gone: the last
      fresh millisecond but for its first instant. */
  predicate Uncovered(issuedAt: nat, now: int) {
    ReplayDeadline(issuedAt) < now < ReplayDeadline(issuedAt) + MILLISECOND
  }

  /** The deadline falls short of the last fresh instant by 999999 nanoseconds, and an entry is
      kept for at most 150 seconds after its proof was accepted. */
  lemma DeadlineFallsShort(issuedAt: nat, now: int)
    ensures Freshness(issuedAt, now).Ok? <==>
            (issuedAt - FUTURE_SKEW) * MILLISECOND <= now <= ReplayDeadline(issuedAt) + 999_999
    ensures Uncovered(issuedAt, now) <==> Freshness(issuedAt, now).Ok? && now > ReplayDeadline(issuedAt)
    ensures Freshness(issuedAt, now).Ok? ==> ReplayDeadline(issuedAt) <= now + 150_000 * MILLISECOND
    ensures now == (issuedAt - FUTURE_SKEW) * MILLISECOND ==>
              Freshness(issuedAt, now).Ok? && ReplayDeadline(issuedAt) == now + 150_000 * MILLISECOND
  {
    Floor(now, issuedAt + PAST_WINDOW);
    Floor(now, issuedAt - FUTURE_SKEW);
  }

  lemma Floor(now: int, millis: int)
    ensures now / MILLISECOND >= millis <==> now >= millis * MILLISECOND
    ensures now / MILLISECOND > millis <==> now >= (millis + 1) * MILLISECOND
  {
  }

  /** A recorded entry stays, with its deadline, through requests that never read the clock
      past that deadline. */
  lemma {:induction false} EntryStays(seen: map<Uuid, int>, capacity: nat, rs: seq<Request>, id: Uuid)
    requires id in seen
    requires forall i :: 0 <= i < |rs| && Freshness(rs[i].proof.issuedAt, rs[i].now).Ok? ==> rs[i].now <= seen[id]
    ensures id in AfterRequests(seen, capacity, rs) && AfterRequests(seen, capacity, rs)[id] == seen[id]
    decreases |rs|
  {
    if rs != [] {
      var next := AfterRequest(seen, capacity, rs[0]);
      assert id in next && next[id] == seen[id];
      assert forall i :: 0 <= i < |rs[1..]| ==> rs[1..][i] == rs[i + 1];
      EntryStays(next, capacity, rs[1..], id);
    }
  }

  /** Under readings that never go back, no proof is approved twice outside its uncovered
      instants, however many other requests come in between. */
  lemma NoReplay(seen: map<Uuid, int>, capacity: nat, proof: Proof, first: int, between: seq<Request>, again: int)
    requires Approved(seen, capacity, Request(proof, first))
    requires forall i :: 0 <= i < |between| ==> between[i].now <= again
    ensures var cache := AfterRequests(AfterRequest(seen, capacity, Request(proof, first)), capacity, between);
            Approved(cache, capacity, Request(proof, again)) ==> Uncovered(proof.issuedAt, again)
  {
    var after := AfterRequest(seen, capacity, Request(proof, first));
    DeadlineFallsShort(proof.issuedAt, again);
    if again <= ReplayDeadline(proof.issuedAt) {
      EntryStays(after, capacity, between, proof.id);
    }
  }

  /** Nobody presents two proofs under one identifier. */
  ghost predicate OneProof(rs: seq<Request>, proof: Proof) {
    forall i :: 0 <= i < |rs| && rs[i].proof.id == proof.id ==> rs[i].proof == proof
  }

  lemma {:induction false} EntryIsItsOwn(seen: map<Uuid, int>, capacity: nat, rs: seq<Request>, proof: Proof)
    requires OneProof(rs, proof) && (proof.id in seen ==> seen[proof.id] == ReplayDeadline(proof.issuedAt))
    ensures var cache := AfterRequests(seen, capacity, rs);
            proof.id in cache ==> cache[proof.id] == ReplayDeadline(proof.issuedAt)
    decreases |rs|
  {
    if rs != [] {
      EntryIsItsOwn(AfterRequest(seen, capacity, rs[0]), capacity, rs[1..], proof);
    }
  }

  /** Under readings that never go back, an approved proof is approved again exactly at its
      uncovered instants, as long as the cache has room. */
  lemma ReplayWindowIff(
    seen: map<Uuid, int>, capacity: nat, proof: Proof, first: int, between: seq<Request>, again: int)
    requires Approved(seen, capacity, Request(proof, first)) && OneProof(between, proof)
    requires forall i :: 0 <= i < |between| ==> between[i].now <= again
    ensures var cache := AfterRequests(AfterRequest(seen, capacity, Request(proof, first)), capacity, between);
            Approved(cache, capacity, Request(proof, again)) <==>
            Uncovered(proof.issuedAt, again) && |Retained(cache, again)| < capacity
  {
    if Uncovered(proof.issuedAt, again) {
      DeadlineFallsShort(proof.issuedAt, again);
      EntryIsItsOwn(AfterRequest(seen, capacity, Request(proof, first)), capacity, between, proof);
    } else {
      NoReplay(seen, capacity, proof, first, between, again);
    }
  }

  /** The input: approved at 0, and again half a millisecond after its deadline, with nothing
      in between and a clock that only went forward. */
  lemma LastMillisecondReplays()
    ensures var proof := Proof(1, 0);
            && Approved(map[], 1, Request(proof, 0))
            && Approved(AfterRequest(map[], 1, Request(proof, 0)), 1, Request(proof, 120_000_500_000))
  {
    var once := AfterRequest(map[], 1, Request(Proof(1, 0), 0));
    assert Retained(map[], 0) == map[];
    assert once == map[1 := 120_000_000_000];
    assert Retained(once, 120_000_500_000) == map[];
  }

  /** No request of the list that carries this identifier is approved. */
  ghost predicate Unapproved(seen: map<Uuid, int>, capacity: nat, rs: seq<Request>, id: Uuid)
    decreases |rs|
  {
    rs == [] ||
    (&& !(rs[0].proof.id == id && Approved(seen, capacity, rs[0]))
     && Unapproved(AfterRequest(seen, capacity, rs[0]), capacity, rs[1..], id))
  }

  lemma {:induction false} EntryGoes(seen: map<Uuid, int>, capacity: nat, rs: seq<Request>, id: Uuid)
    requires Unapproved(seen, capacity, rs, id)
    ensures id in AfterRequests(seen, capacity, rs) <==>
            && id in seen
            && forall i :: 0 <= i < |rs| && Freshness(rs[i].proof.issuedAt, rs[i].now).Ok? ==> rs[i].now <= seen[id]
    decreases |rs|
  {
    if rs != [] {
      var next := AfterRequest(seen, capacity, rs[0]);
      assert forall i :: 0 <= i < |rs[1..]| ==> rs[1..][i] == rs[i + 1];
      assert forall i :: 1 <= i < |rs| ==> rs[i] == rs[1..][i - 1];
      EntryGoes(next, capacity, rs[1..], id);
    }
  }

  /** The k-th request is the last of the run that was approved with this identifier. */
  ghost predicate LastApproval(seen: map<Uuid, int>, capacity: nat, rs: seq<Request>, id: Uuid, k: nat) {
    && k < |rs| && rs[k].proof.id == id
    && Approved(AfterRequests(seen, capacity, rs[..k]), capacity, rs[k])
    && Unapproved(AfterRequests(seen, capacity, rs[..k + 1]), capacity, rs[k + 1..], id)
  }

  lemma {:induction false} RunOn(seen: map<Uuid, int>, capacity: nat, a: seq<Request>, b: seq<Request>)
    ensures AfterRequests(seen, capacity, a + b) == AfterRequests(AfterRequests(seen, capacity, a), capacity, b)
    decreases |a|
  {
    if a == [] {
      assert a + b == b;
    } else {
      RunOn(AfterRequest(seen, capacity, a[0]), capacity, a[1..], b);
      assert (a + b)[1..] == a[1..] + b;
    }
  }

  /** A run that approved an identifier at all has a last such approval. */
  lemma {:induction false} ApprovalsHaveALast(seen: map<Uuid, int>, capacity: nat, rs: seq<Request>, id: Uuid)
    ensures Unapproved(seen, capacity, rs, id) || exists k: nat :: LastApproval(seen, capacity, rs, id, k)
    decreases |rs|
  {
    if rs != [] {
      var next := AfterRequest(seen, capacity, rs[0]);
      ApprovalsHaveALast(next, capacity, rs[1..], id);
      if Unapproved(next, capacity, rs[1..], id) {
        assert rs[..1] == [rs[0]];
        assert AfterRequests(seen, capacity, rs[..1]) == next;
        assert LastApproval(seen, capacity, rs, id, 0) || Unapproved(seen, capacity, rs, id);
      } else {
        var k: nat :| LastApproval(next, capacity, rs[1..], id, k);
        assert rs[1..][..k] == rs[..k + 1][1..] && rs[1..][..k + 1] == rs[..k + 2][1..];
        assert rs[1..][k + 1..] == rs[k + 2..];
        assert LastApproval(seen, capacity, rs, id, k + 1);
      }
    }
  }

  lemma AfterApproval(seen: map<Uuid, int>, capacity: nat, rs: seq<Request>, id: Uuid, k: nat)
    requires LastApproval(seen, capacity, rs, id, k)
    ensures var after := AfterRequest(AfterRequests(seen, capacity, rs[..k]), capacity, rs[k]);
            && AfterRequests(seen, capacity, rs[..k + 1]) == after
            && AfterRequests(seen, capacity, rs) == AfterRequests(after, capacity, rs[k + 1..])
            && id in after && after[id] == ReplayDeadline(rs[k].proof.issuedAt)
  {
    assert rs[..k + 1] == rs[..k] + [rs[k]] && rs == rs[..k + 1] + rs[k + 1..];
    RunOn(seen, capacity, rs[..k], [rs[k]]);
    assert [rs[k]][1..] == [];
    RunOn(seen, capacity, rs[..k + 1], rs[k + 1..]);
  }

  /** In any order of readings and after any run that approved its identifier: a proof is
      approved again exactly when it is fresh, the cache has room, and a fresh request since
      the last such approval, or this one, was served past that approval's deadline. */
  lemma ReplayIff(seen: map<Uuid, int>, capacity: nat, rs: seq<Request>, k: nat, proof: Proof, again: int)
    requires LastApproval(seen, capacity, rs, proof.id, k)
    ensures var cache := AfterRequests(seen, capacity, rs);
            var deadline := ReplayDeadline(rs[k].proof.issuedAt);
            Approved(cache, capacity, Request(proof, again)) <==>
            && Freshness(proof.issuedAt, again).Ok?
            && |Retained(cache, again)| < capacity
            && (again > deadline
                || exists i :: k < i < |rs| && Freshness(rs[i].proof.issuedAt, rs[i].now).Ok? && rs[i].now > deadline)
  {
    AfterApproval(seen, capacity, rs, proof.id, k);
    var after := AfterRequests(seen, capacity, rs[..k + 1]);
    var rest := rs[k + 1..];
    assert forall i :: k < i < |rs| ==> rs[i] == rest[i - k - 1];
    assert forall i :: 0 <= i < |rest| ==> rest[i] == rs[i + k + 1];
    EntryGoes(after, capacity, rest, proof.id);
    if proof.id in AfterRequests(seen, capacity, rs) {
      EntryStays(after, capacity, rest, proof.id);
    }
  }

  /** When readings do not go back, the last approval's deadline decides alone, also among
      several proofs under one identifier. */
  lemma OrderedReplayIff(seen: map<Uuid, int>, capacity: nat, rs: seq<Request>, k: nat, proof: Proof, again: int)
    requires LastApproval(seen, capacity, rs, proof.id, k)
    requires forall i :: k < i < |rs| ==> rs[i].now <= again
    ensures var cache := AfterRequests(seen, capacity, rs);
            Approved(cache, capacity, Request(proof, again)) <==>
            && Freshness(proof.issuedAt, again).Ok?
            && |Retained(cache, again)| < capacity
            && again > ReplayDeadline(rs[k].proof.issuedAt)
  {
    ReplayIff(seen, capacity, rs, k, proof, again);
  }

  /** Whatever comes in between, even further presentations of the same proof: a second
      approval is at an uncovered instant, or a fresh request past the proof's deadline
      reached the cache before this reading from behind it. */
  lemma ReplayCauses(
    seen: map<Uuid, int>, capacity: nat, proof: Proof, first: int, between: seq<Request>, again: int)
    requires Approved(seen, capacity, Request(proof, first))
    requires var cache := AfterRequests(AfterRequest(seen, capacity, Request(proof, first)), capacity, between);
             Approved(cache, capacity, Request(proof, again))
    ensures || Uncovered(proof.issuedAt, again)
            || exists i :: 0 <= i < |between|
                           && Freshness(between[i].proof.issuedAt, between[i].now).Ok?
                           && between[i].now > ReplayDeadline(proof.issuedAt) >= again
  {
    var after := AfterRequest(seen, capacity, Request(proof, first));
    DeadlineFallsShort(proof.issuedAt, again);
    if forall i :: 0 <= i < |between| && Freshness(between[i].proof.issuedAt, between[i].now).Ok? ==>
                     between[i].now <= ReplayDeadline(proof.issuedAt) {
      EntryStays(after, capacity, between, proof.id);
    }
  }

  /** Readings out of order make a replay possible too: approved at 0, evicted by a request
      read at 120001 ms, approved again at 0. */
  lemma DisorderReplays()
    ensures var proof, other := Proof(1, 0), Request(Proof(2, 120_001), 120_001_000_000);
            var refused := Request(proof, 10_000_000);
            var once := AfterRequest(map[], 2, Request(proof, 0));
            && Approved(map[], 2, Request(proof, 0))
            && Approved(AfterRequests(once, 2, [other]), 2, Request(proof, 0))
            && !Approved(once, 2, refused)
            && Approved(AfterRequests(once, 2, [refused, other]), 2, Request(proof, 0))
  {
    var proof, other := Proof(1, 0), Request(Proof(2, 120_001), 120_001_000_000);
    var refused := Request(proof, 10_000_000);
    var once := AfterRequest(map[], 2, Request(proof, 0));
    assert Retained(map[], 0) == map[];
    assert once == map[1 := 120_000_000_000];
    assert Retained(once, 10_000_000) == once;
    assert Retained(once, 120_001_000_000) == map[];
    var cache := AfterRequest(once, 2, other);
    assert cache == map[2 := 240_001_000_000];
    assert AfterRequests(once, 2, [other]) == AfterRequests(cache, 2, [other][1..]);
    assert [refused, other][1..] == [other];
    assert AfterRequests(once, 2, [refused, other]) == AfterRequests(once, 2, [other]);
    assert Retained(cache, 0) == cache;
  }
}

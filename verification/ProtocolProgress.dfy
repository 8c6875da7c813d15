/** Every workflow can be carried through: from any new Job there is a run in which every
    step is authorized, dispatched, executed and reported, and the Job succeeds. */
module ProtocolProgress {
  import opened Workflow
  import opened Evidence
  import opened Dispatch
  import opened ActionAgent
  import opened Protocol
  import opened ServerInvariant
  import opened SystemInvariant
  import opened ProtocolTheorems

  lemma {:induction false} Append(s: System, a: seq<Step>, b: seq<Step>)
    requires ValidRun(s, a) && ValidRun(Exec(s, a), b)
    ensures ValidRun(s, a + b) && Exec(s, a + b) == Exec(Exec(s, a), b)
    decreases |a|
  {
    if a == [] {
      assert a + b == b;
    } else {
      Append(Next(s, a[0]), a[1..], b);
      assert (a + b)[1..] == a[1..] + b;
    }
  }

  lemma One(s: System, step: Step)
    requires Enabled(s, step)
    ensures ValidRun(s, [step]) && Exec(s, [step]) == Next(s, step)
  {
  }

  lemma {:induction false} Above(used: set<Uuid>) returns (n: Uuid)
    ensures n !in used && forall x :: x in used ==> x < n
    decreases |used|
  {
    if used == {} {
      n := 0;
    } else {
      var x :| x in used;
      var rest := Above(used - {x});
      n := if x < rest then rest else x + 1;
      assert forall y :: y in used ==> y == x || y in used - {x};
    }
  }

  lemma FreshAttemptId(s: Server) returns (attemptId: Uuid)
    ensures forall k :: 0 <= k < |s.attempts| ==> s.attempts[k].id != attemptId
    ensures forall t :: t in s.transfers ==> s.transfers[t].attemptId != Some(attemptId)
  {
    var attempts := set k | 0 <= k < |s.attempts| :: s.attempts[k].id;
    var bound := set t | t in s.transfers && s.transfers[t].attemptId.Some? :: s.transfers[t].attemptId.value;
    attemptId := Above(attempts + bound);
    forall t | t in s.transfers ensures s.transfers[t].attemptId != Some(attemptId) {
      assert s.transfers[t].attemptId.Some? ==> s.transfers[t].attemptId.value in bound;
    }
  }

  lemma FreshActionId(s: System) returns (actionId: Uuid)
    ensures forall k :: 0 <= k < |s.server.attempts| ==> s.server.attempts[k].actionId != actionId
    ensures forall m :: m in s.net ==> m.actionId != actionId
    ensures actionId !in s.agent.local && s.executed[actionId] == 0
  {
    var actions := set k | 0 <= k < |s.server.attempts| :: s.server.attempts[k].actionId;
    var sent := set m | m in s.net :: m.actionId;
    var executed := set x | x in s.executed;
    actionId := Above(actions + sent + s.agent.local.Keys + executed);
    forall m | m in s.net ensures m.actionId != actionId {
      assert m.actionId in sent;
    }
    assert actionId !in executed;
  }

  /** Unused identifiers exist. */
  lemma FreshIds(s: System) returns (attemptId: Uuid, actionId: Uuid)
    ensures Fresh(s, attemptId, actionId)
  {
    attemptId := FreshAttemptId(s.server);
    actionId := FreshActionId(s);
  }

  predicate NoClosure(run: seq<Step>) {
    forall x :: x in run ==> !x.CloseStep?
  }

  const RESULT_CODE := "SIMULATED_COMPLETION"

  /** The steps that carry a destructive step from authorization to its reported success. */
  predicate Ordinary(run: seq<Step>) {
    forall x :: x in run ==>
      || x.AdmitStep? || x.AuthorizeStep? || x.SatisfyStep? || x.DestructiveStep?
      || x.ConfigureScenario? || x.AgentRuns?
      || (x.AgentReceives? && x.m.ActionDispatch? && x.m.content == SIMULATED_CONTENT)
      || (x.ServerReceives? && x.m.ActionResult? && x.m.code == RESULT_CODE)
  }

  /** A Job whose first `k` steps succeeded and whose others were not touched. */
  ghost predicate Ready(s: System, k: nat) {
    && ServerInv(s.server) && s.server.job.state.Running?
    && k == |s.server.attempts| < |s.server.job.steps| && Advanced(s.server.attempts)
    && forall i :: k <= i < |s.server.job.steps| ==>
         s.server.job.steps[i].state.StepPending? && s.server.job.steps[i].intent.None?
  }

  const INTENT := DestructiveIntent(0, "")
  const GOOD_FACTS := GateFacts(true, true, true, Some(0), Some(""), Consistent, true)

  function Prepared(s: Server, k: nat): Server
    requires k < |s.job.steps|
  {
    s.(job := s.job.(steps := s.job.steps[k := s.job.steps[k].(state := PreconditionsSatisfied, intent := Some(INTENT))]))
  }

  function Authorized(s: Server, k: nat): Server
    requires k < |s.job.steps|
  {
    s.(job := s.job.(steps := s.job.steps[k := s.job.steps[k].(intent := Some(INTENT))]))
  }

  lemma AuthorizeNext(s: System, k: nat)
    requires Ready(s, k)
    ensures var s' := Next(s, AuthorizeStep(s.server.job.steps[k].id, s.server.job.id, INTENT));
            s' == s.(server := Authorized(s.server, k)) && ServerInv(s'.server)
  {
    IntentIff(s.server, k, s.server.job.id, INTENT);
    AuthorizeIntentKeeps(s.server, s.server.job.steps[k].id, s.server.job.id, INTENT);
  }

  lemma SatisfyNext(s: System, k: nat)
    requires ServerInv(s.server) && ServerReady(s.server, k) && s.server.job.steps[k].state.StepPending?
    ensures var step := s.server.job.steps[k].(state := PreconditionsSatisfied);
            var s' := Next(s, SatisfyStep(step.id));
            && s' == s.(server := s.server.(job := s.server.job.(steps := s.server.job.steps[k := step])))
            && ServerInv(s'.server)
  {
    EligibleIff(s.server, s.server.job.steps[k].id);
    StepByIdentity(s.server.job.steps, k, s.server.job.steps[k]);
    StepByIdentity(s.server.job.steps, k, s.server.job.steps[k].(state := PreconditionsSatisfied));
    SatisfyKeeps(s.server, s.server.job.steps[k].id);
  }

  lemma SatisfyAuthorized(s: System, k: nat)
    requires ServerReady(s.server, k) && s.server.job.steps[k].state.StepPending?
    requires ServerInv(Authorized(s.server, k))
    ensures var s1 := s.(server := Authorized(s.server, k));
            Next(s1, SatisfyStep(s.server.job.steps[k].id)) == s.(server := Prepared(s.server, k))
    ensures ServerInv(Prepared(s.server, k))
  {
    SatisfyNext(s.(server := Authorized(s.server, k)), k);
  }

  /** Authorization and eligibility. */
  lemma Prepare(s: System, k: nat) returns (run: seq<Step>)
    requires Ready(s, k)
    ensures ValidRun(s, run) && Ordinary(run)
    ensures Exec(s, run) == s.(server := Prepared(s.server, k)) && ServerInv(Exec(s, run).server)
  {
    var x := s.server.job.steps[k].id;
    var authorize, satisfy := AuthorizeStep(x, s.server.job.id, INTENT), SatisfyStep(x);
    AuthorizeNext(s, k);
    SatisfyAuthorized(s, k);
    TwoSteps(s, authorize, satisfy);
    run := [authorize, satisfy];
  }

  ghost predicate ServerReady(s: Server, k: nat) {
    s.job.state.Running? && k == |s.attempts| < |s.job.steps| && Advanced(s.attempts)
  }

  function Dispatched(s: Server, k: nat, attemptId: Uuid, actionId: Uuid): Server
    requires k < |s.job.steps|
  {
    var step := s.job.steps[k].(state := Dispatching, intent := Some(INTENT));
    s.(job := s.job.(steps := s.job.steps[k := step]),
       attempts := s.attempts + [Attempt(attemptId, step.id, actionId, AttemptState.Dispatched)],
       payloads := s.payloads + [SIMULATED_CONTENT])
  }

  /** The destructive gate opens for the prepared step. */
  lemma GateOpens(s: Server, k: nat, attemptId: Uuid, actionId: Uuid)
    requires ServerInv(s) && s.job.state.Running? && k == |s.attempts| < |s.job.steps| && Advanced(s.attempts)
    requires s.job.steps[k].state.PreconditionsSatisfied? && s.job.steps[k].intent == Some(INTENT)
    ensures DispatchDestructive(s, s.job.steps[k].id, GOOD_FACTS, attemptId, actionId) ==
            (Dispatched(s, k, attemptId, actionId), {ActionDispatch(actionId, SIMULATED_CONTENT)})
  {
    var x := s.job.steps[k].id;
    StepByIdentity(s.job.steps, k, s.job.steps[k]);
    StepByIdentity(s.job.steps, k, s.job.steps[k].(state := Dispatching));
    forall i | 0 <= i < k ensures s.job.steps[i].state.StepSucceeded? && s.attempts[i].jobStepId != x {
      assert Mirrors(s.job.steps[i], s.attempts[i]);
    }
    assert EarlierStepsSucceeded(s.job.steps, k);
    assert !HasActiveAttempt(s.attempts, x);
    DestructiveGateIff(s.job, x, false, GOOD_FACTS, attemptId, actionId);
    assert s.job.steps[k].(state := Dispatching) == s.job.steps[k].(state := Dispatching, intent := Some(INTENT));
  }

  lemma DispatchCommits(s: System, k: nat, server: Server, attemptId: Uuid, actionId: Uuid)
    requires ServerInv(s.server) && ServerReady(server, k) && s.server == Prepared(server, k)
    requires Fresh(s, attemptId, actionId)
    ensures DispatchDestructive(s.server, server.job.steps[k].id, GOOD_FACTS, attemptId, actionId) ==
            (Dispatched(server, k, attemptId, actionId), {ActionDispatch(actionId, SIMULATED_CONTENT)})
    ensures ServerInv(Dispatched(server, k, attemptId, actionId))
  {
    GateOpens(s.server, k, attemptId, actionId);
    assert Dispatched(s.server, k, attemptId, actionId) == Dispatched(server, k, attemptId, actionId);
    FreshRows(s, attemptId, actionId);
    DestructiveKeeps(s.server, server.job.steps[k].id, GOOD_FACTS, attemptId, actionId);
  }

  lemma DispatchNext(s: System, k: nat, server: Server) returns (run: seq<Step>, attemptId: Uuid, actionId: Uuid)
    requires ServerInv(s.server) && ServerReady(server, k) && s.server == Prepared(server, k)
    ensures ValidRun(s, run) && Ordinary(run) && ServerInv(Exec(s, run).server) && Fresh(s, attemptId, actionId)
    ensures Exec(s, run) == s.(server := Dispatched(server, k, attemptId, actionId),
                               net := s.net + {ActionDispatch(actionId, SIMULATED_CONTENT)})
  {
    attemptId, actionId := FreshIds(s);
    var step := DestructiveStep(server.job.steps[k].id, GOOD_FACTS, attemptId, actionId);
    DispatchCommits(s, k, server, attemptId, actionId);
    One(s, step);
    run := [step];
  }


  /** An accepted action can be run to a reported success. */
  lemma Complete(s: System, actionId: Uuid) returns (run: seq<Step>)
    requires Record(s.agent, actionId).Some? && Record(s.agent, actionId).value.ActiveAction?
    ensures ValidRun(s, run) && Ordinary(run) && Exec(s, run).server == s.server
    ensures ActionResult(actionId, OutcomeSucceeded, RESULT_CODE) in Exec(s, run).net
  {
    var configure, execute := ConfigureScenario(actionId, AcceptThenSucceed), AgentRuns(actionId);
    Completes(Next(s, configure), actionId);
    TwoSteps(s, configure, execute);
    run := [configure, execute];
  }

  /** The Agent accepts the action, runs it and reports success. */
  lemma Execute(s: System, actionId: Uuid) returns (run: seq<Step>)
    requires ActionDispatch(actionId, SIMULATED_CONTENT) in s.net && actionId !in s.agent.local
    ensures ValidRun(s, run) && Ordinary(run) && Exec(s, run).server == s.server
    ensures ActionResult(actionId, OutcomeSucceeded, RESULT_CODE) in Exec(s, run).net
  {
    var configure := ConfigureScenario(actionId, AcceptThenSucceed);
    var receive := AgentReceives(ActionDispatch(actionId, SIMULATED_CONTENT));
    Accepts(Next(s, configure), actionId);
    TwoSteps(s, configure, receive);
    var complete := Complete(Exec(s, [configure, receive]), actionId);
    Append(s, [configure, receive], complete);
    run := [configure, receive] + complete;
  }

  lemma Accepts(s: System, actionId: Uuid)
    requires ActionDispatch(actionId, SIMULATED_CONTENT) in s.net && actionId !in s.agent.local
    requires actionId in s.agent.scenarios && s.agent.scenarios[actionId].AcceptThenSucceed?
    ensures var receive := AgentReceives(ActionDispatch(actionId, SIMULATED_CONTENT));
            && Enabled(s, receive)
            && Next(s, receive).server == s.server && Next(s, receive).agent.scenarios == s.agent.scenarios
            && Record(Next(s, receive).agent, actionId) == Some(ActiveAction(SIMULATED_CONTENT))
  {
  }

  lemma Completes(s: System, actionId: Uuid)
    requires Record(s.agent, actionId).Some? && Record(s.agent, actionId).value.ActiveAction?
    requires actionId in s.agent.scenarios && s.agent.scenarios[actionId].AcceptThenSucceed?
    ensures Enabled(s, AgentRuns(actionId)) && Next(s, AgentRuns(actionId)).server == s.server
    ensures ActionResult(actionId, OutcomeSucceeded, RESULT_CODE) in Next(s, AgentRuns(actionId)).net
  {
    var sent := OnRun(s.agent, actionId).value.1;
    assert sent[|sent| - 1] == ActionResult(actionId, OutcomeSucceeded, RESULT_CODE);
  }

  /** The Server learns of the success. */
  lemma Report(s: System, k: nat, actionId: Uuid)
    requires ServerInv(s.server) && s.server.job.state.Running? && k == |s.server.attempts| - 1
    requires s.server.attempts[k].actionId == actionId && s.server.attempts[k].state.Dispatched?
    requires ActionResult(actionId, OutcomeSucceeded, RESULT_CODE) in s.net
    ensures var after := Receive(s.server, ActionResult(actionId, OutcomeSucceeded, RESULT_CODE));
            && |after.attempts| == k + 1 && Advanced(after.attempts) && after.payloads == s.server.payloads
            && after.job.steps == s.server.job.steps[k := s.server.job.steps[k].(state := StepSucceeded)]
            && after.job.state == if k + 1 == |s.server.job.steps| then Succeeded else Running
  {
    var m := ActionResult(actionId, OutcomeSucceeded, RESULT_CODE);
    AttemptByAction(s.server.attempts, k);
    ReceiveAt(s.server, m, k);
    LastStepIff(s.server, k);
    StepByIdentity(s.server.job.steps, k, s.server.job.steps[k].(state := StepSucceeded));
  }

  /** From a ready step to the dispatch of its action. */
  lemma FirstHalf(s: System, k: nat) returns (run: seq<Step>, attemptId: Uuid, actionId: Uuid)
    requires Ready(s, k)
    ensures ValidRun(s, run) && Ordinary(run) && ServerInv(Exec(s, run).server)
    ensures Exec(s, run).server == Dispatched(s.server, k, attemptId, actionId)
    ensures ActionDispatch(actionId, SIMULATED_CONTENT) in Exec(s, run).net
    ensures actionId !in Exec(s, run).agent.local
  {
    var prepare := Prepare(s, k);
    var dispatch;
    dispatch, attemptId, actionId := DispatchNext(Exec(s, prepare), k, s.server);
    Append(s, prepare, dispatch);
    run := prepare + dispatch;
  }

  /** From there to the Server's knowledge of the success. */
  lemma SecondHalf(s: System, k: nat, actionId: Uuid) returns (run: seq<Step>)
    requires ServerInv(s.server) && s.server.job.state.Running? && k == |s.server.attempts| - 1
    requires s.server.attempts[k].actionId == actionId && s.server.attempts[k].state.Dispatched?
    requires ActionDispatch(actionId, SIMULATED_CONTENT) in s.net && actionId !in s.agent.local
    ensures ValidRun(s, run) && Ordinary(run) && ServerInv(Exec(s, run).server)
    ensures var after := Exec(s, run).server;
            && |after.attempts| == k + 1 && Advanced(after.attempts) && after.payloads == s.server.payloads
            && after.job.steps == s.server.job.steps[k := s.server.job.steps[k].(state := StepSucceeded)]
            && after.job.state == if k + 1 == |s.server.job.steps| then Succeeded else Running
  {
    var execute := Execute(s, actionId);
    var s1 := Exec(s, execute);
    Report(s1, k, actionId);
    var report := ServerReceives(ActionResult(actionId, OutcomeSucceeded, RESULT_CODE));
    ReceiveKeeps(s1.server, report.m);
    One(s1, report);
    Append(s, execute, [report]);
    run := execute + [report];
  }

  lemma Round(s: System, k: nat) returns (run: seq<Step>)
    requires Ready(s, k)
    ensures ValidRun(s, run) && Ordinary(run)
    ensures |Exec(s, run).server.job.steps| == |s.server.job.steps|
    ensures Exec(s, run).server.payloads == s.server.payloads + [SIMULATED_CONTENT]
    ensures if k + 1 < |s.server.job.steps| then Ready(Exec(s, run), k + 1)
            else Exec(s, run).server.job.state.Succeeded?
  {
    var first, attemptId, actionId := FirstHalf(s, k);
    var second := SecondHalf(Exec(s, first), k, actionId);
    Append(s, first, second);
    run := first + second;
  }

  lemma {:induction false} Rounds(s: System, k: nat) returns (run: seq<Step>)
    requires Ready(s, k)
    ensures ValidRun(s, run) && Exec(s, run).server.job.state.Succeeded?
    decreases |s.server.job.steps| - k
  {
    run := Round(s, k);
    if k + 1 < |s.server.job.steps| {
      var rest := Rounds(Exec(s, run), k + 1);
      Append(s, run, rest);
      run := run + rest;
    }
  }

  lemma Admitted(s: System)
    requires Initial(s)
    ensures Ready(Next(s, AdmitStep), 0)
  {
    InitialHolds(s);
    AdmitStepKeeps(s);
  }

  lemma SucceedingRun(s: System) returns (run: seq<Step>)
    requires Initial(s)
    ensures ValidRun(s, run) && Exec(s, run).server.job.state.Succeeded?
  {
    Admitted(s);
    One(s, AdmitStep);
    var rest := Rounds(Next(s, AdmitStep), 0);
    Append(s, [AdmitStep], rest);
    run := [AdmitStep] + rest;
  }

  lemma EveryWorkflowCanSucceed(s: System)
    requires Initial(s)
    ensures exists run :: ValidRun(s, run) && Exec(s, run).server.job.state.Succeeded?
  {
    var run := SucceedingRun(s);
  }

  // ---------------------------------------------------------------------
  // Settling an uncertain Attempt
  // ---------------------------------------------------------------------

  ghost predicate Uncertainly(s: System, k: nat) {
    SystemInv(s) && k < |s.server.attempts| && s.server.attempts[k].state.AwaitingReconciliation?
  }

  /** The Agent has finished with the action, one way or the other. */
  ghost predicate Final(s: System, k: nat)
    requires k < |s.server.attempts|
  {
    var record := Record(s.agent, s.server.attempts[k].actionId);
    record.Some? && (record.value.CompletedAction? || record.value.CancelledAction?)
  }

  /** Only a supported payload is not refused on sight. */
  lemma Supported(content: DispatchContent)
    requires ContentRefusal(content).None?
    ensures content == SIMULATED_CONTENT
  {
  }

  /** The Agent can be made to finish every action that it has not rejected. */
  lemma Finish(s: System, k: nat) returns (run: seq<Step>)
    requires Uncertainly(s, k)
    requires !Refused(Record(s.agent, s.server.attempts[k].actionId), s.server.payloads[k])
    ensures ValidRun(s, run) && NoClosure(run)
    ensures SystemInv(Exec(s, run)) && Exec(s, run).server == s.server && Final(Exec(s, run), k)
  {
    var a := s.server.attempts[k].actionId;
    assert Linked(s, k);
    if Final(s, k) {
      run := [];
    } else {
      if Record(s.agent, a).None? {
        Supported(s.server.payloads[k]);
        run := Execute(s, a);
      } else {
        run := Complete(s, a);
      }
      RunKeeps(s, run);
      ResultIsFinal(Exec(s, run), k);
    }
  }

  lemma ResultIsFinal(s: System, k: nat)
    requires SystemInv(s) && k < |s.server.attempts|
    requires ActionResult(s.server.attempts[k].actionId, OutcomeSucceeded, RESULT_CODE) in s.net
    ensures Final(s, k)
  {
    assert Linked(s, k);
  }

  /** The Agent answers a status query. */
  lemma Ask(s: System, k: nat) returns (run: seq<Step>)
    requires Uncertainly(s, k)
    ensures ValidRun(s, run) && NoClosure(run)
    ensures SystemInv(Exec(s, run)) && Exec(s, run).server == s.server && Exec(s, run).agent == s.agent
    ensures OnStatusQuery(s.agent, s.server.attempts[k].actionId) in Exec(s, run).net
  {
    var query, answer := QueryStatusStep(k), AgentReceives(StatusQuery(s.server.attempts[k].actionId));
    NextKeeps(s, query);
    NextKeeps(Next(s, query), answer);
    TwoSteps(s, query, answer);
    run := [query, answer];
  }

  /** Its answer then settles the Attempt. */
  lemma Learn(s: System, k: nat) returns (run: seq<Step>)
    requires Uncertainly(s, k) && Final(s, k)
    ensures ValidRun(s, run) && NoClosure(run)
    ensures k < |Exec(s, run).server.attempts| && !Active(Exec(s, run).server.attempts[k].state)
  {
    var ask := Ask(s, k);
    var s1, report := Exec(s, ask), ServerReceives(OnStatusQuery(s.agent, s.server.attempts[k].actionId));
    ReportConcludes(s1, k);
    One(s1, report);
    Append(s, ask, [report]);
    run := ask + [report];
  }

  lemma ReportConcludes(s: System, k: nat)
    requires Uncertainly(s, k) && Final(s, k)
    requires OnStatusQuery(s.agent, s.server.attempts[k].actionId) in s.net
    ensures var after := Receive(s.server, OnStatusQuery(s.agent, s.server.attempts[k].actionId));
            k < |after.attempts| && !Active(after.attempts[k].state)
  {
    var m := OnStatusQuery(s.agent, s.server.attempts[k].actionId);
    assert Linked(s, k);
    ActiveIsLast(s.server, k);
    SettlesNow(s, m, k);
  }

  /** This run ends the Attempt, and not by its closure. */
  ghost predicate EndsByEvidence(s: System, k: nat, run: seq<Step>) {
    && ValidRun(s, run) && CloseStep(k) !in run
    && k < |Exec(s, run).server.attempts| && !Active(Exec(s, run).server.attempts[k].state)
  }

  lemma Settle(s: System, k: nat) returns (run: seq<Step>)
    requires Uncertainly(s, k)
    requires !Refused(Record(s.agent, s.server.attempts[k].actionId), s.server.payloads[k])
    ensures EndsByEvidence(s, k, run)
  {
    var finish := Finish(s, k);
    var learn := Learn(Exec(s, finish), k);
    Append(s, finish, learn);
    run := finish + learn;
  }

  /** In every reachable state, an uncertain Attempt can still be ended by evidence exactly
      when the Agent has not rejected its action and, not having seen it yet, would accept
      its payload. */
  lemma SettlesIff(s: System, run: seq<Step>, k: nat)
    requires Initial(s) && ValidRun(s, run)
    requires k < |Exec(s, run).server.attempts|
    requires Exec(s, run).server.attempts[k].state.AwaitingReconciliation?
    ensures var e := Exec(s, run);
            && k < |e.server.payloads|
            && ((exists more :: EndsByEvidence(e, k, more)) <==>
                !Refused(Record(e.agent, e.server.attempts[k].actionId), e.server.payloads[k]))
  {
    Reached(s, run);
    var e := Exec(s, run);
    if Refused(Record(e.agent, e.server.attempts[k].actionId), e.server.payloads[k]) {
      forall more | ValidRun(e, more) && CloseStep(k) !in more ensures !EndsByEvidence(e, k, more) {
        LostRejection(e, k, more);
      }
    } else {
      var more := Settle(e, k);
    }
  }

  // ---------------------------------------------------------------------
  // A cancellation that would abandon a running Attempt
  // ---------------------------------------------------------------------

  lemma FirstRound(s: System) returns (run: seq<Step>)
    requires Initial(s) && |s.server.job.steps| > 1
    ensures ValidRun(s, run) && Ready(Exec(s, run), 1)
  {
    Admitted(s);
    One(s, AdmitStep);
    var first := Round(Next(s, AdmitStep), 0);
    Append(s, [AdmitStep], first);
    run := [AdmitStep] + first;
  }

  lemma SecondRunning(s: System) returns (run: seq<Step>)
    requires Initial(s) && |s.server.job.steps| > 1
    ensures ValidRun(s, run) && SystemInv(Exec(s, run))
    ensures var e := Exec(s, run).server;
            e.job.state.Running? && |e.attempts| == 2 && !Active(e.attempts[0].state) && LastActive(e.attempts)
  {
    var first := FirstRound(s);
    var s1 := Exec(s, first);
    var second, attemptId, actionId := FirstHalf(s1, 1);
    TwoAttempts(s1.server, attemptId, actionId);
    Append(s, first, second);
    run := first + second;
    Reached(s, run);
  }

  lemma TwoAttempts(s: Server, attemptId: Uuid, actionId: Uuid)
    requires s.job.state.Running? && 1 == |s.attempts| < |s.job.steps| && Advanced(s.attempts)
    ensures var e := Dispatched(s, 1, attemptId, actionId);
            e.job.state.Running? && |e.attempts| == 2 && !Active(e.attempts[0].state) && LastActive(e.attempts)
  {
  }

  /** Cancelling, with an earlier Attempt whose completion report would end the Job under
      its running one. */
  ghost predicate Abandonable(s: Server) {
    && s.job.state.Cancelling? && |s.attempts| > 1 && !Active(s.attempts[0].state) && LastActive(s.attempts)
    && var after := Receive(s, CancelAck(s.attempts[0].actionId, AckAlreadyCompleted));
    after.job.state.Cancelled? && LastActive(after.attempts)
  }

  lemma CancelExposes(e: System)
    requires SystemInv(e) && e.server.job.state.Running? && LastActive(e.server.attempts)
    requires |e.server.attempts| > 1 && !Active(e.server.attempts[0].state)
    ensures Abandonable(Next(e, CancelStep).server)
  {
    CancelMarks(e);
    NextKeeps(e, CancelStep);
    EarlierAckAbandons(Next(e, CancelStep).server, 0);
  }

  /** Every Job of two or more steps can get there. The report itself is one that the Agent
      never sends. */
  lemma EarlierAckIsReachable(s: System)
    requires Initial(s) && |s.server.job.steps| > 1
    ensures exists run :: ValidRun(s, run) && Abandonable(Exec(s, run).server)
  {
    var run := SecondRunning(s);
    CancelExposes(Exec(s, run));
    One(Exec(s, run), CancelStep);
    Append(s, run, [CancelStep]);
    assert Abandonable(Exec(s, run + [CancelStep]).server);
  }

  // ---------------------------------------------------------------------
  // A rejection learned too late
  // ---------------------------------------------------------------------

  /** The Agent rejects a dispatched action. */
  lemma Reject(s: System, actionId: Uuid) returns (run: seq<Step>)
    requires SystemInv(s) && ActionDispatch(actionId, SIMULATED_CONTENT) in s.net && actionId !in s.agent.local
    ensures ValidRun(s, run) && SystemInv(Exec(s, run)) && Exec(s, run).server == s.server
    ensures Record(Exec(s, run).agent, actionId).Some? && Record(Exec(s, run).agent, actionId).value.RejectedAction?
  {
    var configure := ConfigureScenario(actionId, Scenario.Reject);
    var receive := AgentReceives(ActionDispatch(actionId, SIMULATED_CONTENT));
    NextKeeps(s, configure);
    NextKeeps(Next(s, configure), receive);
    TwoSteps(s, configure, receive);
    run := [configure, receive];
  }

  lemma LoseSight(s: System, k: nat)
    requires SystemInv(s) && k < |s.server.attempts| && s.server.attempts[k].state.Dispatched?
    requires var record := Record(s.agent, s.server.attempts[k].actionId);
             record.Some? && record.value.RejectedAction?
    ensures StuckOnRejection(Next(s, LoseConnectionStep(s.server.attempts[k].actionId)), k)
  {
    AttemptByAction(s.server.attempts, k);
    NextKeeps(s, LoseConnectionStep(s.server.attempts[k].actionId));
  }

  lemma FirstDispatched(s: System) returns (run: seq<Step>, actionId: Uuid)
    requires Initial(s)
    ensures ValidRun(s, run) && SystemInv(Exec(s, run))
    ensures var e := Exec(s, run);
            && |e.server.attempts| == 1 && e.server.attempts[0].actionId == actionId
            && e.server.attempts[0].state.Dispatched?
            && ActionDispatch(actionId, SIMULATED_CONTENT) in e.net && actionId !in e.agent.local
  {
    Admitted(s);
    One(s, AdmitStep);
    var first, attemptId;
    first, attemptId, actionId := FirstHalf(Next(s, AdmitStep), 0);
    Append(s, [AdmitStep], first);
    run := [AdmitStep] + first;
    Reached(s, run);
  }

  lemma GetStuck(s: System, actionId: Uuid) returns (run: seq<Step>)
    requires SystemInv(s) && |s.server.attempts| == 1 && s.server.attempts[0].actionId == actionId
    requires s.server.attempts[0].state.Dispatched?
    requires ActionDispatch(actionId, SIMULATED_CONTENT) in s.net && actionId !in s.agent.local
    ensures ValidRun(s, run) && StuckOnRejection(Exec(s, run), 0)
  {
    var reject := Reject(s, actionId);
    LoseSight(Exec(s, reject), 0);
    One(Exec(s, reject), LoseConnectionStep(actionId));
    Append(s, reject, [LoseConnectionStep(actionId)]);
    run := reject + [LoseConnectionStep(actionId)];
  }

  /** Every Job can get stuck on a rejection: the Agent rejects its first action, and the
      connection is lost with the rejection on it. */
  lemma LostRejectionIsReachable(s: System)
    requires Initial(s)
    ensures exists run :: ValidRun(s, run) && StuckOnRejection(Exec(s, run), 0)
  {
    var first, actionId := FirstDispatched(s);
    var second := GetStuck(Exec(s, first), actionId);
    Append(s, first, second);
    assert StuckOnRejection(Exec(s, first + second), 0);
  }
}

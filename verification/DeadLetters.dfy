/** Dead letters: exactly the failures that cannot be reopened, and never left again. */
module DeadLetters {
  import opened Base
  import opened Actions
  import opened ActionStore
  import opened Executors
  import opened Protocol
  import opened Linearization
  import opened Lifecycle

  /** Every failed action is reapprovable or a dead letter, and never both. */
  lemma FailedIsReapprovableOrDead(a: Action)
    ensures a.status == Failed <==> (CanBeReapproved(a) || IsDlqCandidate(a))
    ensures !(CanBeReapproved(a) && IsDlqCandidate(a))
    ensures CanBeReapproved(a) <==> !ReapprovalDenied(a)
  {
  }

  /** Nothing the guarded calls can do: terminal, dead, or approved for a pair no executor serves. */
  predicate Quiescent(a: Action) {
    IsTerminal(a.status) || IsDlqCandidate(a) || (a.status == Approved && !IsServiceExecutable(a))
  }

  /** The quiescent actions are exactly those every call refuses. */
  lemma QuiescentIffAllDenied(a: Action)
    ensures Quiescent(a) <==> forall call :: Denial(call, a).Some?
  {
    if !Quiescent(a) {
      match a.status
      case Pending => assert Denial(ApproveCall(0, None), a) == None;
      case Approved => assert Denial(ExecuteCall(None), a) == None;
      case Failed => assert Denial(ReapproveCall(0), a) == None;
    }
  }

  lemma StepKeepsQuiescent(s: State, step: Step, id: Uuid)
    requires Inv(s) && Enabled(s, step) && GuardedStep(step)
    requires id in s.store && Quiescent(s.store[id])
    ensures id in Next(s, step).store && Next(s, step).store[id] == s.store[id]
  {
    if step.TryCommit? {
      var client := s.clients[step.c];
      assert ClientOk(s.log, s.shown, client);
      if Cas(s.store, client.id, WriteOf(client.call, step.env), TokenOf(client.call, client.snapshot)).result.Ok? {
        TwoPhasesAreOne(s.log, s.store, client.seenAt, client.id, client.call, step.env, client.snapshot);
      }
    }
  }

  /** Absorption: whatever guarded calls follow, in any interleaving, a quiescent action stays as it is. */
  lemma {:induction false} QuiescentForever(steps: seq<Step>, i: nat, id: Uuid)
    requires IsGuardedRun(steps) && i <= |steps| && IsRun(steps[..i])
    requires id in Reached(steps[..i]).store && Quiescent(Reached(steps[..i]).store[id])
    ensures id in Reached(steps).store && Reached(steps).store[id] == Reached(steps[..i]).store[id]
  {
    if i == |steps| {
      assert steps[..i] == steps;
    } else {
      var init := steps[..|steps| - 1];
      assert init[..i] == steps[..i];
      assert forall k :: 0 <= k < |init| ==> init[k] == steps[k];
      QuiescentForever(init, i, id);
      RunKeepsInv(init);
      assert GuardedStep(steps[|steps| - 1]);
      StepKeepsQuiescent(Reached(init), steps[|steps| - 1], id);
    }
  }

  // ----- With the shipped executors, a failure is always final -----

  /** Every executor answer in the run is one a shipped executor gives for the snapshot it was handed. */
  ghost predicate IsShippedRun(steps: seq<Step>)
    requires IsRun(steps)
  {
    if steps == [] then true
    else
      var s, step := Reached(steps[..|steps| - 1]), steps[|steps| - 1];
      && IsShippedRun(steps[..|steps| - 1])
      && (step.RunExecutor? ==>
            exists ledger, at :: step.answer == Some(ShippedExecution(ledger, s.clients[step.c].snapshot, at)))
  }

  predicate OneShot(a: Action) {
    && LifecycleOk(a) && a.attemptCount <= 1 && (a.status in {Pending, Approved, Waived} ==> a.attemptCount == 0)
    && (a.payload.Some? ==> Final(a.payload.value))
  }

  predicate FinalAnswers(s: State) {
    && (forall id :: id in s.store ==> OneShot(s.store[id]))
    && (forall c :: c in s.clients && s.clients[c].Ready? && s.clients[c].answer.Some? ==>
        Final(s.clients[c].answer.value))
  }

  lemma OneShotStep(a: Action, call: Call, env: Env)
    requires OneShot(a) && Denial(call, a) == None && (call.ExecuteCall? ==> Final(env.result))
    ensures OneShot(Apply(a, WriteOf(call, env)))
  {
    CallKeepsLifecycle(call, a, env);
  }

  lemma ShippedCommit(s: State, c: nat, env: Env)
    requires Inv(s) && Enabled(s, TryCommit(c, env)) && FinalAnswers(s)
    ensures FinalAnswers(Next(s, TryCommit(c, env)))
  {
    var client := s.clients[c];
    assert ClientOk(s.log, s.shown, client);
    if Cas(s.store, client.id, WriteOf(client.call, env), TokenOf(client.call, client.snapshot)).result.Ok? {
      TwoPhasesAreOne(s.log, s.store, client.seenAt, client.id, client.call, env, client.snapshot);
      OneShotStep(client.snapshot, client.call, env);
    }
  }

  lemma ShippedStep(s: State, step: Step)
    requires Inv(s) && Enabled(s, step) && GuardedStep(step) && FinalAnswers(s)
    requires step.RunExecutor? && step.answer.Some? ==> Final(step.answer.value)
    ensures FinalAnswers(Next(s, step))
  {
    if step.TryCommit? {
      ShippedCommit(s, step.c, step.env);
    }
  }

  lemma {:induction false} ShippedRunsAnswerFinally(steps: seq<Step>)
    requires IsGuardedRun(steps) && IsShippedRun(steps)
    ensures FinalAnswers(Reached(steps))
  {
    if steps != [] {
      var init, step := steps[..|steps| - 1], steps[|steps| - 1];
      assert forall k :: 0 <= k < |init| ==> init[k] == steps[k];
      ShippedRunsAnswerFinally(init);
      RunKeepsInv(init);
      assert GuardedStep(step);
      if step.RunExecutor? {
        var snapshot := Reached(init).clients[step.c].snapshot;
        var ledger, at :| step.answer == Some(ShippedExecution(ledger, snapshot, at));
        ShippedResultsAreFinal(ledger, snapshot, at);
      }
      ShippedStep(Reached(init), step);
    }
  }

  /**
   Over all actions, ledgers and guarded interleavings with the shipped executors: every failed
   action is a dead letter, nothing is attempted twice, and no version exceeds two.
   */
  lemma ShippedFailuresAreDead(steps: seq<Step>, id: Uuid)
    requires IsGuardedRun(steps) && IsShippedRun(steps) && id in Reached(steps).store
    ensures var a := Reached(steps).store[id];
      && (a.status == Failed ==> IsDlqCandidate(a))
      && a.attemptCount <= 1 && a.lockVersion <= 2
      && forall token :: Denial(ReapproveCall(token), a).Some?
  {
    ShippedRunsAnswerFinally(steps);
    assert OneShot(Reached(steps).store[id]);
  }
}

/** Calls that were refused: each has a moment of its own at which one atomic call would have been refused too. */
module Refusals {
  import opened Base
  import opened Actions
  import opened ActionStore
  import opened Protocol
  import opened History
  import opened Linearization
  import opened Lifecycle

  /** Performed atomically after the first `k` writes, the call is refused. */
  predicate RefusedAt(log: seq<Event>, k: nat, id: Uuid, call: Call, env: Env)
    requires k <= |log|
  {
    Perform(Sequential(log[..k]), id, call, env).result.Err?
  }

  lemma PrefixOk(log: seq<Event>, k: nat)
    requires LogOk(log) && k <= |log|
    ensures LogOk(log[..k]) && StoreIsLog(Sequential(log[..k]), log[..k])
  {
    if k < |log| {
      LogOkAt(log, k);
    } else {
      assert log[..k] == log;
    }
    SequentialIsCurrent(log[..k]);
  }

  /** A call validated on its snapshot, whose compare-and-swap is rejected now. */
  ghost predicate Rejected(log: seq<Event>, seenAt: nat, id: Uuid, call: Call, env: Env, snapshot: Action) {
    && LogOk(log) && seenAt <= |log| && Current(log[..seenAt], id) == Some(snapshot)
    && Denial(call, snapshot) == None
    && Cas(Sequential(log), id, WriteOf(call, env), TokenOf(call, snapshot)).result.Err?
  }

  /**
   With a caller's token the rejection is itself atomic: the same call made now would be
   refused, raw writers or not.
   */
  lemma RejectedTokenIsRefusedNow(log: seq<Event>, seenAt: nat, id: Uuid, call: Call, env: Env, snapshot: Action)
    requires Rejected(log, seenAt, id, call, env, snapshot) && !call.ExecuteCall?
    ensures RefusedAt(log, |log|, id, call, env)
  {
    assert log[..|log|] == log;
  }

  lemma {:induction false} IdentityStays(log: seq<Event>, i: nat, id: Uuid)
    requires LogOk(log) && i <= |log| && Current(log[..i], id).Some?
    ensures Current(log, id).Some? && SameIdentity(Current(log[..i], id).value, Current(log, id).value)
  {
    if i == |log| {
      assert log[..i] == log;
    } else {
      var init, e := log[..|log| - 1], log[|log| - 1];
      assert init[..i] == log[..i];
      IdentityStays(init, i, id);
      if IdOf(e) == id && e.Commit? {
        ApplyFrame(e.before, WriteOf(e.call, e.env));
      }
    }
  }

  /** Whether the action was in a status other than Approved after the first `k` writes. */
  predicate LeftApprovedAt(log: seq<Event>, k: nat, id: Uuid)
    requires k <= |log|
  {
    Current(log[..k], id).Some? && Current(log[..k], id).value.status != Approved
  }

  /**
   An execution uses its own snapshot's version, so its rejection has an atomic counterpart at a
   moment of its window exactly if the action was not Approved at that moment.
   */
  lemma ExecutionRefusedIffNotApproved(log: seq<Event>, seenAt: nat, k: nat, id: Uuid, call: Call, env: Env,
                                       snapshot: Action)
    requires Rejected(log, seenAt, id, call, env, snapshot) && call.ExecuteCall? && seenAt <= k <= |log|
    ensures RefusedAt(log, k, id, call, env) <==> LeftApprovedAt(log, k, id)
  {
    PrefixOk(log, k);
    assert log[..k][..seenAt] == log[..seenAt];
    IdentityStays(log[..k], seenAt, id);
  }

  lemma {:induction false} FirstWrite(log: seq<Event>, from: nat, id: Uuid) returns (j: nat)
    requires from <= |log| && !Untouched(log, from, |log|, id)
    ensures from <= j < |log| && IdOf(log[j]) == id && Untouched(log, from, j, id)
  {
    j := from;
    while IdOf(log[j]) != id
      invariant from <= j < |log| && Untouched(log, from, j, id) && !Untouched(log, j, |log|, id)
      decreases |log| - j
    {
      j := j + 1;
    }
  }

  lemma RejectedMeansWritten(log: seq<Event>, seenAt: nat, id: Uuid, call: Call, env: Env, snapshot: Action)
    requires Rejected(log, seenAt, id, call, env, snapshot) && call.ExecuteCall?
    ensures !Untouched(log, seenAt, |log|, id)
  {
    SequentialIsCurrent(log);
    VersionsTell(log, seenAt, id);
    if Untouched(log, seenAt, |log|, id) {
      UntouchedKeepsCurrent(log, seenAt, id);
    }
  }

  /** In a guarded history the first write after the snapshot of an execution takes the action out of Approved. */
  lemma WindowLeavesApproved(log: seq<Event>, seenAt: nat, id: Uuid, call: Call, env: Env, snapshot: Action)
    returns (k: nat)
    requires Rejected(log, seenAt, id, call, env, snapshot) && GuardedLog(log) && call.ExecuteCall?
    ensures seenAt <= k <= |log| && LeftApprovedAt(log, k, id)
  {
    RejectedMeansWritten(log, seenAt, id, call, env, snapshot);
    var j := FirstWrite(log, seenAt, id);
    LogOkAt(log, j);
    assert log[..j][..seenAt] == log[..seenAt];
    UntouchedKeepsCurrent(log[..j], seenAt, id);
    CurrentAppend(log[..j], log[j], id);
    assert log[..j + 1] == log[..j] + [log[j]];
    assert GuardedEvent(log[j]);
    k := j + 1;
  }

  /**
   Linearizability of refused calls, over every guarded interleaving: whenever a compare-and-swap is
   rejected, there is a moment between the call's snapshot and now at which the same call, made
   atomically, would have been refused.
   */
  lemma {:induction false} RejectionsLinearize(steps: seq<Step>, c: nat, env: Env) returns (k: nat)
    requires IsGuardedRun(steps) && Enabled(Reached(steps), TryCommit(c, env))
    requires var s, client := Reached(steps), Reached(steps).clients[c];
      Cas(s.store, client.id, WriteOf(client.call, env), TokenOf(client.call, client.snapshot)).result.Err?
    ensures var s, client := Reached(steps), Reached(steps).clients[c];
      client.seenAt <= k <= |s.log| && RefusedAt(s.log, k, client.id, client.call, env)
  {
    var s, client := Reached(steps), Reached(steps).clients[c];
    RunKeepsInv(steps);
    RunsLinearize(steps);
    GuardedRunsLogOnlyCalls(steps);
    assert ClientOk(s.log, s.shown, client);
    if client.call.ExecuteCall? {
      k := WindowLeavesApproved(s.log, client.seenAt, client.id, client.call, env, client.snapshot);
      ExecutionRefusedIffNotApproved(s.log, client.seenAt, k, client.id, client.call, env, client.snapshot);
    } else {
      RejectedTokenIsRefusedNow(s.log, client.seenAt, client.id, client.call, env, client.snapshot);
      k := |s.log|;
    }
  }

  /** A call turned away by its own validation is refused atomically at that moment, with the same error. */
  lemma {:induction false} DenialsLinearize(steps: seq<Step>, c: nat, env: Env)
    requires IsRun(steps) && Enabled(Reached(steps), TakeSnapshot(c))
    ensures var s, client := Reached(steps), Reached(steps).clients[c];
      c !in Next(s, TakeSnapshot(c)).clients ==>
      Perform(Sequential(s.log), client.id, client.call, env) ==
      Outcome(s.store, Err(if client.id in s.store then Denial(client.call, s.store[client.id]).value
                           else ActionNotFound(client.id)))
  {
    RunsLinearize(steps);
  }

  /**
   An unvalidated writer can rewrite an Approved action as Approved. An execution validated before
   that is rejected although at both moments of its window an atomic execution would succeed.
   */
  lemma RawWriterBreaksRefusals(a: Action, env: Env)
    requires a.status == Approved && IsServiceExecutable(a)
    ensures var call, raw := ExecuteCall(None), Raw(a, Apply(a, SetStatus(Approved, env.now, None, None)));
      var log := [Birth(a), raw];
      && Rejected(log, 1, a.id, call, env, a)
      && !RefusedAt(log, 1, a.id, call, env) && !RefusedAt(log, 2, a.id, call, env)
  {
    var b := Apply(a, SetStatus(Approved, env.now, None, None));
    var log := [Birth(a), Raw(a, b)];
    assert log[..0] == [] && log[..1] == [Birth(a)] && log[..1][..0] == [];
    assert log[..2] == log && log[..|log| - 1] == log[..1];
    assert Current(log[..1], a.id) == Some(a);
    assert EventOk(log[..1], log[1]);
    assert LogOk(log[..1]);
    PrefixOk(log, 1);
    PrefixOk(log, 2);
    assert Current(log, a.id) == Some(b);
  }
}

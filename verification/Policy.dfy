/** The read-only views: policy gates and coordination statuses, their summaries, and their agreement. */
module Policy {
  import opened Base
  import opened Actions
  import opened ActionStore
  import opened ActionServices
  import opened DeadLetters
  import opened Orchestration

  datatype Gate = GateEligible | GateBlocked | GateManualReview

  datatype Coordination = CoordReady | CoordAwaitingPolicy | CoordAwaitingReview | CoordBlocked | CoordTerminal

  function GateOf(a: Action): Gate {
    if IsTerminal(a.status) then GateBlocked
    else if IsDlqCandidate(a) then GateBlocked
    else if a.status == Pending then GateManualReview
    else if a.status == Failed then (if CanBeReapproved(a) then GateManualReview else GateBlocked)
    else if a.status == Approved then (if IsServiceExecutable(a) then GateEligible else GateManualReview)
    else GateBlocked
  }

  function CoordinationOf(a: Action): Coordination {
    if IsTerminal(a.status) then CoordTerminal
    else if IsDlqCandidate(a) then CoordBlocked
    else match a.status
      case Pending => CoordAwaitingPolicy
      case Failed => if CanBeReapproved(a) then CoordAwaitingReview else CoordBlocked
      case Approved => if IsServiceExecutable(a) then CoordReady else CoordAwaitingReview
      case Executed => CoordTerminal
      case Waived => CoordTerminal
  }

  /** Gates, coordination statuses, proposals and the service itself tell the same story about any action. */
  lemma ViewsAgree(a: Action)
    ensures GateOf(a) == GateEligible <==> CoordinationOf(a) == CoordReady
    ensures CoordinationOf(a) == CoordReady <==> ComputeProposal(a) == ProposeExecute
    ensures CoordinationOf(a) == CoordAwaitingPolicy <==> ComputeProposal(a) == ProposeApprove
    ensures GateOf(a) == GateBlocked <==> CoordinationOf(a) in {CoordBlocked, CoordTerminal}
    ensures CoordinationOf(a) == CoordBlocked <==> IsDlqCandidate(a)
    ensures CoordinationOf(a) == CoordAwaitingReview <==>
      ComputeProposal(a) == ProposeReapprove || (a.status == Approved && ComputeProposal(a) == NoAction)
    ensures GateOf(a) == GateBlocked <==> a.status != Approved && forall call :: Denial(call, a).Some?
  {
    FailedIsReapprovableOrDead(a);
    QuiescentIffAllDenied(a);
  }

  // ----- Summaries -----

  function Gated(g: Gate): Action -> bool { (a: Action) => GateOf(a) == g }
  function Coordinated(c: Coordination): Action -> bool { (a: Action) => CoordinationOf(a) == c }
  function InStatus(s: Status): Action -> bool { (a: Action) => a.status == s }
  function Automatable(): Action -> bool { (a: Action) => IsAutoExecutable(a) }

  datatype GateEvaluation = GateEvaluation(action: Action, gate: Gate)

  datatype GateSummary = GateSummary(
    total: nat, eligible: nat, blocked: nat, manualReview: nat, dlq: nat, pendingApproval: nat, autoExecutable: nat)

  datatype CoordinationRecord = CoordinationRecord(action: Action, status: Coordination)

  datatype CoordinationSummary = CoordinationSummary(
    total: nat, ready: nat, awaitingPolicy: nat, awaitingReview: nat, blocked: nat, terminal: nat, dlq: nat,
    autoExecutable: nat)

  /** Each counter is the number of actions it is named after; the total is set apart, after the loop. */
  ghost predicate GateCountsRight(s: GateSummary, actions: seq<Action>) {
    && s.eligible == Count(actions, Gated(GateEligible))
    && s.blocked == Count(actions, Gated(GateBlocked))
    && s.manualReview == Count(actions, Gated(GateManualReview))
    && s.dlq == Count(actions, Dead())
    && s.pendingApproval == Count(actions, InStatus(Pending))
    && s.autoExecutable == Count(actions, Automatable())
  }

  ghost predicate CoordinationCountsRight(s: CoordinationSummary, actions: seq<Action>) {
    && s.ready == Count(actions, Coordinated(CoordReady))
    && s.awaitingPolicy == Count(actions, Coordinated(CoordAwaitingPolicy))
    && s.awaitingReview == Count(actions, Coordinated(CoordAwaitingReview))
    && s.blocked == Count(actions, Coordinated(CoordBlocked))
    && s.terminal == Count(actions, Coordinated(CoordTerminal))
    && s.dlq == Count(actions, Dead())
    && s.autoExecutable == Count(actions, Executable())
  }

  method EvaluatePolicyGates(actions: seq<Action>) returns (evaluations: seq<GateEvaluation>, s: GateSummary)
    ensures |evaluations| == |actions|
    ensures forall i :: 0 <= i < |actions| ==> evaluations[i] == GateEvaluation(actions[i], GateOf(actions[i]))
    ensures s.total == |actions| == s.eligible + s.blocked + s.manualReview
    ensures GateCountsRight(s, actions)
  {
    evaluations, s := [], GateSummary(0, 0, 0, 0, 0, 0, 0);
    for i := 0 to |actions|
      invariant |evaluations| == i
      invariant forall k :: 0 <= k < i ==> evaluations[k] == GateEvaluation(actions[k], GateOf(actions[k]))
      invariant i == s.eligible + s.blocked + s.manualReview
      invariant GateCountsRight(s, actions[..i])
    {
      var action := actions[i];
      assert actions[..i + 1] == actions[..i] + [action];
      forall p { CountAppend(actions[..i], p, action); }
      var gate := GateOf(action);
      match gate {
        case GateEligible => s := s.(eligible := s.eligible + 1);
        case GateBlocked => s := s.(blocked := s.blocked + 1);
        case GateManualReview => s := s.(manualReview := s.manualReview + 1);
      }
      if IsDlqCandidate(action) { s := s.(dlq := s.dlq + 1); }
      if IsAutoExecutable(action) { s := s.(autoExecutable := s.autoExecutable + 1); }
      if action.status == Pending { s := s.(pendingApproval := s.pendingApproval + 1); }
      evaluations := evaluations + [GateEvaluation(action, gate)];
    }
    assert actions[..|actions|] == actions;
    s := s.(total := |actions|);
  }

  method EvaluateCoordination(actions: seq<Action>) returns (records: seq<CoordinationRecord>, s: CoordinationSummary)
    ensures |records| == |actions|
    ensures forall i :: 0 <= i < |actions| ==> records[i] == CoordinationRecord(actions[i], CoordinationOf(actions[i]))
    ensures s.total == |actions| == s.ready + s.awaitingPolicy + s.awaitingReview + s.blocked + s.terminal
    ensures CoordinationCountsRight(s, actions)
  {
    records, s := [], CoordinationSummary(0, 0, 0, 0, 0, 0, 0, 0);
    for i := 0 to |actions|
      invariant |records| == i
      invariant forall k :: 0 <= k < i ==> records[k] == CoordinationRecord(actions[k], CoordinationOf(actions[k]))
      invariant i == s.ready + s.awaitingPolicy + s.awaitingReview + s.blocked + s.terminal
      invariant CoordinationCountsRight(s, actions[..i])
    {
      var action := actions[i];
      assert actions[..i + 1] == actions[..i] + [action];
      forall p { CountAppend(actions[..i], p, action); }
      var status := CoordinationOf(action);
      match status {
        case CoordReady => s := s.(ready := s.ready + 1);
        case CoordAwaitingPolicy => s := s.(awaitingPolicy := s.awaitingPolicy + 1);
        case CoordAwaitingReview => s := s.(awaitingReview := s.awaitingReview + 1);
        case CoordBlocked => s := s.(blocked := s.blocked + 1);
        case CoordTerminal => s := s.(terminal := s.terminal + 1);
      }
      if IsDlqCandidate(action) { s := s.(dlq := s.dlq + 1); }
      if IsServiceExecutable(action) { s := s.(autoExecutable := s.autoExecutable + 1); }
      records := records + [CoordinationRecord(action, status)];
    }
    assert actions[..|actions|] == actions;
    s := s.(total := |actions|);
  }

  /** The two summaries of the same actions determine each other's common counters. */
  lemma {:induction false} SummariesAgree(actions: seq<Action>, g: GateSummary, c: CoordinationSummary)
    requires GateCountsRight(g, actions) && CoordinationCountsRight(c, actions)
    ensures g.eligible == c.ready
    ensures g.blocked == c.blocked + c.terminal
    ensures g.manualReview == c.awaitingPolicy + c.awaitingReview
    ensures g.pendingApproval == c.awaitingPolicy
    ensures g.dlq == c.dlq == c.blocked
  {
    if actions != [] {
      var init, a := actions[..|actions| - 1], actions[|actions| - 1];
      ViewsAgree(a);
      SummariesAgree(
        init,
        GateSummary(0, Count(init, Gated(GateEligible)), Count(init, Gated(GateBlocked)),
                    Count(init, Gated(GateManualReview)),
                    Count(init, Dead()), Count(init, InStatus(Pending)), Count(init, Automatable())),
        CoordinationSummary(0, Count(init, Coordinated(CoordReady)), Count(init, Coordinated(CoordAwaitingPolicy)),
                            Count(init, Coordinated(CoordAwaitingReview)), Count(init, Coordinated(CoordBlocked)),
                            Count(init, Coordinated(CoordTerminal)), Count(init, Dead()), Count(init, Executable())));
    }
  }

  // ----- The automatic counters are not the subsets their descriptions say -----

  /** Being counted as automatic implies being eligible exactly for what is approved and matched to an executor. */
  predicate AutomaticOnlyIfEligible(actions: seq<Action>) {
    forall a :: a in actions && IsAutoExecutable(a) ==> GateOf(a) == GateEligible
  }

  predicate ExecutableOnlyIfReady(actions: seq<Action>) {
    forall a :: a in actions && IsServiceExecutable(a) ==> CoordinationOf(a) == CoordReady
  }

  lemma AutomaticSubsetIff(actions: seq<Action>)
    ensures AutomaticOnlyIfEligible(actions) <==>
      forall a :: a in actions && a.feasibility == Automatic ==> a.status == Approved && a.strategy == Rollback
    ensures ExecutableOnlyIfReady(actions) <==>
      forall a :: a in actions && IsServiceExecutable(a) ==> a.status == Approved
  {
    forall a: Action { FailedIsReapprovableOrDead(a); }
  }

  /**
   A planned rollback that still awaits approval is counted as automatic in both summaries and
   eligible in neither.
   */
  lemma AutomaticIsNoSubset(id: Uuid, context: RebaseContext, now: Timestamp)
    ensures var actions := [NewAction(id, id, id, id, context, Automatic, Rollback, now)];
      && Count(actions, Automatable()) == 1 && Count(actions, Gated(GateEligible)) == 0
      && Count(actions, Executable()) == 1 && Count(actions, Coordinated(CoordReady)) == 0
      && !AutomaticOnlyIfEligible(actions) && !ExecutableOnlyIfReady(actions)
  {
    var a := NewAction(id, id, id, id, context, Automatic, Rollback, now);
    forall p { CountAppend([], p, a); }
    assert [] + [a] == [a];
    assert a in [a];
  }
}

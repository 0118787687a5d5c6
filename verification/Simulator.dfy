/** The compensation simulator: mock executors, a seeded draw, and the report over a list of actions. */
module Simulator {
  import opened Base
  import opened Actions
  import opened Executors
  import opened EndToEnd
  import opened SideEffects

  // ----- The draw -----

  const LCG_A := 6364136223846793005
  const LCG_C := 1
  const WORD := 0x1_0000_0000_0000_0000
  const MILLION := 1_000_000

  type Seed = x: nat | x < WORD

  /** One step of the generator in 64-bit arithmetic, rotated left by one bit. */
  function Scramble(seed: Seed): Seed {
    RotateLeft((seed * LCG_A + LCG_C) % WORD)
  }

  function RotateLeft(state: Seed): Seed {
    (state * 2) % WORD + state / (WORD / 2)
  }

  function RotateRight(x: Seed): Seed {
    if x % 2 == 0 then x / 2 else x / 2 + 0x8000_0000_0000_0000
  }

  lemma RotationIsUndone(state: Seed)
    ensures RotateLeft(state) == if state < 0x8000_0000_0000_0000 then 2 * state else 2 * state - WORD + 1
    ensures RotateRight(RotateLeft(state)) == state
  {
    if state < 0x8000_0000_0000_0000 {
      assert state / (WORD / 2) == 0 && (state * 2) % WORD == state * 2;
    } else {
      assert state / (WORD / 2) == 1;
      assert state * 2 == (state * 2 - WORD) + WORD && 0 <= state * 2 - WORD < WORD;
      assert (state * 2) % WORD == state * 2 - WORD;
    }
  }

  /** The inverse of the multiplier modulo 2^64. */
  const LCG_A_INVERSE := 13877824140714322085

  /** Undoes the rotation, the increment and the multiplication. */
  function Unscramble(x: Seed): Seed {
    ((RotateRight(x) - 1) * LCG_A_INVERSE) % WORD
  }

  lemma ModAddsMultiple(x: int, q: int)
    requires 0 <= x < WORD
    ensures (x + q * WORD) % WORD == x
  {
  }

  /** The generator loses nothing: its step is undone, so no two seeds are scrambled alike. */
  lemma ScrambleIsUndone(seed: Seed)
    ensures RotateRight(Scramble(seed)) == (seed * 6364136223846793005 + 1) % 0x1_0000_0000_0000_0000
    ensures Unscramble(Scramble(seed)) == seed
  {
    var x := seed * 6364136223846793005 + 1;
    var state, k := x % WORD, x / WORD;
    RotationIsUndone(state);
    var q := seed * 4787856489426250814 - k * LCG_A_INVERSE;
    assert (state - 1) * LCG_A_INVERSE == seed + q * WORD;
    ModAddsMultiple(seed, q);
  }

  /** A draw in [0, 1), in millionths: the remainder of the scrambled seed. */
  function Draw(seed: Seed): (r: nat)
    ensures r < 1_000_000 && Scramble(seed) == Scramble(seed) / 1_000_000 * 1_000_000 + r
  {
    Scramble(seed) % MILLION
  }

  datatype Probabilities = Probabilities(s1: real, s2: real, s3: real, s4: real)

  const DEFAULT_PROBABILITIES := Probabilities(0.95, 0.70, 0.50, 0.10)

  function ClassOfFeasibility(f: Feasibility): EffectClass {
    match f
    case Automatic => S1InternalReversible
    case SemiAutomatic => S2ExternalReversible
    case ManualOnly => S3ExternalPartiallyReversible
    case NotPossible => S4Irreversible
  }

  function ProbabilityFor(p: Probabilities, c: EffectClass): real {
    match c
    case S0PureRead => 1.0
    case S1InternalReversible => p.s1
    case S2ExternalReversible => p.s2
    case S3ExternalPartiallyReversible => p.s3
    case S4Irreversible => p.s4
  }

  datatype Config = Deterministic | Stochastic(seed: Seed, custom: Option<Probabilities>)

  function Effective(c: Config): Probabilities
    requires c.Stochastic?
  {
    if c.custom.Some? then c.custom.value else DEFAULT_PROBABILITIES
  }

  /** A draw, in millionths, lies below a probability. */
  predicate Below(draw: nat, probability: real) {
    draw as real / MILLION as real < probability
  }

  // ----- Mock executors: no error code means success -----

  function MockExecution(config: Config, strategy: Strategy, feasibility: Feasibility,
                         probability: Probabilities -> real, a: Action): Option<string>
  {
    if a.strategy != strategy then Some("MOCK_UNSUPPORTED_STRATEGY_TYPE")
    else if a.feasibility != feasibility then Some("MOCK_UNSUPPORTED_FEASIBILITY")
    else match config
      case Deterministic => None
      case Stochastic(seed, _) =>
        if Below(Draw(seed), probability(Effective(config))) then None else Some("MOCK_STOCHASTIC_FAILURE")
  }

  function MockDispatch(config: Config, a: Action): Option<string> {
    match a.strategy
    case Rollback => MockExecution(config, Rollback, Automatic, (p: Probabilities) => p.s1, a)
    case CounterAction => MockExecution(config, CounterAction, SemiAutomatic, (p: Probabilities) => p.s2, a)
    case FollowupNotice => MockExecution(config, FollowupNotice, ManualOnly, (p: Probabilities) => p.s3, a)
    case Escalation => MockExecution(config, Escalation, NotPossible, (p: Probabilities) => p.s4, a)
    case Quarantine => Some("MOCK_UNSUPPORTED_STRATEGY_TYPE")
  }

  datatype Risk = Low | Medium | High

  function RiskOf(probability: real): Risk {
    if probability >= 0.90 then Low else if probability >= 0.50 then Medium else High
  }

  function Severity(r: Risk): nat {
    match r
    case Low => 0
    case Medium => 1
    case High => 2
  }

  datatype SimOutcome = SimOutcome(actionId: Uuid, success: bool, probability: real, errorCode: Option<string>,
                                   risk: Risk)

  function SimulateOne(config: Config, a: Action): SimOutcome {
    var error := MockDispatch(config, a);
    var probability :=
      if error.Some? then 0.0
      else if config.Deterministic? then 1.0
      else ProbabilityFor(Effective(config), ClassOfFeasibility(a.feasibility));
    SimOutcome(a.id, error.None?, probability, error, RiskOf(probability))
  }

  // ----- The report -----

  function Outcomes(config: Config, actions: seq<Action>): seq<SimOutcome> {
    seq(|actions|, i requires 0 <= i < |actions| => SimulateOne(config, actions[i]))
  }

  datatype Report = Report(total: nat, successful: nat, failed: nat, outcomes: seq<SimOutcome>, overall: Risk)

  function Succeeding(): SimOutcome -> bool { (o: SimOutcome) => o.success }

  function WorstRisk(outcomes: seq<SimOutcome>): Risk {
    if outcomes == [] then Low
    else
      var worst, last := WorstRisk(outcomes[..|outcomes| - 1]), outcomes[|outcomes| - 1].risk;
      if Severity(last) >= Severity(worst) then last else worst
  }

  lemma {:induction false} WorstIsMaximum(outcomes: seq<SimOutcome>)
    ensures forall i :: 0 <= i < |outcomes| ==> Severity(outcomes[i].risk) <= Severity(WorstRisk(outcomes))
    ensures if outcomes == [] then WorstRisk(outcomes) == Low
            else exists i :: 0 <= i < |outcomes| && outcomes[i].risk == WorstRisk(outcomes)
  {
    if outcomes != [] {
      var init := outcomes[..|outcomes| - 1];
      WorstIsMaximum(init);
      if WorstRisk(outcomes) == outcomes[|init|].risk {
        assert outcomes[|init|].risk == WorstRisk(outcomes);
      } else {
        var i :| 0 <= i < |init| && init[i].risk == WorstRisk(init);
        assert outcomes[i].risk == WorstRisk(outcomes);
      }
    }
  }

  /** One outcome per action in order, exact counts, and the worst risk among the outcomes. */
  ghost predicate ReportRight(r: Report, config: Config, actions: seq<Action>) {
    && r.outcomes == Outcomes(config, actions) && r.total == |actions|
    && r.successful == Count(r.outcomes, Succeeding()) && r.successful + r.failed == r.total
    && (forall i :: 0 <= i < |r.outcomes| ==> Severity(r.outcomes[i].risk) <= Severity(r.overall))
    && (r.overall == Low || exists i :: 0 <= i < |r.outcomes| && r.outcomes[i].risk == r.overall)
  }

  method SimulateActions(config: Config, actions: seq<Action>) returns (r: Report)
    ensures ReportRight(r, config, actions)
  {
    var outcomes := [];
    for i := 0 to |actions|
      invariant |outcomes| == i
      invariant forall k :: 0 <= k < i ==> outcomes[k] == SimulateOne(config, actions[k])
    {
      outcomes := outcomes + [SimulateOne(config, actions[i])];
    }
    CountAll(outcomes, Succeeding());
    WorstIsMaximum(outcomes);
    var successful := Count(outcomes, Succeeding());
    r := Report(|outcomes|, successful, |outcomes| - successful, outcomes, WorstRisk(outcomes));
  }

  // ----- Agreement with the service -----

  /**
   Deterministically, success is predicted exactly for what the service will execute and its
   bare executors complete.
   */
  lemma DeterministicAgrees(a: Action, at: Timestamp)
    ensures SimulateOne(Deterministic, a).success <==> IsServiceExecutable(a)
    ensures SimulateOne(Deterministic, a).success <==> ShippedExecution(None, a, at).success
  {
  }

  /** With a ledger the prediction still holds for every action planned from it. */
  lemma PlannedPredictionHolds(a: Action, e: SideEffect, ledger: Ledger, at: Timestamp)
    requires PlannedFor(a, e, ledger)
    ensures SimulateOne(Deterministic, a).success && ShippedExecution(Some(ledger), a, at).success
    ensures ClassOfFeasibility(a.feasibility) == e.effectClass
  {
    PlanFitsExecutors(a, e, ledger, at);
  }

  /** A deterministic report is clean exactly when every action is executable; otherwise its risk is high. */
  lemma CleanReportIffExecutable(r: Report, actions: seq<Action>)
    requires ReportRight(r, Deterministic, actions)
    ensures r.failed == 0 <==> forall i :: 0 <= i < |actions| ==> IsServiceExecutable(actions[i])
    ensures r.overall == if r.failed == 0 then Low else High
  {
    CountAll(r.outcomes, Succeeding());
    forall i | 0 <= i < |actions| ensures r.outcomes[i].success <==> IsServiceExecutable(actions[i]) {
      DeterministicAgrees(actions[i], 0);
    }
    assert forall i :: 0 <= i < |actions| ==> r.outcomes[i].risk == if r.outcomes[i].success then Low else High;
  }

  // ----- One draw decides a seeded simulation -----

  /** The classes that succeed with a given draw. */
  predicate ClassWins(p: Probabilities, c: EffectClass, draw: nat) {
    Below(draw, ProbabilityFor(p, c))
  }

  /** An action succeeds exactly if its pair is valid and its class's probability exceeds the one draw. */
  lemma OneDrawDecidesAll(config: Config, actions: seq<Action>, i: nat)
    requires config.Stochastic? && i < |actions|
    ensures Outcomes(config, actions)[i].success <==>
      && IsServiceExecutable(actions[i])
      && ClassWins(if config.custom.Some? then config.custom.value else DEFAULT_PROBABILITIES,
                   ClassOfFeasibility(actions[i].feasibility), Draw(config.seed))
  {
  }

  predicate AtLeast(p: Probabilities, q: Probabilities) {
    p.s1 >= q.s1 && p.s2 >= q.s2 && p.s3 >= q.s3 && p.s4 >= q.s4
  }

  /** With the same seed, raising probabilities never loses a success. */
  lemma {:induction false} SuccessesAreMonotone(seed: Seed, p: Probabilities, q: Probabilities, actions: seq<Action>)
    requires AtLeast(q, p)
    ensures var before := Outcomes(Stochastic(seed, Some(p)), actions);
      var after := Outcomes(Stochastic(seed, Some(q)), actions);
      && (forall i :: 0 <= i < |actions| && before[i].success ==> after[i].success)
      && Count(before, Succeeding()) <= Count(after, Succeeding())
  {
    var before, after := Outcomes(Stochastic(seed, Some(p)), actions), Outcomes(Stochastic(seed, Some(q)), actions);
    forall i | 0 <= i < |actions| && before[i].success ensures after[i].success {
      OneDrawDecidesAll(Stochastic(seed, Some(p)), actions, i);
      OneDrawDecidesAll(Stochastic(seed, Some(q)), actions, i);
    }
    CountMonotone(before, after, Succeeding());
  }

  lemma {:induction false} CountMonotone<T>(s: seq<T>, t: seq<T>, p: T -> bool)
    requires |s| == |t| && forall i :: 0 <= i < |s| && p(s[i]) ==> p(t[i])
    ensures Count(s, p) <= Count(t, p)
  {
    if s != [] {
      CountMonotone(s[..|s| - 1], t[..|t| - 1], p);
    }
  }

  function Rank(c: EffectClass): nat {
    match c
    case S0PureRead => 0
    case S1InternalReversible => 1
    case S2ExternalReversible => 2
    case S3ExternalPartiallyReversible => 3
    case S4Irreversible => 4
  }

  /** With the default probabilities, the draws below which each class succeeds. */
  lemma DefaultWinsTell(draw: nat)
    ensures ClassWins(DEFAULT_PROBABILITIES, S1InternalReversible, draw) <==> draw < 950_000
    ensures ClassWins(DEFAULT_PROBABILITIES, S2ExternalReversible, draw) <==> draw < 700_000
    ensures ClassWins(DEFAULT_PROBABILITIES, S3ExternalPartiallyReversible, draw) <==> draw < 500_000
    ensures ClassWins(DEFAULT_PROBABILITIES, S4Irreversible, draw) <==> draw < 100_000
  {
  }

  /** Every outcome in full: a success carries its probability and risk, a failure its first reason and no hope. */
  lemma OutcomeTells(config: Config, a: Action)
    ensures var o := SimulateOne(config, a);
      && o.actionId == a.id
      && (o.risk == Low <==> o.probability >= 0.9)
      && (o.risk == High <==> o.probability < 0.5)
      && (o.success ==> o.errorCode == None)
      && (o.success ==> o.probability == if config.Deterministic? then 1.0
                                         else ProbabilityFor(Effective(config), ClassOfFeasibility(a.feasibility)))
      && (!o.success ==> o.probability == 0.0)
      && (!o.success ==>
            o.errorCode == Some(if a.strategy == Quarantine then "MOCK_UNSUPPORTED_STRATEGY_TYPE"
                                else if !IsServiceExecutable(a) then "MOCK_UNSUPPORTED_FEASIBILITY"
                                else "MOCK_STOCHASTIC_FAILURE"))
  {
  }

  /** With the default probabilities a win of some class is a win of every milder class. */
  lemma DefaultWinsAreDownwardClosed(draw: nat, c: EffectClass, milder: EffectClass)
    requires draw < MILLION && Rank(milder) <= Rank(c) && ClassWins(DEFAULT_PROBABILITIES, c, draw)
    ensures ClassWins(DEFAULT_PROBABILITIES, milder, draw)
  {
  }
}

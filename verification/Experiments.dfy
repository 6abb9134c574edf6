/** The experiment lifecycle: sixteen states, a transition table and a self-approval check. */
module Experiments {
  import opened Common

  datatype State =
    | OBSERVATION | HYPOTHESIS | EXPERIMENT_DESIGNED | DATA_VALIDATED | BACKTEST_RUNNING | RESULT_REVIEW
    | REJECTED | NEEDS_MORE_DATA | APPROVED_CANDIDATE | ISOLATED_PATCH | REGRESSION_TEST | SECURITY_REVIEW
    | RELEASE_PROPOSAL | HUMAN_RELEASE_GATE | RELEASED | ROLLED_BACK
    | Other(name: string)  // any string outside the table

  function Allowed(s: State): set<State> {
    match s
    case OBSERVATION => {HYPOTHESIS, REJECTED}
    case HYPOTHESIS => {EXPERIMENT_DESIGNED, REJECTED}
    case EXPERIMENT_DESIGNED => {DATA_VALIDATED, REJECTED}
    case DATA_VALIDATED => {BACKTEST_RUNNING, REJECTED}
    case BACKTEST_RUNNING => {RESULT_REVIEW, REJECTED}
    case RESULT_REVIEW => {REJECTED, NEEDS_MORE_DATA, APPROVED_CANDIDATE}
    case NEEDS_MORE_DATA => {DATA_VALIDATED, REJECTED}
    case APPROVED_CANDIDATE => {ISOLATED_PATCH, REJECTED}
    case ISOLATED_PATCH => {REGRESSION_TEST, REJECTED}
    case REGRESSION_TEST => {SECURITY_REVIEW, REJECTED}
    case SECURITY_REVIEW => {RELEASE_PROPOSAL, REJECTED}
    case RELEASE_PROPOSAL => {HUMAN_RELEASE_GATE, REJECTED}
    case HUMAN_RELEASE_GATE => {RELEASED, REJECTED}
    case RELEASED => {ROLLED_BACK}
    case _ => {}
  }

  predicate Terminal(s: State) {
    s in {REJECTED, RELEASED, ROLLED_BACK}
  }

  predicate Gate(s: State) {
    s in {RELEASED, HUMAN_RELEASE_GATE}
  }

  datatype Transition = Transition(
    source: State, target: State, at: int, agent: string, reason: string, reviewer: Option<string>, evidenceIds: seq<string>)

  /** What a transition may attach to the record; None leaves the stored value. */
  datatype Findings = Findings(result: Option<string>, failureReason: Option<string>, rollbackReference: Option<string>)

  /** The data of an experiment that no transition changes. */
  datatype Design = Design(
    correlationId: string, hypothesis: string, owner: string, evidenceIds: seq<string>, datasetHash: string,
    formulaVersion: string, createdAt: int)

  datatype Experiment = Experiment(
    id: string, proposer: string, design: Design, state: State, updatedAt: int, transitions: seq<Transition>,
    reviewer: Option<string>, findings: Findings)

  datatype Error = NotFound | TerminalState | InvalidTransition | SelfApproval

  // ---------- the store ----------

  /** The check of `transition` that fails first. */
  function Refusal(e: Experiment, target: State, reviewer: Option<string>): Option<Error> {
    if Terminal(e.state) then Some(TerminalState)
    else if target !in Allowed(e.state) then Some(InvalidTransition)
    else if Gate(target) && reviewer == Some(e.proposer) then Some(SelfApproval)
    else None
  }

  function Latest(given: Option<string>, stored: Option<string>): Option<string> {
    if given.Some? then given else stored
  }

  /** The given values replace the stored ones. */
  method Attach(e: Experiment, reviewer: Option<string>, findings: Findings) returns (r: Experiment)
    ensures r == e.(reviewer := Latest(reviewer, e.reviewer), findings := r.findings)
    ensures r.findings == Findings(Latest(findings.result, e.findings.result),
                                   Latest(findings.failureReason, e.findings.failureReason),
                                   Latest(findings.rollbackReference, e.findings.rollbackReference))
  {
    var kept := e.findings;
    r := e;
    if findings.result.Some? {
      kept := kept.(result := findings.result);
    }
    if findings.failureReason.Some? {
      kept := kept.(failureReason := findings.failureReason);
    }
    if reviewer.Some? {
      r := r.(reviewer := reviewer);
    }
    if findings.rollbackReference.Some? {
      kept := kept.(rollbackReference := findings.rollbackReference);
    }
    r := r.(findings := kept);
  }

  class ExperimentStore {
    var records: map<string, Experiment>

    /** Every stored experiment has a sound history. */
    ghost predicate Valid()
      reads this
    {
      forall id :: id in records ==> records[id].id == id && Sound(records[id])
    }

    constructor ()
      ensures Valid() && records == map[]
    {
      records := map[];
    }

    /** `create` writes a new record, also over an existing one. */
    method Create(id: string, proposer: string, design: Design)
      requires Valid()
      modifies this
      ensures Valid()
      ensures records == old(records)[id := Experiment(id, proposer, design, OBSERVATION, design.createdAt, [], None, Findings(None, None, None))]
    {
      records := records[id := Experiment(id, proposer, design, OBSERVATION, design.createdAt, [], None, Findings(None, None, None))];
    }

    method MakeTransition(id: string, target: State, agent: string, reason: string, reviewer: Option<string>,
                          evidenceIds: Option<seq<string>>, findings: Findings, now: int)
      returns (r: Result<Experiment, Error>)
      requires Valid()
      modifies this
      ensures Valid()
      ensures r == Err(NotFound) <==> id !in old(records)
      ensures id in old(records) ==>
                var refusal := Refusal(old(records)[id], target, reviewer);
                if refusal.Some? then r == Err(refusal.value) else r.Ok?
      ensures r.Err? ==> records == old(records)
      ensures r.Ok? ==>
                var before := old(records)[id];
                var ids := if evidenceIds.Some? then evidenceIds.value else [];
                && records == old(records)[id := r.value]
                && r.value.id == id && r.value.proposer == before.proposer && r.value.design == before.design
                && r.value.state == target && r.value.updatedAt == now
                && r.value.transitions == before.transitions + [Transition(before.state, target, now, agent, reason, reviewer, ids)]
                && r.value.reviewer == Latest(reviewer, before.reviewer)
                && r.value.findings == Findings(Latest(findings.result, before.findings.result),
                                                Latest(findings.failureReason, before.findings.failureReason),
                                                Latest(findings.rollbackReference, before.findings.rollbackReference))
    {
      hide Sound, Allowed, Latest, Terminal, Gate;
      if id !in records {
        return Err(NotFound);
      }
      var e := records[id];
      if Terminal(e.state) {
        return Err(TerminalState);
      }
      if target !in Allowed(e.state) {
        return Err(InvalidTransition);
      }
      if Gate(target) && reviewer == Some(e.proposer) {
        return Err(SelfApproval);
      }
      var ids := if evidenceIds.Some? then evidenceIds.value else [];
      var step := Transition(e.state, target, now, agent, reason, reviewer, ids);
      var updated := Attach(e.(state := target, updatedAt := now, transitions := e.transitions + [step]), reviewer, findings);
      TransitionSound(e, updated, step);
      records := records[id := updated];
      return Ok(updated);
    }
  }

  // ---------- histories ----------

  function StateAfter(ts: seq<Transition>): State {
    if ts == [] then OBSERVATION else ts[|ts| - 1].target
  }

  /** One recorded step continues the previous one, along the table, out of a state that is not terminal. */
  ghost predicate StepOk(proposer: string, ts: seq<Transition>, i: nat)
    requires i < |ts|
  {
    && ts[i].source == StateAfter(ts[..i])
    && !Terminal(ts[i].source) && ts[i].target in Allowed(ts[i].source)
    && (Gate(ts[i].target) ==> ts[i].reviewer != Some(proposer))
  }

  ghost predicate Path(proposer: string, ts: seq<Transition>) {
    forall i :: 0 <= i < |ts| ==> StepOk(proposer, ts, i)
  }

  /** The history is a path of allowed steps from OBSERVATION to the current state. */
  ghost predicate Sound(e: Experiment) {
    Path(e.proposer, e.transitions) && e.state == StateAfter(e.transitions)
  }

  /** An allowed step out of the last state continues the path. */
  lemma PathExtend(proposer: string, ts: seq<Transition>, step: Transition)
    requires Path(proposer, ts) && step.source == StateAfter(ts)
    requires !Terminal(step.source) && step.target in Allowed(step.source) && (Gate(step.target) ==> step.reviewer != Some(proposer))
    ensures Path(proposer, ts + [step]) && StateAfter(ts + [step]) == step.target
  {
    hide Allowed, Terminal, Gate;
    var longer := ts + [step];
    forall i | 0 <= i < |longer|
      ensures StepOk(proposer, longer, i)
    {
      assert longer[..i] == ts[..i];
      assert ts[..|ts|] == ts;
      assert i < |ts| ==> StepOk(proposer, ts, i);
    }
  }

  lemma TransitionSound(before: Experiment, after: Experiment, step: Transition)
    requires Sound(before) && after.proposer == before.proposer && after.transitions == before.transitions + [step]
    requires after.state == step.target && step.source == before.state
    requires Refusal(before, step.target, step.reviewer) == None
    ensures Sound(after)
  {
    PathExtend(before.proposer, before.transitions, step);
  }

  function Entries(ts: seq<Transition>, s: State): nat {
    if ts == [] then 0 else Entries(ts[..|ts| - 1], s) + if ts[|ts| - 1].target == s then 1 else 0
  }

  /** The length of a history that ends in the state without ever needing more data. */
  function Depth(s: State): int {
    match s
    case OBSERVATION => 0
    case HYPOTHESIS => 1
    case EXPERIMENT_DESIGNED => 2
    case DATA_VALIDATED => 3
    case BACKTEST_RUNNING => 4
    case RESULT_REVIEW => 5
    case NEEDS_MORE_DATA => 2
    case APPROVED_CANDIDATE => 6
    case ISOLATED_PATCH => 7
    case REGRESSION_TEST => 8
    case SECURITY_REVIEW => 9
    case RELEASE_PROPOSAL => 10
    case HUMAN_RELEASE_GATE => 11
    case _ => 12
  }

  ghost predicate Reachable(s: State) {
    s != ROLLED_BACK && !s.Other?
  }

  /** Length and gate passages are determined by the last state and the number of data requests. */
  lemma {:induction false} PathCounts(proposer: string, ts: seq<Transition>)
    requires Path(proposer, ts)
    ensures Reachable(StateAfter(ts))
    ensures StateAfter(ts) != REJECTED ==> |ts| == Depth(StateAfter(ts)) + 4 * Entries(ts, NEEDS_MORE_DATA)
    ensures StateAfter(ts) != REJECTED ==> Entries(ts, HUMAN_RELEASE_GATE) == if Gate(StateAfter(ts)) then 1 else 0
  {
    if ts != [] {
      var front := ts[..|ts| - 1];
      forall i | 0 <= i < |front|
        ensures StepOk(proposer, front, i)
      {
        assert StepOk(proposer, ts, i) && front[..i] == ts[..i];
      }
      assert StepOk(proposer, ts, |ts| - 1);
      PathCounts(proposer, front);
    }
  }

  /**
   * A released experiment went through exactly 12 + 4k steps, where k is the number of requests for
   * more data, and passed the human gate exactly once; no gate step names the proposer as reviewer.
   */
  lemma ReleasedHistory(e: Experiment)
    requires Sound(e)
    ensures e.state != ROLLED_BACK && !e.state.Other?
    ensures e.state == RELEASED ==>
              |e.transitions| == 12 + 4 * Entries(e.transitions, NEEDS_MORE_DATA) && Entries(e.transitions, HUMAN_RELEASE_GATE) == 1
    ensures forall t :: t in e.transitions && (t.target == RELEASED || t.target == HUMAN_RELEASE_GATE) ==> t.reviewer != Some(e.proposer)
  {
    PathCounts(e.proposer, e.transitions);
    forall t | t in e.transitions && Gate(t.target)
      ensures t.reviewer != Some(e.proposer)
    {
      var i :| 0 <= i < |e.transitions| && e.transitions[i] == t;
      assert StepOk(e.proposer, e.transitions, i);
    }
  }

  /**
   * The self-approval check compares the reviewer only: a gate step is refused exactly when the
   * proposer is named as reviewer, so it passes with no reviewer at all, whoever the agent is.
   */
  lemma GateRefusalExact(e: Experiment, target: State, reviewer: Option<string>)
    requires Sound(e) && (target == RELEASED || target == HUMAN_RELEASE_GATE)
    ensures Refusal(e, target, reviewer) == None <==>
            (e.state == if target == RELEASED then HUMAN_RELEASE_GATE else RELEASE_PROPOSAL) && reviewer != Some(e.proposer)
    ensures target in Allowed(e.state) ==> Refusal(e, target, None) == None
  {
    PathCounts(e.proposer, e.transitions);
  }

  /** The states on the way to a release. */
  const RELEASE_PATH := [
    OBSERVATION, HYPOTHESIS, EXPERIMENT_DESIGNED, DATA_VALIDATED, BACKTEST_RUNNING, RESULT_REVIEW, APPROVED_CANDIDATE,
    ISOLATED_PATCH, REGRESSION_TEST, SECURITY_REVIEW, RELEASE_PROPOSAL, HUMAN_RELEASE_GATE, RELEASED]

  function SoloSteps(agent: string, n: nat): (ts: seq<Transition>)
    requires n < |RELEASE_PATH|
    ensures |ts| == n
  {
    if n == 0 then [] else SoloSteps(agent, n - 1) + [Transition(RELEASE_PATH[n - 1], RELEASE_PATH[n], 0, agent, "", None, [])]
  }

  lemma ReleaseStep(n: nat)
    requires n + 1 < |RELEASE_PATH|
    ensures RELEASE_PATH[n + 1] in Allowed(RELEASE_PATH[n]) && !Terminal(RELEASE_PATH[n])
  {
  }

  lemma {:induction false} SoloPath(agent: string, n: nat)
    requires n < |RELEASE_PATH|
    ensures Path(agent, SoloSteps(agent, n)) && StateAfter(SoloSteps(agent, n)) == RELEASE_PATH[n]
    ensures forall t :: t in SoloSteps(agent, n) ==> t.agent == agent && t.reviewer == None
  {
    hide Path, Allowed, Terminal, Gate;
    if n > 0 {
      SoloPath(agent, n - 1);
      ReleaseStep(n - 1);
      PathExtend(agent, SoloSteps(agent, n - 1), Transition(RELEASE_PATH[n - 1], RELEASE_PATH[n], 0, agent, "", None, []));
    } else {
      EmptyPath(agent);
    }
  }

  lemma EmptyPath(agent: string)
    ensures Path(agent, [])
  {
  }

  /**
   * An experiment that its proposer takes through both gate states alone: every step is made by the
   * proposer, none names a reviewer, and the history is one that `transition` accepts.
   */
  lemma SoloRelease(id: string, agent: string, design: Design)
    ensures var e := Experiment(id, agent, design, RELEASED, 0, SoloSteps(agent, 12), None, Findings(None, None, None));
            && Sound(e) && Entries(e.transitions, HUMAN_RELEASE_GATE) == 1
            && forall t :: t in e.transitions ==> t.agent == e.proposer && t.reviewer == None
    ensures var gated := Experiment(id, agent, design, HUMAN_RELEASE_GATE, 0, SoloSteps(agent, 11), None, Findings(None, None, None));
            Sound(gated) && Refusal(gated, RELEASED, None) == None
  {
    hide SoloSteps, Path;
    SoloPath(agent, 12);
    SoloPath(agent, 11);
    var e := Experiment(id, agent, design, RELEASED, 0, SoloSteps(agent, 12), None, Findings(None, None, None));
    ReleasedHistory(e);
  }

  /** Every experiment that is still open can be rejected, without a reviewer, and nothing leaves a final state. */
  lemma OpenCanBeRejected(e: Experiment)
    requires Sound(e)
    ensures Refusal(e, REJECTED, None) == None <==> e.state != REJECTED && e.state != RELEASED
    ensures e.state == REJECTED || e.state == RELEASED ==> forall target, reviewer :: Refusal(e, target, reviewer) == Some(TerminalState)
  {
    PathCounts(e.proposer, e.transitions);
  }

  function Step(agent: string, source: State, target: State): Transition {
    Transition(source, target, 0, agent, "", None, [])
  }

  /** One more round: a request for data, validation, a backtest and a review. */
  function Round(agent: string, ts: seq<Transition>): seq<Transition> {
    ts + [Step(agent, RESULT_REVIEW, NEEDS_MORE_DATA)] + [Step(agent, NEEDS_MORE_DATA, DATA_VALIDATED)]
       + [Step(agent, DATA_VALIDATED, BACKTEST_RUNNING)] + [Step(agent, BACKTEST_RUNNING, RESULT_REVIEW)]
  }

  function AfterRounds(agent: string, k: nat): seq<Transition> {
    if k == 0 then SoloSteps(agent, 5) else Round(agent, AfterRounds(agent, k - 1))
  }

  /** Review may ask for more data any number of times. */
  lemma {:induction false} RoundsArePossible(agent: string, k: nat)
    ensures Path(agent, AfterRounds(agent, k)) && StateAfter(AfterRounds(agent, k)) == RESULT_REVIEW
    ensures Entries(AfterRounds(agent, k), NEEDS_MORE_DATA) == k
  {
    hide Path, Entries, StateAfter, SoloSteps, Round;
    if k == 0 {
      SoloPath(agent, 5);
      SoloAsksNothing(agent, 5);
    } else {
      RoundsArePossible(agent, k - 1);
      RoundGrows(agent, AfterRounds(agent, k - 1));
    }
  }

  lemma RoundGrows(agent: string, ts: seq<Transition>)
    requires Path(agent, ts) && StateAfter(ts) == RESULT_REVIEW
    ensures Path(agent, Round(agent, ts)) && StateAfter(Round(agent, ts)) == RESULT_REVIEW
    ensures Entries(Round(agent, ts), NEEDS_MORE_DATA) == Entries(ts, NEEDS_MORE_DATA) + 1
  {
    RoundSteps();
    hide Path, Entries, StateAfter, Allowed, Terminal, Gate, Step;
    var ts1 := ts + [Step(agent, RESULT_REVIEW, NEEDS_MORE_DATA)];
    Grow(agent, ts, RESULT_REVIEW, NEEDS_MORE_DATA);
    Grow(agent, ts1, NEEDS_MORE_DATA, DATA_VALIDATED);
    var ts2 := ts1 + [Step(agent, NEEDS_MORE_DATA, DATA_VALIDATED)];
    Grow(agent, ts2, DATA_VALIDATED, BACKTEST_RUNNING);
    Grow(agent, ts2 + [Step(agent, DATA_VALIDATED, BACKTEST_RUNNING)], BACKTEST_RUNNING, RESULT_REVIEW);
  }

  lemma RoundSteps()
    ensures NEEDS_MORE_DATA in Allowed(RESULT_REVIEW) && DATA_VALIDATED in Allowed(NEEDS_MORE_DATA)
    ensures BACKTEST_RUNNING in Allowed(DATA_VALIDATED) && RESULT_REVIEW in Allowed(BACKTEST_RUNNING)
    ensures !Terminal(RESULT_REVIEW) && !Terminal(NEEDS_MORE_DATA) && !Terminal(DATA_VALIDATED) && !Terminal(BACKTEST_RUNNING)
    ensures !Gate(RESULT_REVIEW) && !Gate(NEEDS_MORE_DATA) && !Gate(DATA_VALIDATED) && !Gate(BACKTEST_RUNNING)
  {
  }

  lemma Grow(agent: string, ts: seq<Transition>, source: State, target: State)
    requires Path(agent, ts) && StateAfter(ts) == source && target in Allowed(source) && !Terminal(source) && !Gate(target)
    ensures Path(agent, ts + [Step(agent, source, target)]) && StateAfter(ts + [Step(agent, source, target)]) == target
    ensures Entries(ts + [Step(agent, source, target)], NEEDS_MORE_DATA) == Entries(ts, NEEDS_MORE_DATA) + if target == NEEDS_MORE_DATA then 1 else 0
  {
    hide Allowed, Terminal, Path, StateAfter;
    PathExtend(agent, ts, Step(agent, source, target));
    EntriesAppend(ts, Step(agent, source, target), NEEDS_MORE_DATA);
  }

  lemma EntriesAppend(ts: seq<Transition>, t: Transition, s: State)
    ensures Entries(ts + [t], s) == Entries(ts, s) + if t.target == s then 1 else 0
  {
    assert (ts + [t])[..|ts|] == ts;
  }

  lemma {:induction false} SoloAsksNothing(agent: string, n: nat)
    requires n < |RELEASE_PATH|
    ensures Entries(SoloSteps(agent, n), NEEDS_MORE_DATA) == 0
  {
    if n > 0 {
      hide Entries;
      SoloAsksNothing(agent, n - 1);
      EntriesAppend(SoloSteps(agent, n - 1), Transition(RELEASE_PATH[n - 1], RELEASE_PATH[n], 0, agent, "", None, []), NEEDS_MORE_DATA);
    }
  }

  /** The refusals in the order of the checks. */
  lemma RefusalMeans(e: Experiment, target: State, reviewer: Option<string>)
    ensures Refusal(e, target, reviewer) == Some(TerminalState) <==> e.state == REJECTED || e.state == RELEASED || e.state == ROLLED_BACK
    ensures e.state != REJECTED && e.state != RELEASED && e.state != ROLLED_BACK && target !in Allowed(e.state) ==>
              Refusal(e, target, reviewer) == Some(InvalidTransition)
    ensures Refusal(e, target, reviewer) == Some(SelfApproval) ==>
              reviewer == Some(e.proposer) && target in Allowed(e.state) && (target == RELEASED || target == HUMAN_RELEASE_GATE)
  {
    hide Allowed;
  }
}

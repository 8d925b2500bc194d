/**
 * The Plan-and-Execute engine of one skill run: plan, then for each step
 * execute, observe, and either advance or replan (at most three times), then
 * synthesize the final answer. Every LLM call and every tool-catalog fetch is
 * an oracle; the event stream is built in order as a sequence.
 */
module Executor {
  import opened Base
  import opened Text
  import opened Records
  import Events
  import Context
  import Resolver

  type Event = Events.PlanActionEvent

  const MaxReplanRounds: nat := 3

  /** The first event of every run, and the one that opens the final phase. */
  const Opening: Event := Events.Planning("正在分析问题并生成执行计划...")
  const Synthesizing: Event := Events.Planning("正在生成最终回复...")

  /**
   * The outside world of one run. Calls that repeat take a round number
   * (plans made so far, or steps executed so far), so they may answer
   * differently each time.
   */
  datatype Oracles = Oracles(
    // The planner LLM: its answer given the steps completed so far, or the exception it raised.
    planner: (nat, seq<StepResult>) -> Result<string>,
    // The tool catalog fetched for a round (getToolCallbacks; fails when no server answers).
    catalog: nat -> Result<seq<Tool>>,
    // The step-executing LLM: step, bound tools, earlier results; Ok(None) is a null answer.
    executor: (nat, string, seq<Tool>, seq<StepResult>) -> Result<Option<string>>,
    // The observer LLM: step, abbreviated result, remaining steps.
    observer: (nat, string, string, seq<string>) -> Result<Option<string>>,
    // The final-answer LLM: bound tools and all completed steps; Ok(None) is a null answer.
    finalizer: (seq<Tool>, seq<StepResult>) -> Result<Option<string>>)

  /** A plan line that survives parsing: non-empty, trimmed, not a "#" comment. */
  predicate IsPlanStep(s: string) {
    s != [] && IsTrimmed(s) && !StartsWith(s, "#")
  }

  function PlanLines(lines: seq<string>): (steps: seq<string>)
    ensures |steps| <= |lines|
    ensures forall k :: 0 <= k < |steps| ==> IsPlanStep(steps[k])
  {
    if lines == [] then []
    else
      var t := Trim(lines[0]);
      var rest := PlanLines(lines[1..]);
      if |t| > 0 && !StartsWith(t, "#") then
        assert IsPlanStep(t);
        [t] + rest
      else rest
  }

  /** The planner's answer as steps: one per line, trimmed, blank and "#" lines dropped. */
  function ParsePlan(text: string): (steps: seq<string>)
    ensures forall k :: 0 <= k < |steps| ==> IsPlanStep(steps[k])
  {
    PlanLines(SplitWhere(text, IsNewline))
  }

  lemma {:induction false} PlanLinesAppend(a: seq<string>, b: seq<string>)
    ensures PlanLines(a + b) == PlanLines(a) + PlanLines(b)
  {
    if a != [] {
      assert (a + b)[0] == a[0] && (a + b)[1..] == a[1..] + b;
      PlanLinesAppend(a[1..], b);
    } else {
      assert a + b == b;
    }
  }

  /** Lines are parsed independently and keep their order. */
  lemma ParsePlanAppend(a: string, b: string)
    ensures ParsePlan(a + "\n" + b) == ParsePlan(a) + ParsePlan(b)
  {
    SplitAppend(a, '\n', b, IsNewline);
    assert a + "\n" + b == a + ['\n'] + b;
    PlanLinesAppend(SplitWhere(a, IsNewline), SplitWhere(b, IsNewline));
  }

  /** A single line becomes its trimmed text, unless that is empty or a "#" comment. */
  lemma ParsePlanLine(line: string)
    requires forall i :: 0 <= i < |line| ==> line[i] != '\n'
    ensures IsPlanStep(Trim(line)) ==> ParsePlan(line) == [Trim(line)]
    ensures !IsPlanStep(Trim(line)) ==> ParsePlan(line) == []
  {
    SplitNoSeparator(line, IsNewline);
    assert [line][1..] == [];
    assert PlanLines([line]) == (if |Trim(line)| > 0 && !StartsWith(Trim(line), "#") then [Trim(line)] + [] else []);
  }

  /** needsReplan: a non-null observation whose upper-cased text starts with "REPLAN". */
  predicate NeedsReplan(observation: Option<string>) {
    observation.Some? && StartsWith(ToUpper(observation.value), "REPLAN")
  }

  /** The verdict depends on the first six chars only, whatever their case. */
  lemma NeedsReplanIff(s: string)
    ensures NeedsReplan(Some(s)) <==> |s| >= 6 && ToUpper(s[..6]) == "REPLAN"
  {
    if |s| >= 6 {
      ToUpperPrefix(s, 6);
    }
  }

  /** The observer's fallback answer never asks for a replan; a lower-case "replan" does. */
  lemma ObserverFallbackContinues()
    ensures !NeedsReplan(Some(ObserverFallback))
    ensures NeedsReplan(Some("replan: 订单号不存在"))
    ensures !NeedsReplan(None)
  {
    NeedsReplanIff(ObserverFallback);
    NeedsReplanIff("replan: 订单号不存在");
    assert ToUpper(ObserverFallback[..6])[0] == 'O';
    assert "replan: 订单号不存在"[..6] == "replan";
  }

  const ObserverFallback: string := "OK: 观察异常，继续执行"

  /** executeStep never fails: an exception becomes "执行失败: …", a null answer "(无结果)". */
  function StepOutcome(answer: Result<Option<string>>): (text: string)
    ensures answer.Err? ==> text == "执行失败: " + answer.message
    ensures answer == Ok(None) ==> text == "(无结果)"
    ensures answer.Ok? && answer.value.Some? ==> text == answer.value.value
  {
    match answer
    case Err(msg) => "执行失败: " + msg
    case Ok(None) => "(无结果)"
    case Ok(Some(text)) => text
  }

  /** observe: the trimmed answer, or the optimistic fallback when the call fails or answers null. */
  function Observation(answer: Result<Option<string>>): (observation: string)
    ensures answer.Ok? && answer.value.Some? ==> observation == Trim(answer.value.value)
    ensures !(answer.Ok? && answer.value.Some?) ==> observation == ObserverFallback && !NeedsReplan(Some(observation))
  {
    match answer
    case Ok(Some(text)) => Trim(text)
    case _ => ObserverFallbackContinues(); ObserverFallback
  }

  /** The observer's verdict on the step under the cursor of `plan`, given the step's result. */
  function Observed(o: Oracles, executed: nat, plan: seq<string>, index: nat, result: string): string
    requires index < |plan|
  {
    Observation(o.observer(executed, plan[index], Abbreviate(result, 500), Remaining(plan, index)))
  }

  /** The replan rule of the execute loop: the observation asks for it and rounds remain. */
  predicate WillReplan(observation: string, replans: nat) {
    NeedsReplan(Some(observation)) && replans < MaxReplanRounds
  }

  /** The steps after the current one, as the observer is shown them. */
  function Remaining(plan: seq<string>, index: nat): seq<string> {
    if index + 1 < |plan| then plan[index + 1..] else []
  }

  /** The `type` of every event of a stream, in order. */
  function Kinds(events: seq<Event>): (kinds: seq<Events.EventType>)
    ensures |kinds| == |events|
    ensures forall k :: 0 <= k < |events| ==> kinds[k] == events[k].eventType
  {
    seq(|events|, k requires 0 <= k < |events| => events[k].eventType)
  }

  /** How many events of a type a stream holds. */
  function CountType(events: seq<Event>, t: Events.EventType): nat {
    multiset(Kinds(events))[t]
  }

  lemma CountTypeAppend(events: seq<Event>, e: Event, t: Events.EventType)
    ensures CountType(events + [e], t) == CountType(events, t) + (if e.eventType == t then 1 else 0)
  {
    assert Kinds(events + [e]) == Kinds(events) + [e.eventType];
  }

  /** The tail every failed run ends with. */
  function FailTail(message: string): seq<Event> {
    [Events.Error("执行出错: " + message), Events.Done()]
  }

  /** The event at `k` is not done, and if it is an observation, the event before it ends a step. */
  ghost predicate OrderedAt(events: seq<Event>, k: nat)
    requires k < |events|
  {
    && events[k].eventType != Events.DoneType
    && (events[k].eventType == Events.ObserveType ==>
          k >= 1 && events[k - 1].eventType == Events.ActionType && events[k - 1].status == Some(Events.Finished))
  }

  /** No done event yet, and every observation right after the end of its step. */
  ghost predicate WellOrdered(events: seq<Event>) {
    forall k :: 0 <= k < |events| ==> OrderedAt(events, k)
  }

  /** A finished stream: done exactly once and last, right after a result or an error. */
  ghost predicate Finished(events: seq<Event>) {
    && |events| >= 3
    && events[|events| - 1] == Events.Done()
    && WellOrdered(events[..|events| - 1])
    && events[|events| - 2].eventType in {Events.ResultType, Events.ErrorType}
  }

  lemma AppendKeepsOrder(events: seq<Event>, e: Event)
    requires WellOrdered(events)
    requires e.eventType != Events.DoneType && e.eventType != Events.ObserveType
    ensures WellOrdered(events + [e])
  {
    var all := events + [e];
    forall k | 0 <= k < |all| ensures OrderedAt(all, k) {
      if k < |events| {
        assert OrderedAt(events, k);
        assert all[k] == events[k];
        if k >= 1 { assert all[k - 1] == events[k - 1]; }
      }
    }
  }

  lemma AppendObserveKeepsOrder(events: seq<Event>, e: Event)
    requires WellOrdered(events) && |events| >= 1
    requires events[|events| - 1].eventType == Events.ActionType && events[|events| - 1].status == Some(Events.Finished)
    requires e.eventType == Events.ObserveType
    ensures WellOrdered(events + [e])
  {
    var all := events + [e];
    forall k | 0 <= k < |all| ensures OrderedAt(all, k) {
      if k < |events| {
        assert OrderedAt(events, k);
        assert all[k] == events[k];
        if k >= 1 { assert all[k - 1] == events[k - 1]; }
      } else {
        assert all[k - 1] == events[|events| - 1];
      }
    }
  }

  /** How a stream ends: the answer (a content-less result when it is null) and done, or the error and done. */
  function Close(events: seq<Event>, answer: Result<Option<string>>): seq<Event> {
    match answer
    case Ok(Some(text)) => events + [Events.Result(text), Events.Done()]
    case Ok(None) => events + [Events.NullResult(), Events.Done()]
    case Err(message) => events + FailTail(message)
  }

  /** Appending a result or an error and then done finishes a well-ordered stream. */
  lemma EndFinishes(events: seq<Event>, last: Event)
    requires WellOrdered(events) && |events| >= 1
    requires last.eventType == Events.ResultType || last.eventType == Events.ErrorType
    ensures Finished(events + [last, Events.Done()])
    ensures CountType(events + [last, Events.Done()], Events.ReplanType) == CountType(events, Events.ReplanType)
    ensures (events + [last, Events.Done()])[..|events|] == events
  {
    var all := events + [last, Events.Done()];
    assert all == events + [last] + [Events.Done()];
    AppendKeepsOrder(events, last);
    CountTypeAppend(events, last, Events.ReplanType);
    CountTypeAppend(events + [last], Events.Done(), Events.ReplanType);
    assert all[..|all| - 1] == events + [last];
    PrefixAppend(events + [last], events, [Events.Done()]);
    PrefixAppend(events, events, [last]);
  }

  /** Closing a well-ordered stream finishes it, without adding a replan or touching what came before. */
  lemma CloseFinishes(events: seq<Event>, answer: Result<Option<string>>)
    requires WellOrdered(events) && |events| >= 1
    ensures Finished(Close(events, answer))
    ensures CountType(Close(events, answer), Events.ReplanType) == CountType(events, Events.ReplanType)
    ensures Close(events, answer)[..|events|] == events
  {
    match answer
    case Ok(Some(text)) => EndFinishes(events, Events.Result(text));
    case Ok(None) => EndFinishes(events, Events.NullResult());
    case Err(message) => EndFinishes(events, Events.Error("执行出错: " + message));
  }

  /** The run's invariant: one plan per round, and the completed steps are the current plan's prefix. */
  ghost predicate Consistent(ctx: Context.ExecutionContext)
    reads ctx
  {
    ConsistentState(ctx.planHistory, ctx.replanCount, ctx.stepIndex, ctx.completedSteps)
  }

  ghost predicate ConsistentState(history: seq<seq<string>>, replans: nat, index: nat, completed: seq<StepResult>) {
    && |history| == replans + 1
    && replans <= MaxReplanRounds
    && index <= |history[|history| - 1]|
    && |completed| == index
    && forall k :: 0 <= k < index ==> completed[k].step == history[|history| - 1][k]
  }

  /** Completing the step under the cursor keeps the completed steps a prefix of the plan. */
  lemma CompletedExtend(completed: seq<StepResult>, plan: seq<string>, result: string)
    requires |completed| < |plan|
    requires forall k :: 0 <= k < |completed| ==> completed[k].step == plan[k]
    ensures forall k :: 0 <= k < |completed| + 1 ==>
      (completed + [StepResult(plan[|completed|], result)])[k].step == plan[k]
  {
  }

  /** Appending keeps a prefix (stated generically, so that no element equality is involved). */
  lemma PrefixAppend<T>(s: seq<T>, prefix: seq<T>, tail: seq<T>)
    requires |prefix| <= |s| && s[..|prefix|] == prefix
    ensures (s + tail)[..|prefix|] == prefix
  {
    assert (s + tail)[..|prefix|] == s[..|prefix|];
  }

  lemma PrefixOfPrefix<T>(s: seq<T>, mid: seq<T>, prefix: seq<T>)
    requires |mid| <= |s| && s[..|mid|] == mid
    requires |prefix| <= |mid| && mid[..|prefix|] == prefix
    ensures s[..|prefix|] == prefix
  {
    assert s[..|prefix|] == mid[..|prefix|];
  }

  // ------------------------------------------------------------------ the loop as values

  /** The loop's state as values: the plans so far, replans spent, cursor, completed steps, rounds run. */
  datatype RunState = RunState(history: seq<seq<string>>, replans: nat, index: nat, completed: seq<StepResult>, executed: nat)

  /** What a stretch of the loop emits, the failure that ended it (if any), and the state it leaves. */
  datatype Outcome = Outcome(events: seq<Event>, failure: Option<string>, state: RunState)

  ghost predicate ValidRun(st: RunState) {
    ConsistentState(st.history, st.replans, st.index, st.completed)
  }

  /** The context's fields as a loop state. */
  function Snapshot(ctx: Context.ExecutionContext, executed: nat): RunState
    reads ctx
  {
    RunState(ctx.planHistory, ctx.replanCount, ctx.stepIndex, ctx.completedSteps, executed)
  }

  /**
   * The first half of a round: actionStart for the step under the cursor; the
   * tools are bound (a failed fetch ends the run); the step's outcome is
   * recorded as a completed step and announced by actionDone.
   */
  function Executed(o: Oracles, skill: SkillDefinition, st: RunState): (r: Outcome)
    requires ValidRun(st) && st.index < |st.history[|st.history| - 1]|
    ensures r.failure.None? ==>
      && ConsistentState(r.state.history, r.state.replans, r.state.index + 1, r.state.completed)
      && r.state.history == st.history && r.state.replans == st.replans && r.state.index == st.index
    ensures |r.events| >= 1
  {
    var plan := st.history[|st.history| - 1];
    var step := plan[st.index];
    var start := Events.ActionStart(st.index + 1, |plan|, step);
    match Resolver.Bound(o.catalog(st.executed), skill)
    case Err(message) => Outcome([start], Some(message), st)
    case Ok(tools) =>
      var text := StepOutcome(o.executor(st.executed, step, tools, st.completed));
      CompletedExtend(st.completed, plan, text);
      Outcome([start, Events.ActionDone(st.index + 1, |plan|, step, text)], None,
              st.(completed := st.completed + [StepResult(step, text)]))
  }

  /**
   * What executeStep records and emits: the step under the cursor is announced;
   * when the tools cannot be bound the run fails with that error; otherwise the
   * executor's answer (or its failure text, or "(无结果)") is appended to the
   * completed steps and announced as the step's result.
   */
  lemma ExecuteRule(o: Oracles, skill: SkillDefinition, st: RunState)
    requires ValidRun(st) && st.index < |st.history[|st.history| - 1]|
    ensures var r := Executed(o, skill, st);
      var plan := st.history[|st.history| - 1];
      var step := plan[st.index];
      var start := Events.ActionStart(st.index + 1, |plan|, step);
      var tools := Resolver.Bound(o.catalog(st.executed), skill);
      && (tools.Err? <==> r.failure.Some?)
      && (tools.Err? ==> r.failure == Some(tools.message) && r.events == [start])
      && (tools.Ok? ==>
            var text := StepOutcome(o.executor(st.executed, step, tools.value, st.completed));
            && r.events == [start, Events.ActionDone(st.index + 1, |plan|, step, text)]
            && r.state == st.(completed := st.completed + [StepResult(step, text)]))
  {
  }

  /**
   * The second half of a round: the observer judges the last completed step;
   * the cursor moves on, or, when the observer asks for it and fewer than
   * three replans were made, the planner is asked again and its plan replaces
   * the current one (a failed planner ends the run, dropping the observation).
   */
  /** The observer's verdict on the last completed step of a state. */
  function ObservationOf(o: Oracles, st: RunState): string
    requires ConsistentState(st.history, st.replans, st.index + 1, st.completed)
  {
    Observed(o, st.executed, st.history[|st.history| - 1], st.index, st.completed[|st.completed| - 1].result)
  }

  /** The state a replan leaves: the new plan, one more replan, the cursor at its start, nothing completed. */
  function Replanned(st: RunState, steps: seq<string>): RunState {
    RunState(st.history + [steps], st.replans + 1, 0, [], st.executed + 1)
  }

  /** The second half of a round, once the observer has given its verdict on the last completed step. */
  function RoundOn(o: Oracles, st: RunState, observation: string): Outcome {
    var observe := Events.Observe(st.index + 1, observation);
    if WillReplan(observation, st.replans) then
      match o.planner(|st.history|, st.completed)
      case Err(message) => Outcome([], Some(message), st)
      case Ok(answer) =>
        var newSteps := ParsePlan(answer);
        Outcome([observe, Events.Replan(observation, newSteps)], None, Replanned(st, newSteps))
    else
      Outcome([observe], None, st.(index := st.index + 1, executed := st.executed + 1))
  }

  function ObservedRound(o: Oracles, st: RunState): (r: Outcome)
    requires ConsistentState(st.history, st.replans, st.index + 1, st.completed)
    ensures r.failure.None? ==> ValidRun(r.state)
    ensures r.failure.None? ==>
      || r.state.replans == st.replans + 1
      || (r.state.replans == st.replans && r.state.history == st.history && r.state.index == st.index + 1)
  {
    RoundOn(o, st, ObservationOf(o, st))
  }

  /**
   * The replan rule of executeLoop: a new plan is made exactly when the
   * observation asks for one and fewer than three replans were made; it is
   * announced after the observation and restarts the cursor with nothing
   * completed. Otherwise the cursor moves on by one and nothing else changes.
   */
  lemma ReplanRule(o: Oracles, st: RunState)
    requires ConsistentState(st.history, st.replans, st.index + 1, st.completed)
    ensures var r := ObservedRound(o, st);
      var observation := ObservationOf(o, st);
      var observe := Events.Observe(st.index + 1, observation);
      var again := o.planner(|st.history|, st.completed);
      && (r.failure.None? && r.state.replans == st.replans + 1 <==>
            NeedsReplan(Some(observation)) && st.replans < MaxReplanRounds && again.Ok?)
      && (r.failure.Some? <==> NeedsReplan(Some(observation)) && st.replans < MaxReplanRounds && again.Err?)
      && (r.failure.Some? ==> r.failure.value == again.message)
      && (!WillReplan(observation, st.replans) ==>
            && r.events == [observe]
            && r.state == st.(index := st.index + 1, executed := st.executed + 1))
      && (WillReplan(observation, st.replans) && again.Ok? ==>
            && r.events == [observe, Events.Replan(observation, ParsePlan(again.value))]
            && r.state.history == st.history + [ParsePlan(again.value)]
            && r.state.index == 0 && r.state.completed == [])
  {
    var observation := ObservationOf(o, st);
    assert ObservedRound(o, st) == RoundOn(o, st, observation);
    if !WillReplan(observation, st.replans) {
      ObserveAdvances(o, st, observation);
    } else if o.planner(|st.history|, st.completed).Err? {
      ObserveReplanFails(o, st, observation);
    } else {
      ObserveReplans(o, st, observation);
    }
  }

  /** One round of executeLoop: execute the step under the cursor, then observe it. */
  function Round(o: Oracles, skill: SkillDefinition, st: RunState): (r: Outcome)
    requires ValidRun(st) && st.index < |st.history[|st.history| - 1]|
    ensures r.failure.None? ==> ValidRun(r.state)
    ensures r.failure.None? ==>
      || r.state.replans == st.replans + 1
      || (r.state.replans == st.replans && r.state.history == st.history && r.state.index == st.index + 1)
  {
    var executed := Executed(o, skill, st);
    if executed.failure.Some? then executed
    else
      var observed := ObservedRound(o, executed.state);
      Outcome(executed.events + observed.events, observed.failure, observed.state)
  }

  /**
   * executeLoop from a state to its end: rounds until the cursor passes the
   * end of the current plan, or until a round fails. Each round either moves
   * the cursor on or spends one of the three replan rounds, so it ends.
   */
  function Rounds(o: Oracles, skill: SkillDefinition, st: RunState): (r: Outcome)
    requires ValidRun(st)
    decreases MaxReplanRounds - st.replans, |st.history[|st.history| - 1]| - st.index
    ensures r.failure.None? ==> ValidRun(r.state) && r.state.index == |r.state.history[|r.state.history| - 1]|
  {
    if st.index >= |st.history[|st.history| - 1]| then Outcome([], None, st)
    else
      var first := Round(o, skill, st);
      if first.failure.Some? then first
      else
        var next := first.state;
        assert next.replans > st.replans || (next.history == st.history && next.index == st.index + 1);
        var rest := Rounds(o, skill, next);
        Outcome(first.events + rest.events, rest.failure, rest.state)
  }

  /** One unfolding of Rounds: a finished plan emits nothing; otherwise one round, then the rest unless it failed. */
  lemma RoundsUnfold(o: Oracles, skill: SkillDefinition, st: RunState)
    requires ValidRun(st)
    ensures st.index >= |st.history[|st.history| - 1]| ==> Rounds(o, skill, st) == Outcome([], None, st)
    ensures st.index < |st.history[|st.history| - 1]| ==>
      var first := Round(o, skill, st);
      && (first.failure.Some? ==> Rounds(o, skill, st) == first)
      && (first.failure.None? ==>
            Rounds(o, skill, st) == Outcome(first.events + Rounds(o, skill, first.state).events,
                                            Rounds(o, skill, first.state).failure, Rounds(o, skill, first.state).state))
  {
    if st.index < |st.history[|st.history| - 1]| {
      var first := Round(o, skill, st);
      if first.failure.None? {
        var rest := Rounds(o, skill, first.state);
        assert Rounds(o, skill, st) == Outcome(first.events + rest.events, rest.failure, rest.state);
      }
    }
  }

  /** The final answer: the tools are bound again and the finalizer sees every completed step. */
  function FinalAnswer(o: Oracles, skill: SkillDefinition, st: RunState): Result<Option<string>> {
    match Resolver.Bound(o.catalog(st.executed), skill)
    case Err(message) => Err(message)
    case Ok(tools) => o.finalizer(tools, st.completed)
  }

  /** Everything after the first plan: the loop's events, then the error, or the final phase. */
  function AfterPlan(o: Oracles, skill: SkillDefinition, head: seq<Event>, st: RunState): seq<Event>
    requires ValidRun(st)
  {
    var r := Rounds(o, skill, st);
    if r.failure.Some? then Close(head + r.events, Err(r.failure.value))
    else Close(head + r.events + [Synthesizing], FinalAnswer(o, skill, r.state))
  }

  /** planAndExecute's whole event stream, as a function of the oracles. */
  function Run(o: Oracles, skill: SkillDefinition): seq<Event> {
    match o.planner(0, [])
    case Err(message) => Close([Opening], Err(message))
    case Ok(answer) =>
      var steps := ParsePlan(answer);
      AfterPlan(o, skill, [Opening, Events.Plan(steps)], RunState([steps], 0, 0, [], 0))
  }

  // ------------------------------------------------------------------ what the stream promises

  /** The kinds of events a step's execution emits: its start, then (unless it fails) its end. */
  lemma ExecutedShape(o: Oracles, skill: SkillDefinition, st: RunState)
    requires ValidRun(st) && st.index < |st.history[|st.history| - 1]|
    ensures var r := Executed(o, skill, st);
      && |r.events| == (if r.failure.None? then 2 else 1)
      && r.events[0].eventType == Events.ActionType && r.events[0].status == Some(Events.Running)
      && (r.failure.None? ==> r.events[1].eventType == Events.ActionType && r.events[1].status == Some(Events.Finished))
  {
  }

  /** The kinds of events an observation emits: nothing when the replan fails, else the observation and possibly the replan. */
  lemma ObservedShape(o: Oracles, st: RunState)
    requires ConsistentState(st.history, st.replans, st.index + 1, st.completed)
    ensures var r := ObservedRound(o, st);
      && (r.failure.Some? ==> r.events == [])
      && (r.failure.None? ==>
            && |r.events| == (if r.state.replans == st.replans then 1 else 2)
            && r.events[0].eventType == Events.ObserveType
            && (|r.events| == 2 ==> r.events[1].eventType == Events.ReplanType))
  {
  }

  /** Executing a step keeps the stream ordered, adds no replan, and (unless it fails) ends with the step's result. */
  lemma ExecutedOrdered(o: Oracles, skill: SkillDefinition, st: RunState, events0: seq<Event>)
    requires ValidRun(st) && st.index < |st.history[|st.history| - 1]|
    requires WellOrdered(events0)
    ensures var r := Executed(o, skill, st);
      var all := events0 + r.events;
      && WellOrdered(all) && CountType(all, Events.ReplanType) == CountType(events0, Events.ReplanType)
      && (r.failure.None? ==>
            all[|all| - 1].eventType == Events.ActionType && all[|all| - 1].status == Some(Events.Finished))
  {
    var r := Executed(o, skill, st);
    ExecutedShape(o, skill, st);
    var start := r.events[0];
    AppendKeepsOrder(events0, start);
    CountTypeAppend(events0, start, Events.ReplanType);
    if r.failure.Some? {
      assert r.events == [start];
    } else {
      var done := r.events[1];
      AppendKeepsOrder(events0 + [start], done);
      CountTypeAppend(events0 + [start], done, Events.ReplanType);
      assert r.events == [start, done];
      assert events0 + r.events == events0 + [start] + [done];
    }
  }

  /** Observing keeps the stream ordered and adds one replan event exactly when a replan is made. */
  lemma ObservedOrdered(o: Oracles, st: RunState, events0: seq<Event>)
    requires ConsistentState(st.history, st.replans, st.index + 1, st.completed)
    requires WellOrdered(events0) && |events0| >= 1
    requires events0[|events0| - 1].eventType == Events.ActionType
    requires events0[|events0| - 1].status == Some(Events.Finished)
    ensures var r := ObservedRound(o, st);
      && WellOrdered(events0 + r.events)
      && CountType(events0 + r.events, Events.ReplanType) + st.replans
         == CountType(events0, Events.ReplanType) + (if r.failure.None? then r.state.replans else st.replans)
  {
    var r := ObservedRound(o, st);
    ObservedShape(o, st);
    if r.failure.Some? {
      assert events0 + r.events == events0;
    } else {
      var observe := r.events[0];
      AppendObserveKeepsOrder(events0, observe);
      CountTypeAppend(events0, observe, Events.ReplanType);
      if |r.events| == 2 {
        var replan := r.events[1];
        AppendKeepsOrder(events0 + [observe], replan);
        CountTypeAppend(events0 + [observe], replan, Events.ReplanType);
        assert r.events == [observe, replan];
        assert events0 + r.events == events0 + [observe] + [replan];
      } else {
        assert r.events == [observe];
      }
    }
  }

  /** A round keeps the stream ordered; it adds a replan event exactly when it spends a replan round. */
  lemma RoundOrdered(o: Oracles, skill: SkillDefinition, st: RunState, events0: seq<Event>)
    requires ValidRun(st) && st.index < |st.history[|st.history| - 1]|
    requires WellOrdered(events0)
    ensures var r := Round(o, skill, st);
      && WellOrdered(events0 + r.events)
      && CountType(events0 + r.events, Events.ReplanType) + st.replans
         == CountType(events0, Events.ReplanType) + (if r.failure.None? then r.state.replans else st.replans)
  {
    var first := Executed(o, skill, st);
    ExecutedOrdered(o, skill, st, events0);
    if first.failure.None? {
      var second := ObservedRound(o, first.state);
      ObservedOrdered(o, first.state, events0 + first.events);
      AppendAssoc(events0, first.events, second.events);
    }
  }

  /**
   * The whole loop keeps the stream ordered and emits one replan event per
   * replan round spent, so never more than three.
   */
  lemma {:induction false} RoundsOrdered(o: Oracles, skill: SkillDefinition, st: RunState, events0: seq<Event>)
    requires ValidRun(st)
    requires WellOrdered(events0) && CountType(events0, Events.ReplanType) == st.replans
    decreases MaxReplanRounds - st.replans, |st.history[|st.history| - 1]| - st.index
    ensures var r := Rounds(o, skill, st);
      && WellOrdered(events0 + r.events)
      && CountType(events0 + r.events, Events.ReplanType) <= MaxReplanRounds
      && (r.failure.None? ==> CountType(events0 + r.events, Events.ReplanType) == r.state.replans)
  {
    RoundsUnfold(o, skill, st);
    if st.index >= |st.history[|st.history| - 1]| {
      assert events0 + [] == events0;
    } else {
      var first := Round(o, skill, st);
      RoundOrdered(o, skill, st, events0);
      if first.failure.None? {
        var rest := Rounds(o, skill, first.state);
        RoundsOrdered(o, skill, first.state, events0 + first.events);
        AppendAssoc(events0, first.events, rest.events);
      }
    }
  }

  /** Closing a well-ordered stream that starts with `head` finishes it and keeps `head`. */
  lemma CloseKeepsHead(head: seq<Event>, body: seq<Event>, answer: Result<Option<string>>)
    requires WellOrdered(body) && 1 <= |head| <= |body| && body[..|head|] == head
    ensures var events := Close(body, answer);
      && Finished(events) && CountType(events, Events.ReplanType) == CountType(body, Events.ReplanType)
      && |events| > |head| && events[..|head|] == head
  {
    CloseFinishes(body, answer);
    PrefixOfPrefix(Close(body, answer), body, head);
  }

  /** After the first plan the stream ends finished, keeps its head, and holds at most three replans. */
  lemma AfterPlanFinished(o: Oracles, skill: SkillDefinition, head: seq<Event>, st: RunState)
    requires ValidRun(st)
    requires WellOrdered(head) && |head| >= 1 && CountType(head, Events.ReplanType) == st.replans
    ensures var events := AfterPlan(o, skill, head, st);
      && Finished(events) && CountType(events, Events.ReplanType) <= MaxReplanRounds
      && |events| > |head| && events[..|head|] == head
  {
    var r := Rounds(o, skill, st);
    RoundsOrdered(o, skill, st, head);
    var body := head + r.events;
    assert body[..|head|] == head;
    if r.failure.Some? {
      CloseKeepsHead(head, body, Err(r.failure.value));
    } else {
      AppendKeepsOrder(body, Synthesizing);
      CountTypeAppend(body, Synthesizing, Events.ReplanType);
      PrefixAppend(body, head, [Synthesizing]);
      CloseKeepsHead(head, body + [Synthesizing], FinalAnswer(o, skill, r.state));
    }
  }

  /** The stream right after a successful first plan: the opening note, then the plan. */
  lemma PlanHead(steps: seq<string>)
    ensures WellOrdered([Opening, Events.Plan(steps)])
    ensures CountType([Opening, Events.Plan(steps)], Events.ReplanType) == 0
  {
    var start := [Opening];
    assert OrderedAt(start, 0);
    AppendKeepsOrder(start, Events.Plan(steps));
    CountTypeAppend(start, Events.Plan(steps), Events.ReplanType);
    assert start + [Events.Plan(steps)] == [Opening, Events.Plan(steps)];
  }

  /**
   * Every run opens with the planning note and ends with exactly one done,
   * right after the final result or an error; at most three replans are
   * announced and each observation directly follows the end of its step. A
   * failed first plan gives planning, error, done; a good one is announced second.
   */
  lemma RunFinished(o: Oracles, skill: SkillDefinition)
    ensures Finished(Run(o, skill))
    ensures Run(o, skill)[0] == Opening
    ensures CountType(Run(o, skill), Events.ReplanType) <= MaxReplanRounds
    ensures o.planner(0, []).Err? ==> Run(o, skill) == [Opening] + FailTail(o.planner(0, []).message)
    ensures o.planner(0, []).Ok? ==> Run(o, skill)[1] == Events.Plan(ParsePlan(o.planner(0, []).value))
  {
    var start := [Opening];
    assert OrderedAt(start, 0);
    match o.planner(0, [])
    case Err(message) =>
      CloseFinishes(start, Err(message));
    case Ok(answer) =>
      var steps := ParsePlan(answer);
      var head := [Opening, Events.Plan(steps)];
      PlanHead(steps);
      AfterPlanFinished(o, skill, head, RunState([steps], 0, 0, [], 0));
      assert Run(o, skill)[..2] == head;
      assert Run(o, skill)[0] == head[0] && Run(o, skill)[1] == head[1];
  }

  // ------------------------------------------------------------------ the loop on the context

  /**
   * The first half of a round of the execute loop: announce the step under the
   * cursor, bind the tools, execute it and record its result. A failure to
   * fetch the tools is returned for the caller to end the stream with.
   */
  method ExecuteStep(ctx: Context.ExecutionContext, skill: SkillDefinition, o: Oracles, executed: nat)
    returns (emitted: seq<Event>, result: Result<string>)
    requires Consistent(ctx) && ctx.stepIndex < |ctx.CurrentPlan()|
    modifies ctx`completedSteps
    ensures var r := Executed(o, skill, old(Snapshot(ctx, executed)));
      && emitted == r.events && (result.Err? <==> r.failure.Some?)
      && (r.failure.Some? ==> result.message == r.failure.value)
      && (r.failure.None? ==> Snapshot(ctx, executed) == r.state)
  {
    ghost var st := Snapshot(ctx, executed);
    ExecuteRule(o, skill, st);
    var plan := ctx.CurrentPlan();
    var step := plan[ctx.stepIndex];
    var display := ctx.stepIndex + 1;
    var start := Events.ActionStart(display, |plan|, step);
    var tools := Resolver.ResolveTools(o.catalog(executed), skill);
    if tools.Err? {
      return [start], Err(tools.message);
    }
    var text := StepOutcome(o.executor(executed, step, tools.value, ctx.completedSteps));
    ctx.AddCompletedStep(step, text);
    emitted := [start, Events.ActionDone(display, |plan|, step, text)];
    result := Ok(text);
  }

  /** The branch of an observation that moves the cursor on. */
  lemma ObserveAdvances(o: Oracles, st: RunState, observation: string)
    requires !WillReplan(observation, st.replans)
    ensures RoundOn(o, st, observation)
      == Outcome([Events.Observe(st.index + 1, observation)], None,
                 st.(index := st.index + 1, executed := st.executed + 1))
  {
  }

  /** The branch of an observation whose replan fails. */
  lemma ObserveReplanFails(o: Oracles, st: RunState, observation: string)
    requires WillReplan(observation, st.replans) && o.planner(|st.history|, st.completed).Err?
    ensures RoundOn(o, st, observation) == Outcome([], Some(o.planner(|st.history|, st.completed).message), st)
  {
  }

  /** The branch of an observation that installs a new plan. */
  lemma ObserveReplans(o: Oracles, st: RunState, observation: string)
    requires WillReplan(observation, st.replans) && o.planner(|st.history|, st.completed).Ok?
    ensures var newSteps := ParsePlan(o.planner(|st.history|, st.completed).value);
      RoundOn(o, st, observation)
      == Outcome([Events.Observe(st.index + 1, observation), Events.Replan(observation, newSteps)], None,
                 Replanned(st, newSteps))
  {
  }

  /**
   * The second half of a round: observe the last completed step's result,
   * then either move the cursor on or, when the observer asks for it and
   * rounds remain, install a new plan. A failed replan is returned for the
   * caller to end the stream with.
   */
  method ObserveStep(ctx: Context.ExecutionContext, o: Oracles, executed: nat)
    returns (emitted: seq<Event>, failure: Option<string>)
    requires ConsistentState(ctx.planHistory, ctx.replanCount, ctx.stepIndex + 1, ctx.completedSteps)
    modifies ctx`planHistory, ctx`stepIndex, ctx`completedSteps, ctx`replanCount
    ensures var r := ObservedRound(o, old(Snapshot(ctx, executed)));
      && emitted == r.events && failure == r.failure
      && (failure.None? ==> Snapshot(ctx, executed + 1) == r.state)
  {
    ghost var st := Snapshot(ctx, executed);
    emitted, failure := [], None;
    var observation := ObservationOf(o, Snapshot(ctx, executed));
    var observe := Events.Observe(ctx.stepIndex + 1, observation);
    if WillReplan(observation, ctx.replanCount) {
      var newSteps;
      newSteps, failure := Replan(ctx, o);
      if failure.Some? {
        ObserveReplanFails(o, st, observation);
        // The observation is lost: it was to be emitted together with the new plan.
        return;
      }
      ObserveReplans(o, st, observation);
      emitted := [observe, Events.Replan(observation, newSteps)];
    } else {
      ObserveAdvances(o, st, observation);
      emitted := [observe];
      Proceed(ctx);
    }
  }

  /** The branch without a replan: the cursor moves on to the next step of the same plan. */
  method Proceed(ctx: Context.ExecutionContext)
    requires ConsistentState(ctx.planHistory, ctx.replanCount, ctx.stepIndex + 1, ctx.completedSteps)
    modifies ctx`stepIndex
    ensures ctx.stepIndex == old(ctx.stepIndex) + 1
    ensures Consistent(ctx)
  {
    ctx.AdvanceStep();
  }

  /**
   * The replan branch of an observation: the round is counted, the planner is
   * asked again with the steps completed so far, and on success the new plan
   * replaces the current one, restarting at its first step with nothing
   * completed.
   */
  method Replan(ctx: Context.ExecutionContext, o: Oracles)
    returns (newSteps: seq<string>, failure: Option<string>)
    requires |ctx.planHistory| == ctx.replanCount + 1 && ctx.replanCount < MaxReplanRounds
    modifies ctx`planHistory, ctx`stepIndex, ctx`completedSteps, ctx`replanCount
    ensures ctx.replanCount == old(ctx.replanCount) + 1
    ensures var again := o.planner(|old(ctx.planHistory)|, old(ctx.completedSteps));
      && (again.Err? ==> failure == Some(again.message))
      && (again.Ok? ==>
            && failure.None? && newSteps == ParsePlan(again.value)
            && ctx.planHistory == old(ctx.planHistory) + [newSteps]
            && ctx.stepIndex == 0 && ctx.completedSteps == [])
    ensures failure.None? ==> Consistent(ctx)
  {
    newSteps, failure := [], None;
    var again := o.planner(|ctx.planHistory|, ctx.completedSteps);
    ctx.IncrementReplan();
    if again.Err? {
      failure := Some(again.message);
      return;
    }
    newSteps := ParsePlan(again.value);
    ctx.ResetForReplan(newSteps);
  }

  /**
   * One round of the execute loop: execute the step under the cursor, then
   * observe it. A failure (no tools, or a failed replan) is returned for the
   * caller to end the stream with.
   */
  method RunStep(ctx: Context.ExecutionContext, skill: SkillDefinition, o: Oracles, executed: nat)
    returns (emitted: seq<Event>, failure: Option<string>)
    requires Consistent(ctx) && ctx.stepIndex < |ctx.CurrentPlan()|
    modifies ctx`planHistory, ctx`stepIndex, ctx`completedSteps, ctx`replanCount
    ensures var r := Round(o, skill, old(Snapshot(ctx, executed)));
      && emitted == r.events && failure == r.failure
      && (failure.None? ==> Snapshot(ctx, executed + 1) == r.state)
  {
    var first, executedResult := ExecuteStep(ctx, skill, o, executed);
    if executedResult.Err? {
      return first, Some(executedResult.message);
    }
    var second;
    second, failure := ObserveStep(ctx, o, executed);
    emitted := first + second;
  }

  /**
   * The final phase: announce it, bind the tools again and ask for the final
   * answer over all completed steps; the stream is closed either way.
   */
  method Synthesize(ctx: Context.ExecutionContext, skill: SkillDefinition, o: Oracles, executed: nat, events0: seq<Event>)
    returns (events: seq<Event>)
    ensures events == Close(events0 + [Synthesizing], FinalAnswer(o, skill, Snapshot(ctx, executed)))
  {
    var prefix := events0 + [Synthesizing];
    var finalTools := Resolver.ResolveTools(o.catalog(executed), skill);
    var answer: Result<Option<string>>;
    if finalTools.Err? {
      answer := Err(finalTools.message);
    } else {
      answer := o.finalizer(finalTools.value, ctx.completedSteps);
    }
    events := Close(prefix, answer);
  }

  /** What the loop still owes: the events so far followed by the rest of the rounds make the whole loop. */
  ghost predicate Remains(o: Oracles, skill: SkillDefinition, whole: Outcome, emitted: seq<Event>, st: RunState)
  {
    ValidRun(st)
    && var rest := Rounds(o, skill, st);
    && whole.events == emitted + rest.events
    && whole.failure == rest.failure && whole.state == rest.state
  }

  /** One round of the loop: either the run ends with the whole loop's outcome, or the rest is owed from the new state. */
  lemma LoopStep(o: Oracles, skill: SkillDefinition, whole: Outcome, previous: seq<Event>, st: RunState, emitted: seq<Event>)
    requires Remains(o, skill, whole, previous, st) && st.index < |st.history[|st.history| - 1]|
    requires emitted == previous + Round(o, skill, st).events
    ensures Round(o, skill, st).failure.Some? ==> emitted == whole.events && whole.failure == Round(o, skill, st).failure
    ensures Round(o, skill, st).failure.None? ==> Remains(o, skill, whole, emitted, Round(o, skill, st).state)
  {
    RoundsUnfold(o, skill, st);
    var first := Round(o, skill, st);
    if first.failure.None? {
      AppendAssoc(previous, first.events, Rounds(o, skill, first.state).events);
    }
  }

  /** Before the first round nothing is emitted and the whole loop is owed. */
  lemma LoopStart(o: Oracles, skill: SkillDefinition, st: RunState)
    requires ValidRun(st)
    ensures Remains(o, skill, Rounds(o, skill, st), [], st)
  {
    assert [] + Rounds(o, skill, st).events == Rounds(o, skill, st).events;
  }

  /** When the cursor has passed the plan's end, the events so far are the whole loop's. */
  lemma LoopEnd(o: Oracles, skill: SkillDefinition, whole: Outcome, emitted: seq<Event>, st: RunState)
    requires Remains(o, skill, whole, emitted, st) && st.index >= |st.history[|st.history| - 1]|
    ensures emitted == whole.events && whole.failure.None? && whole.state == st
  {
    RoundsUnfold(o, skill, st);
    assert emitted + [] == emitted;
  }

  /** One pass of the loop body: a round is run and the rest of the loop is owed from the state it leaves. */
  method LoopRound(ctx: Context.ExecutionContext, skill: SkillDefinition, o: Oracles, executed: nat,
                   ghost whole: Outcome, previous: seq<Event>)
    returns (emitted: seq<Event>, failure: Option<string>)
    requires Consistent(ctx) && ctx.stepIndex < |ctx.CurrentPlan()|
    requires Remains(o, skill, whole, previous, Snapshot(ctx, executed))
    modifies ctx`planHistory, ctx`stepIndex, ctx`completedSteps, ctx`replanCount
    ensures failure.Some? ==> emitted == whole.events && failure == whole.failure
    ensures failure.None? ==> Consistent(ctx) && Remains(o, skill, whole, emitted, Snapshot(ctx, executed + 1))
    ensures failure.None? ==>
      || old(ctx.replanCount) < ctx.replanCount
      || (ctx.replanCount == old(ctx.replanCount) && ctx.planHistory == old(ctx.planHistory) && ctx.stepIndex == old(ctx.stepIndex) + 1)
  {
    ghost var here := Snapshot(ctx, executed);
    assert here.index < |here.history[|here.history| - 1]|;
    ghost var r := Round(o, skill, here);
    var round;
    round, failure := RunStep(ctx, skill, o, executed);
    emitted := previous + round;
    LoopStep(o, skill, whole, previous, here, emitted);
  }

  /**
   * The execute phase: run rounds until the cursor passes the end of the
   * current plan, or until a round fails. Each round either moves the cursor
   * on or spends one of the three replan rounds, so the loop ends.
   */
  method ExecuteLoop(ctx: Context.ExecutionContext, skill: SkillDefinition, o: Oracles)
    returns (emitted: seq<Event>, executed: nat, failure: Option<string>)
    requires Consistent(ctx)
    modifies ctx`planHistory, ctx`stepIndex, ctx`completedSteps, ctx`replanCount
    ensures var r := Rounds(o, skill, old(Snapshot(ctx, 0)));
      && emitted == r.events && failure == r.failure
      && (failure.None? ==> Snapshot(ctx, executed) == r.state)
  {
    ghost var whole := Rounds(o, skill, Snapshot(ctx, 0));
    emitted, executed, failure := [], 0, None;
    LoopStart(o, skill, Snapshot(ctx, 0));
    while ctx.stepIndex < |ctx.CurrentPlan()|
      invariant Consistent(ctx)
      invariant failure.None? && Remains(o, skill, whole, emitted, Snapshot(ctx, executed))
      decreases MaxReplanRounds - ctx.replanCount, |ctx.CurrentPlan()| - ctx.stepIndex
    {
      emitted, failure := LoopRound(ctx, skill, o, executed, whole, emitted);
      executed := executed + 1;
      if failure.Some? {
        return;
      }
    }
    ghost var last := Snapshot(ctx, executed);
    assert last.index >= |last.history[|last.history| - 1]|;
    LoopEnd(o, skill, whole, emitted, last);
  }

  /** Everything after the first plan: the execute phase, then the final phase or the error that ended the run. */
  method RunPlan(ctx: Context.ExecutionContext, skill: SkillDefinition, o: Oracles, head: seq<Event>)
    returns (events: seq<Event>)
    requires Consistent(ctx)
    modifies ctx`planHistory, ctx`stepIndex, ctx`completedSteps, ctx`replanCount
    ensures events == AfterPlan(o, skill, head, old(Snapshot(ctx, 0)))
  {
    var emitted, executed, failure := ExecuteLoop(ctx, skill, o);
    if failure.Some? {
      events := Close(head + emitted, Err(failure.value));
    } else {
      events := Synthesize(ctx, skill, o, executed, head + emitted);
    }
  }

  /**
   * planAndExecute: the whole event stream of one skill run. It always ends
   * with exactly one done, preceded by the final result or by an error; a
   * failed first plan gives planning, error, done; there are at most three
   * replans, and each observation directly follows the end of its step.
   */
  method PlanAndExecute(skill: SkillDefinition, conversationId: string, userMessage: string, o: Oracles)
    returns (events: seq<Event>)
    ensures events == Run(o, skill)
    ensures Finished(events) && events[0] == Opening
    ensures CountType(events, Events.ReplanType) <= MaxReplanRounds
  {
    RunFinished(o, skill);
    var ctx := new Context.ExecutionContext(skill, conversationId, userMessage, userMessage);
    var first := o.planner(0, []);
    if first.Err? {
      return Close([Opening], Err(first.message));
    }
    var steps := ParsePlan(first.value);
    ctx.AddPlan(steps);
    assert Consistent(ctx) by {
      assert ctx.planHistory == [steps];
    }
    assert Snapshot(ctx, 0) == RunState([steps], 0, 0, [], 0);
    events := RunPlan(ctx, skill, o, [Opening, Events.Plan(steps)]);
  }
}

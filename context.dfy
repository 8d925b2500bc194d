/**
 * The mutable state of one Plan-and-Execute run of a skill: the plans made so
 * far (the last one is current), a cursor into the current plan, the steps
 * completed under it, and the replan and ask-user counters.
 */
module Context {
  import opened Base
  import opened Records

  class ExecutionContext {
    const skill: SkillDefinition
    const conversationId: string
    const userMessage: string
    const enrichedMessage: string

    /** The skill prompt and tools, loaded once and reused by every step. */
    var cachedPrompt: Option<string>
    var cachedTools: Option<seq<Tool>>

    var completedSteps: seq<StepResult>
    var planHistory: seq<seq<string>>
    var stepIndex: nat
    var replanCount: nat
    var askUserCount: nat
    var askUserTerminated: bool

    constructor (skill: SkillDefinition, conversationId: string, userMessage: string, enrichedMessage: string)
      ensures this.skill == skill && this.conversationId == conversationId
      ensures this.userMessage == userMessage && this.enrichedMessage == enrichedMessage
      ensures cachedPrompt.None? && cachedTools.None?
      ensures completedSteps == [] && planHistory == []
      ensures stepIndex == 0 && replanCount == 0 && askUserCount == 0 && !askUserTerminated
    {
      this.skill := skill;
      this.conversationId := conversationId;
      this.userMessage := userMessage;
      this.enrichedMessage := enrichedMessage;
      cachedPrompt, cachedTools := None, None;
      completedSteps, planHistory := [], [];
      stepIndex, replanCount, askUserCount := 0, 0, 0;
      askUserTerminated := false;
    }

    method SetCachedPrompt(prompt: string)
      modifies this`cachedPrompt
      ensures cachedPrompt == Some(prompt)
    {
      cachedPrompt := Some(prompt);
    }

    method SetCachedTools(tools: seq<Tool>)
      modifies this`cachedTools
      ensures cachedTools == Some(tools)
    {
      cachedTools := Some(tools);
    }

    /** Appends at the end; earlier entries keep their places. */
    method AddCompletedStep(step: string, result: string)
      modifies this`completedSteps
      ensures completedSteps == old(completedSteps) + [StepResult(step, result)]
    {
      completedSteps := completedSteps + [StepResult(step, result)];
    }

    method AddPlan(steps: seq<string>)
      modifies this`planHistory
      ensures planHistory == old(planHistory) + [steps]
      ensures CurrentPlan() == steps
    {
      planHistory := planHistory + [steps];
    }

    /** The latest plan; the source fails when no plan was added yet. */
    function CurrentPlan(): (plan: seq<string>)
      reads this
      requires |planHistory| > 0
      ensures plan in planHistory
      ensures plan == planHistory[|planHistory| - 1]
    {
      planHistory[|planHistory| - 1]
    }

    /** The step under the cursor, or null once the cursor has passed the plan's end. */
    function CurrentStep(): (step: Option<string>)
      reads this
      requires |planHistory| > 0
      ensures step.Some? <==> HasMoreSteps()
      ensures step.Some? ==> step.value in CurrentPlan()
      ensures step.Some? ==> step.value == CurrentPlan()[stepIndex]
    {
      if stepIndex < |CurrentPlan()| then Some(CurrentPlan()[stepIndex]) else None
    }

    /** The 1-based step number shown to the user. */
    function CurrentStepDisplay(): (n: nat)
      reads this
      ensures n >= 1 && n == stepIndex + 1
    {
      stepIndex + 1
    }

    function TotalSteps(): nat
      reads this
      requires |planHistory| > 0
    {
      |CurrentPlan()|
    }

    predicate HasMoreSteps()
      reads this
      requires |planHistory| > 0
    {
      stepIndex < TotalSteps()
    }

    /** Moves the cursor one step on, without any bound check. */
    method AdvanceStep()
      modifies this`stepIndex
      ensures stepIndex == old(stepIndex) + 1
    {
      stepIndex := stepIndex + 1;
    }

    method IncrementReplan()
      modifies this`replanCount
      ensures replanCount == old(replanCount) + 1
    {
      replanCount := replanCount + 1;
    }

    /** Installs a new plan and restarts at its first step with nothing completed; the replan counter is left alone. */
    method ResetForReplan(newSteps: seq<string>)
      modifies this`planHistory, this`stepIndex, this`completedSteps
      ensures planHistory == old(planHistory) + [newSteps]
      ensures CurrentPlan() == newSteps
      ensures stepIndex == 0 && completedSteps == []
    {
      AddPlan(newSteps);
      stepIndex := 0;
      completedSteps := [];
    }

    /** Counts one more ask-user round and returns the new count. */
    method IncrementAskUser() returns (count: nat)
      modifies this`askUserCount
      ensures askUserCount == old(askUserCount) + 1 && count == askUserCount
    {
      askUserCount := askUserCount + 1;
      count := askUserCount;
    }

    /** Marks the run as ended by a question to the user; calling it again changes nothing. */
    method TerminateWithAskUser()
      modifies this`askUserTerminated
      ensures askUserTerminated
    {
      askUserTerminated := true;
    }
  }
}

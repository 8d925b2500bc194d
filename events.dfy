/**
 * The events a Plan-and-Execute run streams to the client. A field left
 * `None` is null in the record and is omitted from the JSON the client sees.
 */
module Events {
  import opened Base
  import Text

  /** The event's `type` field; `Wire` is the string the client receives. */
  datatype EventType =
    | SkillStartType | PlanningType | PlanType | ActionType | ObserveType
    | ReplanType | ResultType | ErrorType | DoneType

  function Wire(t: EventType): string {
    match t
    case SkillStartType => "skill_start"
    case PlanningType => "planning"
    case PlanType => "plan"
    case ActionType => "action"
    case ObserveType => "observe"
    case ReplanType => "replan"
    case ResultType => "result"
    case ErrorType => "error"
    case DoneType => "done"
  }

  /** A step's `status`: "running" when announced, "done" when its result is in. */
  datatype Status = Running | Finished

  function StatusWire(s: Status): string {
    match s
    case Running => "running"
    case Finished => "done"
  }

  /** How a client reads the `type` field back. */
  function ParseWire(w: string): Option<EventType> {
    if w == "skill_start" then Some(SkillStartType)
    else if w == "planning" then Some(PlanningType)
    else if w == "plan" then Some(PlanType)
    else if w == "action" then Some(ActionType)
    else if w == "observe" then Some(ObserveType)
    else if w == "replan" then Some(ReplanType)
    else if w == "result" then Some(ResultType)
    else if w == "error" then Some(ErrorType)
    else if w == "done" then Some(DoneType)
    else None
  }

  /** Every type survives the trip to the client, so distinct types are distinct strings. */
  lemma WireRoundTrip(t: EventType)
    ensures ParseWire(Wire(t)) == Some(t)
  {
  }

  lemma WireInjective(t: EventType, u: EventType)
    ensures Wire(t) == Wire(u) <==> t == u
  {
    WireRoundTrip(t);
    WireRoundTrip(u);
  }

  datatype PlanActionEvent = PlanActionEvent(
    eventType: EventType,
    message: Option<string>,
    step: Option<nat>,
    totalSteps: Option<nat>,
    status: Option<Status>,
    steps: Option<seq<string>>,
    content: Option<string>)

  /** Multi-intent: sub-task `current` of `total` starts on `skillName`. */
  function SkillStart(current: nat, total: nat, skillName: string, subTask: string): PlanActionEvent {
    var msg := "📋 任务 " + Text.NatToString(current) + "/" + Text.NatToString(total)
               + " [" + skillName + "]: " + subTask;
    PlanActionEvent(SkillStartType, Some(msg), Some(current), Some(total), None, None, None)
  }

  function Planning(message: string): PlanActionEvent {
    PlanActionEvent(PlanningType, Some(message), None, None, None, None, None)
  }

  function Plan(steps: seq<string>): PlanActionEvent {
    PlanActionEvent(PlanType, None, None, Some(|steps|), None, Some(steps), None)
  }

  function ActionStart(step: nat, total: nat, message: string): PlanActionEvent {
    PlanActionEvent(ActionType, Some(message), Some(step), Some(total), Some(Running), None, None)
  }

  function ActionDone(step: nat, total: nat, message: string, result: string): PlanActionEvent {
    PlanActionEvent(ActionType, Some(message), Some(step), Some(total), Some(Finished), None, Some(result))
  }

  function Observe(step: nat, observation: string): PlanActionEvent {
    PlanActionEvent(ObserveType, Some(observation), Some(step), None, None, None, None)
  }

  function Replan(reason: string, newSteps: seq<string>): PlanActionEvent {
    PlanActionEvent(ReplanType, Some(reason), None, Some(|newSteps|), None, Some(newSteps), None)
  }

  function Result(content: string): PlanActionEvent {
    PlanActionEvent(ResultType, None, None, None, None, None, Some(content))
  }

  /** `result(null)`: a result whose answer was null, so it carries no content. */
  function NullResult(): PlanActionEvent {
    PlanActionEvent(ResultType, None, None, None, None, None, None)
  }

  /** `result(content)` for an answer that may be null: the result with that content, or none. */
  function ResultOf(content: Option<string>): (e: PlanActionEvent)
    ensures e.eventType == ResultType && e.content == content
    ensures JsonFields(e) == (if content.Some? then ["type", "content"] else ["type"])
  {
    match content
    case Some(text) => Result(text)
    case None => NullResult()
  }

  function Error(message: string): PlanActionEvent {
    PlanActionEvent(ErrorType, Some(message), None, None, None, None, None)
  }

  function Done(): PlanActionEvent {
    PlanActionEvent(DoneType, None, None, None, None, None, None)
  }

  /** The JSON keys the client receives for an event: its non-null fields, in declaration order. */
  function JsonFields(e: PlanActionEvent): (keys: seq<string>)
    ensures |keys| >= 1 && keys[0] == "type"
    ensures "content" in keys <==> e.content.Some?
    ensures "steps" in keys <==> e.steps.Some?
  {
    ["type"]
    + (if e.message.Some? then ["message"] else [])
    + (if e.step.Some? then ["step"] else [])
    + (if e.totalSteps.Some? then ["totalSteps"] else [])
    + (if e.status.Some? then ["status"] else [])
    + (if e.steps.Some? then ["steps"] else [])
    + (if e.content.Some? then ["content"] else [])
  }

  /** `done` carries nothing but its type; `result` carries only its content, or nothing for a null answer. */
  lemma BareEvents(content: string)
    ensures JsonFields(Done()) == ["type"]
    ensures JsonFields(Result(content)) == ["type", "content"]
    ensures JsonFields(NullResult()) == ["type"]
  {
  }

  /**
   * A plan and a replan both announce the plan's length and steps; they differ
   * in type and only the replan carries a message, its reason.
   */
  lemma PlanEventsCarrySteps(steps: seq<string>, reason: string)
    ensures Plan(steps).totalSteps == Some(|steps|) && Plan(steps).steps == Some(steps)
    ensures Replan(reason, steps).totalSteps == Some(|steps|) && Replan(reason, steps).steps == Some(steps)
    ensures JsonFields(Plan(steps)) == ["type", "totalSteps", "steps"]
    ensures JsonFields(Replan(reason, steps)) == ["type", "message", "totalSteps", "steps"]
  {
  }

  /**
   * The start and the end of a step share the type "action" and differ in
   * status; only the end carries the step's result, so the two never coincide.
   */
  lemma ActionEventsDiffer(step: nat, total: nat, message: string, result: string)
    ensures ActionStart(step, total, message).eventType == ActionDone(step, total, message, result).eventType == ActionType
    ensures ActionStart(step, total, message).status == Some(Running)
    ensures ActionDone(step, total, message, result).status == Some(Finished)
    ensures ActionStart(step, total, message).content.None?
    ensures ActionDone(step, total, message, result).content == Some(result)
    ensures ActionStart(step, total, message) != ActionDone(step, total, message, result)
  {
  }

  /** A sub-task header numbers the task and names the skill before the sub-task text. */
  lemma SkillStartMessage(current: nat, total: nat, skillName: string, subTask: string)
    ensures SkillStart(current, total, skillName, subTask).step == Some(current)
    ensures SkillStart(current, total, skillName, subTask).totalSteps == Some(total)
    ensures Text.EndsWith(SkillStart(current, total, skillName, subTask).message.value,
                          " [" + skillName + "]: " + subTask)
  {
    var msg := SkillStart(current, total, skillName, subTask).message.value;
    var tail := " [" + skillName + "]: " + subTask;
    var head := "📋 任务 " + Text.NatToString(current) + "/" + Text.NatToString(total);
    assert msg == head + tail;
    assert msg[|msg| - |tail|..] == tail;
  }
}

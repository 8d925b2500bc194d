# Skill agent orchestration, modelled in Dafny

This project models the decision logic of a Spring AI chat agent that serves
user requests through *skills* and through tools published by MCP servers.
It also models the helper logic of two of those tool servers.

- **Skill loading.** `SKILL.md` files are read into skill definitions. Each file
  has a `---` frontmatter block with `name`, `description` and `allowed-tools`,
  and a prompt body after it.
- **Routing.** The router asks an LLM which skill fits a message. The message is
  sent together with the last 16 turns of history. The answer is normalized to a
  skill key, else to a key it contains, else to `chitchat`.
- **Multi-intent scheduling.** A batch of (skill, sub-task) intents runs one after
  another. New intents are merged with intents left pending for the conversation.
  The batch stops after a skill asks the user a question, and it is summarized when
  more than one result was collected.
- **Plan and execute.** For one skill, an LLM plans the steps. Each step runs with
  the skill's tools and is then observed. The plan can be revised at most three
  times, and the run streams plan/action events to the client.
- **Tool resolution.** A skill's declared tool names are matched against the MCP
  catalog: exact name first, else an entry named `<prefix>_<name>`.
- **MCP connections.** Clients are kept per configured server, with connect,
  disconnect and reconnect. Collecting the tool catalog gives each server at most
  one reconnect-and-retry.
- **Tool servers.**
  - Order tools: status and carrier labels, the refund decision over the orders
    and refunds tables, and query input precedence.
  - Database tool: the read-only SQL guard and the result table.
  - Weather tool: a hand-written JSON value scanner and the forecast day-block
    brace matcher.

Every LLM call, tool-catalog fetch, MCP `initialize`, SQL query and HTTP fetch is a
function parameter of the model (an oracle). Where the same call is made again,
it takes a round or attempt number, so repeated calls may answer differently.
Reactive `Flux` streams are modelled as the finished sequence of events they emit.

| module | file | models |
|---|---|---|
| Base, Text, Assoc | base.dfy, text.dfy, assoc.dfy | Option/Result; the Java `String` operations used (`trim`, `isBlank`, `startsWith`, `indexOf`, `contains`, ASCII case mapping, `split`); a Java `Map` as an association list in iteration order |
| Records | records.dfy | `SkillDefinition`, `SkillIntent`, tool handles, `StepResult`, `SkillResponse` |
| Events | events.dfy | `PlanActionEvent` and its static factories |
| Context | context.dfy | the `ExecutionContext` class |
| Resolver | resolver.dfy | `ToolResolver`, and the identical `findTool`/`resolveTools` in `SkillExecutor` |
| Executor | executor.dfy | `SkillExecutor.planAndExecute`: plan parsing, the step/observe/replan loop, the closing result or error |
| Scheduler | scheduler.dfy | `MultiIntentExecutor`: the pending store, `mergeIntents`, `execute` |
| Router | router.dfy | `SkillRouter`: the skill map, history context, `identifySkill`, `route`, `streamRoute` |
| Loader | loader.dfy | `SkillLoader`: frontmatter, `extractYamlValue`, allowed tools, prompt body, `loadAllSkills` |
| Connections | connections.dfy | `McpConnectionManager` as a class over a clients map |
| Orders, Database, Weather | orders.dfy, database.dfy, weather.dfy | `OrderTools`, `DatabaseTools`, `WeatherTools` |

Stateful objects are Dafny classes whose methods are proved against value-level
transition functions:
- `ExecutionContext`;
- the pending-intent store;
- the connection manager;
- the order tables.

Loops in the source become `while`/`for` loops with invariants, each proved equal to
a recursive specification function. This covers the history builder, the YAML line
scan, the skill accumulation, catalog aggregation, the JSON index scans, brace
matching and table formatting. The lemmas then state what the source promises about
those functions.

### Behaviour the model makes explicit
- The router asks the LLM for a single skill name. The result is an exact key,
  else the first key contained in the answer, else `chitchat`.
- Ask-user handling in the code consists of `ExecutionContext`'s counter and its
  terminated flag, plus the scheduler's stop after a run without an action event.
  Those are modelled.
- When skipping intents after an ask-user, the code saves the remaining intents
  once per skipped resolvable intent. Each save replaces the last, which is the
  finding below. `Scheduler.Execute` stores the remainder from the first skipped
  intent, which is the intended behaviour.
- Tool collection walks every configured server, not only connected ones. A server
  without a client is treated like a failed request: it is reconnected once.
- After a replan request whose new plan cannot be generated, the observation event
  is dropped: the stream continues with error and done only.
- `executeLoop` calls itself at the end of each round. The model writes this tail
  recursion as a `while` loop over the context (`Executor.ExecuteLoop`) and proves
  it equal to the recursive function `Executor.Rounds`.
- `SkillExecutor` is an older revision than the loader and router; it reads
  `skill.tools()` and `skill.prompt()`. The model uses one `SkillDefinition` with
  `allowedTools` and `location`, and takes the skill prompt as a separate input.
  Its loop state (the `int[]` cells and the plan holder) is the `ExecutionContext`
  class.
- `MultiIntentExecutor` calls a three-argument `planAndExecute`, and
  `SkillRouter` calls three-argument `execute` and `planAndExecute`
  (SkillRouter.java:82 and :110). None of these overloads is part of this model.
  The event stream of each skill run is therefore an oracle parameter of the
  scheduler, and the reply and stream of the chosen skill are oracle parameters
  of `Router.Route` and `Router.StreamRoute`.
- The summarizer call in `MultiIntentExecutor` has no error handler. Its failure is
  modelled as the batch stream ending with that error right after the summarizing
  note.

## Model

| member | source | states |
|---|---|---|
| Events.WireRoundTrip | mcp-client-agent/src/main/java/com/example/mcp/client/skill/PlanActionEvent.java:34-82 | every event type's wire string reads back as that type, so no two types share a tag |
| Events.WireInjective | mcp-client-agent/src/main/java/com/example/mcp/client/skill/PlanActionEvent.java:34-82 | two event types have the same wire string iff they are the same type |
| Events.JsonFields | mcp-client-agent/src/main/java/com/example/mcp/client/skill/PlanActionEvent.java:23-32 | only non-null fields are serialized: `type` always first, `content` iff the event has content, `steps` iff it has steps |
| Events.ResultOf | mcp-client-agent/src/main/java/com/example/mcp/client/skill/PlanActionEvent.java:70-72 | `result(content)` with a possibly null content: a result event carrying exactly that content, serialized as type plus content, or as type alone when the content is null |
| Events.BareEvents | mcp-client-agent/src/main/java/com/example/mcp/client/skill/PlanActionEvent.java:69-82 | `done` and a result with a null answer serialize to their type alone, and `result` to type plus content |
| Events.PlanEventsCarrySteps | mcp-client-agent/src/main/java/com/example/mcp/client/skill/PlanActionEvent.java:44-67 | plan and replan both carry the steps and `totalSteps` = their count; only replan carries a message (its reason) |
| Events.ActionEventsDiffer | mcp-client-agent/src/main/java/com/example/mcp/client/skill/PlanActionEvent.java:49-57 | actionStart and actionDone share type `action`, have status running and done, and only actionDone carries the result |
| Events.SkillStartMessage | mcp-client-agent/src/main/java/com/example/mcp/client/skill/PlanActionEvent.java:33-37 | skillStart sets step = current and totalSteps = total, and its message ends with ` [skill]: subTask` |
| Context.ExecutionContext.constructor | mcp-client-agent/src/main/java/com/example/mcp/client/skill/ExecutionContext.java:29-42 | a fresh context keeps its four arguments, has no cached prompt or tools, empty completed steps and plan history, zero counters and is not terminated |
| Context.ExecutionContext.SetCachedPrompt | mcp-client-agent/src/main/java/com/example/mcp/client/skill/ExecutionContext.java:60 | the cached prompt becomes the argument and nothing else changes |
| Context.ExecutionContext.SetCachedTools | mcp-client-agent/src/main/java/com/example/mcp/client/skill/ExecutionContext.java:61 | the cached tools become the argument and nothing else changes |
| Context.ExecutionContext.AddCompletedStep | mcp-client-agent/src/main/java/com/example/mcp/client/skill/ExecutionContext.java:63-65 | completed steps become the old list plus (step, result) at the end |
| Context.ExecutionContext.AddPlan | mcp-client-agent/src/main/java/com/example/mcp/client/skill/ExecutionContext.java:67-69 | the plan history grows by the new plan, which becomes the current plan |
| Context.ExecutionContext.CurrentPlan | mcp-client-agent/src/main/java/com/example/mcp/client/skill/ExecutionContext.java:71-73 | defined only once a plan exists, and it is the last plan recorded |
| Context.ExecutionContext.CurrentStep | mcp-client-agent/src/main/java/com/example/mcp/client/skill/ExecutionContext.java:75-78 | a step is returned iff the cursor is inside the current plan (hasMoreSteps), and it is the current plan's step at the cursor; otherwise null |
| Context.ExecutionContext.CurrentStepDisplay | mcp-client-agent/src/main/java/com/example/mcp/client/skill/ExecutionContext.java:80 | the displayed step number is the cursor plus one |
| Context.ExecutionContext.AdvanceStep | mcp-client-agent/src/main/java/com/example/mcp/client/skill/ExecutionContext.java:84 | the cursor moves on by exactly one with no bound check; no other field changes |
| Context.ExecutionContext.IncrementReplan | mcp-client-agent/src/main/java/com/example/mcp/client/skill/ExecutionContext.java:86 | the replan counter grows by exactly one; no other field changes |
| Context.ExecutionContext.ResetForReplan | mcp-client-agent/src/main/java/com/example/mcp/client/skill/ExecutionContext.java:88-92 | the new plan is appended and becomes current, the cursor is 0, completed steps are empty, the replan counter is untouched |
| Context.ExecutionContext.IncrementAskUser | mcp-client-agent/src/main/java/com/example/mcp/client/skill/ExecutionContext.java:94 | the ask-user counter grows by one and the new value is returned |
| Context.ExecutionContext.TerminateWithAskUser | mcp-client-agent/src/main/java/com/example/mcp/client/skill/ExecutionContext.java:96 | afterwards the run is marked terminated, whatever it was before (idempotent) |
| Assoc.FirstRepeat | mcp-client-agent/src/main/java/com/example/mcp/client/skill/ToolResolver.java:36-40 | the entry at which `toMap` stops: none iff the keys are distinct; otherwise an entry whose key occurs earlier, with all keys before it distinct |
| Assoc.FromList | mcp-client-agent/src/main/java/com/example/mcp/client/skill/ToolResolver.java:36-40 | `toMap` succeeds iff the keys are distinct, keeping the entries in order; otherwise it fails with a duplicate-key message naming the first repeated key |
| Resolver.DuplicateToolNamed | mcp-client-agent/src/main/java/com/example/mcp/client/skill/ToolResolver.java:35-41 | when keying the callbacks fails, the error names a tool whose name an earlier callback already had, and no two callbacks before it share a name |
| Resolver.GetAllTools | mcp-client-agent/src/main/java/com/example/mcp/client/skill/ToolResolver.java:35-41 | building the name-keyed catalog succeeds iff no two callbacks share a name, and then pairs each tool with its name in order |
| Resolver.FirstSuffixIndex | mcp-client-agent/src/main/java/com/example/mcp/client/skill/ToolResolver.java:84-89 | the index of the first catalog entry whose name ends with the suffix, with none before it (the end when there is none) |
| Resolver.FindTool | mcp-client-agent/src/main/java/com/example/mcp/client/skill/ToolResolver.java:80-91 | the lookup loop returns exactly the specified match: exact key, else first `_`-suffix entry, else null |
| Resolver.FindExact | mcp-client-agent/src/main/java/com/example/mcp/client/skill/ToolResolver.java:81-83 | a name present in the catalog resolves to its own entry |
| Resolver.FindSuffix | mcp-client-agent/src/main/java/com/example/mcp/client/skill/ToolResolver.java:84-89 | without an exact key, the first entry ending in `_` + name is returned |
| Resolver.FindNone | mcp-client-agent/src/main/java/com/example/mcp/client/skill/ToolResolver.java:80-91 | the result is null iff the name is not a key and no key ends with `_` + name |
| Resolver.FindIsMatch | mcp-client-agent/src/main/java/com/example/mcp/client/skill/ToolResolver.java:80-91 | a resolved tool is always one of the catalog's handles |
| Resolver.SuffixNeedsUnderscore | mcp-client-agent/src/main/java/com/example/mcp/client/skill/ToolResolver.java:84-87 | an exact key and `prefix_name` match, but a key that ends with the name after some other character does not |
| Resolver.ResolvedAppend | mcp-client-agent/src/main/java/com/example/mcp/client/skill/ToolResolver.java:49-56 | resolving a list of declared names resolves each part in turn, keeping declared order |
| Resolver.ResolvedLength | mcp-client-agent/src/main/java/com/example/mcp/client/skill/ToolResolver.java:46-58 | the resolved list is no longer than the declared list, and equally long iff every declared name was found |
| Resolver.ResolvedAllFound | mcp-client-agent/src/main/java/com/example/mcp/client/skill/ToolResolver.java:46-58 | when every name is found, the k-th resolved tool is the match of the k-th declared name (no deduplication) |
| Resolver.ResolveTools | mcp-client-agent/src/main/java/com/example/mcp/client/skill/ToolResolver.java:46-58 | a failed catalog fetch or a duplicate tool name is an error; otherwise the result is the matches of the declared names in order, unfound names dropped |
| Resolver.FormatToolSignatures | mcp-client-agent/src/main/java/com/example/mcp/client/skill/ToolResolver.java:63-75 | null or empty input gives `无`; otherwise the trimmed concatenation of each tool's signature lines |
| Resolver.SignaturesStartWithFirstTool | mcp-client-agent/src/main/java/com/example/mcp/client/skill/ToolResolver.java:63-75 | for a non-empty list the formatted text starts with `- <first tool name>:` |
| Executor.PlanLines | mcp-client-agent/src/main/java/com/example/mcp/client/skill/SkillExecutor.java:274-278 | no more steps than lines, and every step kept is non-empty, trimmed and not a `#` comment |
| Executor.ParsePlan | mcp-client-agent/src/main/java/com/example/mcp/client/skill/SkillExecutor.java:274-278 | every step of a parsed plan is non-empty, trimmed and does not start with `#` |
| Executor.ParsePlanAppend | mcp-client-agent/src/main/java/com/example/mcp/client/skill/SkillExecutor.java:274-278 | lines are parsed independently and keep their order: parsing `a\nb` is parsing a followed by parsing b |
| Executor.ParsePlanLine | mcp-client-agent/src/main/java/com/example/mcp/client/skill/SkillExecutor.java:274-278 | a single line yields its trimmed text when that is a step, and nothing otherwise |
| Executor.NeedsReplanIff | mcp-client-agent/src/main/java/com/example/mcp/client/skill/SkillExecutor.java:354-356 | a replan is needed iff the observation has at least six chars whose upper-cased form is `REPLAN` |
| Executor.ObserverFallbackContinues | mcp-client-agent/src/main/java/com/example/mcp/client/skill/SkillExecutor.java:346-356 | the observer's fallback `OK: …` and a null observation never trigger a replan, while lower-case `replan: …` does |
| Executor.CloseFinishes | mcp-client-agent/src/main/java/com/example/mcp/client/skill/SkillExecutor.java:157-173 | ending a well-ordered stream with result+done (a content-less result when the answer is null) or error+done finishes it, adds no replan and keeps what came before |
| Executor.StepOutcome | mcp-client-agent/src/main/java/com/example/mcp/client/skill/SkillExecutor.java:307-318 | a failed executor call becomes `执行失败: ` followed by its message, a null answer `(无结果)`, and any other answer is kept as it is |
| Executor.Observation | mcp-client-agent/src/main/java/com/example/mcp/client/skill/SkillExecutor.java:346-350 | the observer's answer, trimmed; a failed call or a null answer gives `OK: 观察异常，继续执行`, which never asks for a replan |
| Executor.Executed | mcp-client-agent/src/main/java/com/example/mcp/client/skill/SkillExecutor.java:197-209 | executing a step keeps the plans, the replan count and the cursor, and on success completes exactly the step under the cursor, so the completed steps stay the current plan's prefix |
| Executor.ExecuteRule | mcp-client-agent/src/main/java/com/example/mcp/client/skill/SkillExecutor.java:197-209 | actionStart for the step under the cursor comes first; a failed tool fetch ends the run with its message after that event alone; otherwise the step's outcome (StepOutcome of the executor's answer) is appended to the completed steps and announced by actionDone |
| Executor.ExecutedShape | mcp-client-agent/src/main/java/com/example/mcp/client/skill/SkillExecutor.java:197-209 | a step emits its running action, then, unless the tools fail, its finished action, and nothing else |
| Executor.ObservedRound | mcp-client-agent/src/main/java/com/example/mcp/client/skill/SkillExecutor.java:212-237 | an observation either spends exactly one replan round, or keeps the plans and the replan count and moves the cursor on by one; the run invariant holds after it |
| Executor.ReplanRule | mcp-client-agent/src/main/java/com/example/mcp/client/skill/SkillExecutor.java:214-237 | a new plan is made iff the observation asks for one, fewer than three replans were made and the planner answers; the run fails with the planner's message iff it was asked and failed; otherwise the observation is emitted and the cursor moves on by one, or the observation and the replan are emitted and the new plan starts at its first step with nothing completed |
| Executor.ObserveAdvances | mcp-client-agent/src/main/java/com/example/mcp/client/skill/SkillExecutor.java:232-236 | given a verdict that asks for no replan (or comes when no rounds remain), the observation is emitted and only the cursor moves on |
| Executor.ObserveReplanFails | mcp-client-agent/src/main/java/com/example/mcp/client/skill/SkillExecutor.java:220-223 | given a verdict that asks for a replan while rounds remain, a failing planner makes the round emit nothing and end with its message |
| Executor.ObserveReplans | mcp-client-agent/src/main/java/com/example/mcp/client/skill/SkillExecutor.java:220-231 | given a verdict that asks for a replan while rounds remain, a successful planner makes the round emit the observation and the new plan, append the plan, count the round, and restart at step 0 with nothing completed |
| Executor.ObservedShape | mcp-client-agent/src/main/java/com/example/mcp/client/skill/SkillExecutor.java:217-231 | an observation emits nothing when its replan fails, else the observe event, followed by the replan event exactly when a replan round was spent |
| Executor.Round | mcp-client-agent/src/main/java/com/example/mcp/client/skill/SkillExecutor.java:197-239 | one round keeps the run invariant and either spends a replan round or moves the cursor on by one within the same plan |
| Executor.Rounds | mcp-client-agent/src/main/java/com/example/mcp/client/skill/SkillExecutor.java:184-240 | the loop ends (measure: replans left, then steps left) and, unless a round fails, stops with the cursor at the end of the current plan and the run invariant kept |
| Executor.RoundsUnfold | mcp-client-agent/src/main/java/com/example/mcp/client/skill/SkillExecutor.java:188-190 | past the end of the plan nothing more is emitted; otherwise one round, then the rest of the loop unless the round failed |
| Executor.ExecutedOrdered | mcp-client-agent/src/main/java/com/example/mcp/client/skill/SkillExecutor.java:197-209 | executing a step keeps the stream ordered, adds no replan, and on success leaves the step's finished action last |
| Executor.ObservedOrdered | mcp-client-agent/src/main/java/com/example/mcp/client/skill/SkillExecutor.java:212-237 | the observation comes right after its step's finished action, and one replan event is added exactly when a replan round is spent |
| Executor.RoundOrdered | mcp-client-agent/src/main/java/com/example/mcp/client/skill/SkillExecutor.java:197-239 | a round keeps the stream ordered and adds a replan event exactly when it spends a replan round |
| Executor.RoundsOrdered | mcp-client-agent/src/main/java/com/example/mcp/client/skill/SkillExecutor.java:184-240 | the whole loop keeps the stream ordered and emits one replan event per replan round, so never more than three |
| Executor.AfterPlanFinished | mcp-client-agent/src/main/java/com/example/mcp/client/skill/SkillExecutor.java:148-173 | after the first plan the stream ends with exactly one done right after a result or an error, keeps its head, and holds at most three replans |
| Executor.RunFinished | mcp-client-agent/src/main/java/com/example/mcp/client/skill/SkillExecutor.java:127-174 | every run opens with the planning note and ends with exactly one done right after a result or an error; at most three replans; each observation directly after its step; a failed first plan gives planning, error, done, and a good one is announced second |
| Executor.ExecuteStep | mcp-client-agent/src/main/java/com/example/mcp/client/skill/SkillExecutor.java:197-209 | emits, records and returns exactly what Executed gives for the context's state, so the rule of ExecuteRule holds of the context |
| Executor.ObserveStep | mcp-client-agent/src/main/java/com/example/mcp/client/skill/SkillExecutor.java:212-238 | emits, returns and leaves the context exactly as ObservedRound gives for its state, so ReplanRule holds of the context |
| Executor.Replan | mcp-client-agent/src/main/java/com/example/mcp/client/skill/SkillExecutor.java:220-228 | the replan count grows by one before the planner is asked again with the completed steps; on success the new plan is appended and becomes current at step 0 with nothing completed; on failure the planner's message is returned |
| Executor.Proceed | mcp-client-agent/src/main/java/com/example/mcp/client/skill/SkillExecutor.java:233 | the cursor moves on by one and the run invariant holds |
| Executor.RunStep | mcp-client-agent/src/main/java/com/example/mcp/client/skill/SkillExecutor.java:197-239 | emits, returns and leaves the context exactly as Round gives for its state |
| Executor.Synthesize | mcp-client-agent/src/main/java/com/example/mcp/client/skill/SkillExecutor.java:157-167 | appends the final-phase note, then the finalizer's answer over all completed steps with freshly bound tools as result and done (a result without content when the answer is null, as `generateFinalAnswer` at line 386 may return), or the error and done |
| Executor.ExecuteLoop | mcp-client-agent/src/main/java/com/example/mcp/client/skill/SkillExecutor.java:184-240 | emits, returns and leaves the context exactly as Rounds gives from the context's initial state |
| Executor.RunPlan | mcp-client-agent/src/main/java/com/example/mcp/client/skill/SkillExecutor.java:148-173 | the stream after the first plan is exactly AfterPlan: the loop's events, then the error, or the final phase |
| Executor.PlanAndExecute | mcp-client-agent/src/main/java/com/example/mcp/client/skill/SkillExecutor.java:127-174 | the stream is exactly Run of the oracles, so (by RunFinished) it opens with the planning note, ends with exactly one done after a result or an error, and holds at most three replans |
| Executor.PlanHead | mcp-client-agent/src/main/java/com/example/mcp/client/skill/SkillExecutor.java:138-146 | planning note then plan is a well-ordered start with no replan |
| Scheduler.ReplacedReadsBack | mcp-client-agent/src/main/java/com/example/mcp/client/skill/MultiIntentExecutor.java:54-60 | after a save the conversation reads back exactly the saved intents, other conversations are untouched, and a later save replaces an earlier one |
| Scheduler.PendingStore.SavePending | mcp-client-agent/src/main/java/com/example/mcp/client/skill/MultiIntentExecutor.java:54-60 | the conversation's whole pending list is replaced by the given intents (never merged) |
| Scheduler.PendingStore.PopPending | mcp-client-agent/src/main/java/com/example/mcp/client/skill/MultiIntentExecutor.java:41-51 | returns the stored intents in order and deletes them; with none stored it returns null and changes nothing |
| Scheduler.MergeIntents | mcp-client-agent/src/main/java/com/example/mcp/client/skill/MultiIntentExecutor.java:64-73 | null pending gives the new intents unchanged; otherwise the result is the specified merge |
| Scheduler.MergeKeepsNew | mcp-client-agent/src/main/java/com/example/mcp/client/skill/MultiIntentExecutor.java:65 | the new intents, duplicates included, are a prefix of the merge |
| Scheduler.MergeAddsFresh | mcp-client-agent/src/main/java/com/example/mcp/client/skill/MultiIntentExecutor.java:66-70 | every entry after the new intents comes from pending and targets a skill no earlier entry targets |
| Scheduler.MergeCovers | mcp-client-agent/src/main/java/com/example/mcp/client/skill/MultiIntentExecutor.java:66-70 | every pending intent's skill is targeted by some entry of the merge |
| Scheduler.MergeExample | mcp-client-agent/src/main/java/com/example/mcp/client/skill/MultiIntentExecutor.java:64-73 | new [(A,x)] merged with pending [(A,y),(B,z)] gives [(A,x),(B,z)] |
| Scheduler.CollectedClose | mcp-client-agent/src/main/java/com/example/mcp/client/skill/MultiIntentExecutor.java:112-116 | a skill run that ends with a null answer adds no collected result; one that ends with an answer adds that answer, tagged with its sub-task |
| Scheduler.CollectedTagged | mcp-client-agent/src/main/java/com/example/mcp/client/skill/MultiIntentExecutor.java:114-116 | every collected result is `【subTask】\n` followed by the content of a result event |
| Scheduler.ConsumeStream | mcp-client-agent/src/main/java/com/example/mcp/client/skill/MultiIntentExecutor.java:112-117 | the scan collects exactly the tagged results and reports an action iff the stream holds an action event |
| Scheduler.Step | mcp-client-agent/src/main/java/com/example/mcp/client/skill/MultiIntentExecutor.java:102-125 | one intent only appends events and results; once the ask-user flag is set nothing more is appended; the deferral point is set once, at a resolved intent after the flag |
| Scheduler.Served | mcp-client-agent/src/main/java/com/example/mcp/client/skill/MultiIntentExecutor.java:87-126 | the batch opens with the `识别到 N 个任务` note, and a deferral lies before the intents served so far and only after an ask-user |
| Scheduler.Conclude | mcp-client-agent/src/main/java/com/example/mcp/client/skill/MultiIntentExecutor.java:129-150 | a summary is added iff no skill asked the user and more than one result was collected; it is the planning note then a result carrying the summarizer's answer (no content when the answer is null, lines 146-147) and done, or the summarizer's error |
| Scheduler.ServeIntent | mcp-client-agent/src/main/java/com/example/mcp/client/skill/MultiIntentExecutor.java:90-125 | serving intent i gives the specified step; the store changes only when this intent defers, to the intents from i on |
| Scheduler.Execute | mcp-client-agent/src/main/java/com/example/mcp/client/skill/MultiIntentExecutor.java:78-150 | the events are those of the batch after all intents plus the summary rule of Conclude, where a null summary gives a result without content; the pending store changes only when intents were deferred, and then holds the intents from the first deferred one on |
| Scheduler.ServedExtends | mcp-client-agent/src/main/java/com/example/mcp/client/skill/MultiIntentExecutor.java:102-125 | serving more intents only appends events and results, and the ask-user flag once set stays set |
| Scheduler.StopsAfterAskUser | mcp-client-agent/src/main/java/com/example/mcp/client/skill/MultiIntentExecutor.java:103-106 | after a skill asked the user, no later intent adds an event or a result |
| Scheduler.DeferredFromFirst | mcp-client-agent/src/main/java/com/example/mcp/client/skill/MultiIntentExecutor.java:103-105 | the deferral starts at the first resolvable intent met after the ask-user flag was set |
| Scheduler.LastResolvable | mcp-client-agent/src/main/java/com/example/mcp/client/skill/MultiIntentExecutor.java:94-98 | the last index in a range whose skill resolves, with no resolvable one after it |
| Scheduler.SaveRemainingAsWritten | mcp-client-agent/src/main/java/com/example/mcp/client/skill/MultiIntentExecutor.java:102-105 | as written, every resolvable skipped intent saves the rest from its own position, so the store ends with the list of the last one |
| Scheduler.OverwriteLosesIntent | mcp-client-agent/src/main/java/com/example/mcp/client/skill/MultiIntentExecutor.java:103-105 | for intents a, b, c with a asking the user, the store as written ends as [c] |
| Scheduler.FirstDeferralKeepsRest | mcp-client-agent/src/main/java/com/example/mcp/client/skill/MultiIntentExecutor.java:103-105 | for the same intents the corrected schedule defers from b and stores [b, c] |
| Router.SkillMapLookup | mcp-client-agent/src/main/java/com/example/mcp/client/skill/SkillRouter.java:44-46 | two loaded skills with one name make map construction fail; otherwise every skill is found under its own name |
| Router.SkillInfoLookup | mcp-client-agent/src/main/java/com/example/mcp/client/skill/SkillRouter.java:203-206 | the info map has exactly the skill map's keys and gives each skill's description |
| Router.Shown | mcp-client-agent/src/main/java/com/example/mcp/client/skill/SkillRouter.java:127-131 | a null text prints as `null`; only assistant texts over 150 chars are cut to their first 150 chars plus `...` |
| Router.LinesAppend | mcp-client-agent/src/main/java/com/example/mcp/client/skill/SkillRouter.java:124-133 | the history lines of two runs of messages are those of the first then those of the second |
| Router.Window | mcp-client-agent/src/main/java/com/example/mcp/client/skill/SkillRouter.java:123-124 | the window is the last min(16, n) messages, oldest first |
| Router.FormatLine | mcp-client-agent/src/main/java/com/example/mcp/client/skill/SkillRouter.java:125-132 | one history line is the role, `: `, the shown text and a newline |
| Router.BuildHistoryContext | mcp-client-agent/src/main/java/com/example/mcp/client/skill/SkillRouter.java:119-136 | the loop builds the header, the window's lines in order and the footer, and nothing for a null or empty history |
| Router.FirstContained | mcp-client-agent/src/main/java/com/example/mcp/client/skill/SkillRouter.java:150-154 | the first key in map order that the answer contains, with no earlier key contained; none when no key is |
| Router.Identify | mcp-client-agent/src/main/java/com/example/mcp/client/skill/SkillRouter.java:138-161 | the name is always a key or `chitchat`; a trimmed, lower-cased answer equal to a key is returned as is; otherwise the first key the answer contains is returned; `chitchat` when no key is contained or the call fails |
| Router.IdentifySkill | mcp-client-agent/src/main/java/com/example/mcp/client/skill/SkillRouter.java:116-162 | the method returns the specified identification of the router LLM's answer to the message plus its history context |
| Router.DispatchFailsOnlyWithoutChitchat | mcp-client-agent/src/main/java/com/example/mcp/client/skill/SkillRouter.java:75-78 | dispatch finds no skill iff identification gave `chitchat` and there is no chitchat skill |
| Router.Route | mcp-client-agent/src/main/java/com/example/mcp/client/skill/SkillRouter.java:67-83 | with no skill the response is (`router`, apology) and nothing runs; otherwise the dispatched skill's response |
| Router.StreamRoute | mcp-client-agent/src/main/java/com/example/mcp/client/skill/SkillRouter.java:88-114 | the stream starts with the understanding note; with no skill it is exactly that, error and done; otherwise the second note and the skill's stream |
| Loader.Unquote | mcp-client-agent/src/main/java/com/example/mcp/client/skill/SkillLoader.java:133-135 | one enclosing pair of double quotes is stripped; a lone `"` is the only value that throws |
| Loader.ExtractYamlValue | mcp-client-agent/src/main/java/com/example/mcp/client/skill/SkillLoader.java:127-140 | the line scan with early return gives the specified value: the first matching line decides, null when none matches |
| Loader.ValueInFirstMatch | mcp-client-agent/src/main/java/com/example/mcp/client/skill/SkillLoader.java:128-137 | the first line whose trimmed text starts with `key:` decides the value, whatever later lines hold |
| Loader.ValueInNoMatch | mcp-client-agent/src/main/java/com/example/mcp/client/skill/SkillLoader.java:138-139 | with no matching line the value is null |
| Loader.YamlValueFirstLine | mcp-client-agent/src/main/java/com/example/mcp/client/skill/SkillLoader.java:127-137 | a matching first line decides the value of the whole frontmatter |
| Loader.NonBlank | mcp-client-agent/src/main/java/com/example/mcp/client/skill/SkillLoader.java:151 | the kept pieces are non-blank, come from the input and are no more than it |
| Loader.ToolTokens | mcp-client-agent/src/main/java/com/example/mcp/client/skill/SkillLoader.java:150-152 | every token is non-blank and contains no whitespace or comma |
| Loader.ToolTokensJoin | mcp-client-agent/src/main/java/com/example/mcp/client/skill/SkillLoader.java:150-152 | writing valid tool names space-separated and splitting them again gives the same names in order |
| Loader.AllowedTools | mcp-client-agent/src/main/java/com/example/mcp/client/skill/SkillLoader.java:145-153 | fails exactly when reading the field throws; an absent or blank value gives no tools; otherwise the value split on runs of whitespace and commas, each token a valid tool name |
| Loader.FromFrontmatter | mcp-client-agent/src/main/java/com/example/mcp/client/skill/SkillLoader.java:86-97 | fails iff reading name, description or tools fails; a skill is made iff the name is present and non-blank, with that name, the location, the allowed tools, the description as read, and `""` for a missing description |
| Loader.ParseMetadata | mcp-client-agent/src/main/java/com/example/mcp/client/skill/SkillLoader.java:74-98 | null without a leading `---` or without a closing `---` at index 3 or later; otherwise the skill of the trimmed text between |
| Loader.LoadPrompt | mcp-client-agent/src/main/java/com/example/mcp/client/skill/SkillLoader.java:104-125 | the prompt is trimmed, and empty when the file cannot be read or the closing `---` is missing |
| Loader.FenceAfter | mcp-client-agent/src/main/java/com/example/mcp/client/skill/SkillLoader.java:80-86 | in `---` + frontmatter + `---` + body, the closing fence is found right after the frontmatter |
| Loader.SkillFileSections | mcp-client-agent/src/main/java/com/example/mcp/client/skill/SkillLoader.java:74-125 | for such a file the metadata comes from the trimmed frontmatter and the prompt is the trimmed body |
| Loader.KeptAppend | mcp-client-agent/src/main/java/com/example/mcp/client/skill/SkillLoader.java:44-61 | skills kept from two runs of files are those of the first then those of the second |
| Loader.KeptFrom | mcp-client-agent/src/main/java/com/example/mcp/client/skill/SkillLoader.java:44-61 | every kept skill is the successful parse of some file |
| Loader.LoadedSkillsNamed | mcp-client-agent/src/main/java/com/example/mcp/client/skill/SkillLoader.java:44-61 | every loaded skill has a non-blank name and the location of a scanned file |
| Loader.LoadFiles | mcp-client-agent/src/main/java/com/example/mcp/client/skill/SkillLoader.java:44-61 | the scan keeps the successfully parsed skills in scan order, skipping nulls and failures |
| Loader.LoadAllSkills | mcp-client-agent/src/main/java/com/example/mcp/client/skill/SkillLoader.java:38-68 | a failed directory scan loads nothing; otherwise the kept skills of the scanned files |
| Connections.Connect | mcp-client-agent/src/main/java/com/example/mcp/client/config/McpConnectionManager.java:56-70 | one connection attempt; the name is connected afterwards iff it was or initialize succeeded, and no other name changes |
| Connections.Disconnect | mcp-client-agent/src/main/java/com/example/mcp/client/config/McpConnectionManager.java:73-82 | the name is gone afterwards, nothing else changes, and an absent name is a no-op |
| Connections.Reconnected | mcp-client-agent/src/main/java/com/example/mcp/client/config/McpConnectionManager.java:87-99 | an unknown name changes nothing and fails; otherwise one attempt is made and success is exactly `name is connected afterwards` |
| Connections.ConnectEachOutcome | mcp-client-agent/src/main/java/com/example/mcp/client/config/McpConnectionManager.java:46-49 | after start-up each configured server is connected iff its own attempt initialized, and no other name is connected |
| Connections.ReconnectEachOutcome | mcp-client-agent/src/main/java/com/example/mcp/client/config/McpConnectionManager.java:104-106 | reconnectAll reconnects each server independently: each is connected iff its own attempt succeeded; unconfigured names keep their state |
| Connections.FetchOf | mcp-client-agent/src/main/java/com/example/mcp/client/config/McpConnectionManager.java:148-152 | the fetch is reported missing (null in the source) iff the server has no client |
| Connections.ServerTools | mcp-client-agent/src/main/java/com/example/mcp/client/config/McpConnectionManager.java:115-139 | a listing, even empty, is used as is; otherwise one reconnect and at most one retry, and a server that still fails adds nothing |
| Connections.GatherKeepsEarlier | mcp-client-agent/src/main/java/com/example/mcp/client/config/McpConnectionManager.java:113-141 | tools of earlier servers come first and are kept as more servers are gathered |
| Connections.GatherHealthy | mcp-client-agent/src/main/java/com/example/mcp/client/config/McpConnectionManager.java:115-122 | when every server answers its first request nothing is reconnected and each server's tools are appended in order |
| Connections.ConnectionManager.constructor | mcp-client-agent/src/main/java/com/example/mcp/client/config/McpConnectionManager.java:37-43 | a manager starts with its configuration and no clients |
| Connections.ConnectionManager.DoConnect | mcp-client-agent/src/main/java/com/example/mcp/client/config/McpConnectionManager.java:56-70 | the clients map changes as the connect transition says |
| Connections.ConnectionManager.DoDisconnect | mcp-client-agent/src/main/java/com/example/mcp/client/config/McpConnectionManager.java:73-82 | the clients map changes as the disconnect transition says |
| Connections.ConnectionManager.Init | mcp-client-agent/src/main/java/com/example/mcp/client/config/McpConnectionManager.java:46-49 | every configured server is connected in iteration order |
| Connections.ConnectionManager.Destroy | mcp-client-agent/src/main/java/com/example/mcp/client/config/McpConnectionManager.java:51-54 | afterwards no client is left and no connection attempt was made |
| Connections.ConnectionManager.Reconnect | mcp-client-agent/src/main/java/com/example/mcp/client/config/McpConnectionManager.java:87-99 | follows the reconnect transition and returns true iff the name is configured and connected afterwards |
| Connections.ConnectionManager.ReconnectAll | mcp-client-agent/src/main/java/com/example/mcp/client/config/McpConnectionManager.java:104-106 | every configured server is reconnected in iteration order |
| Connections.ConnectionManager.FetchFrom | mcp-client-agent/src/main/java/com/example/mcp/client/config/McpConnectionManager.java:148-160 | asks the server's current client, or reports a missing client |
| Connections.ConnectionManager.ServerTurn | mcp-client-agent/src/main/java/com/example/mcp/client/config/McpConnectionManager.java:115-139 | one server's turn follows the retry rule of the aggregate |
| Connections.ConnectionManager.GetToolCallbacks | mcp-client-agent/src/main/java/com/example/mcp/client/config/McpConnectionManager.java:111-146 | the result is the servers' tools concatenated in iteration order, and an error iff that aggregate is empty |
| Orders.Translate | mcp-server/src/main/java/com/example/mcp/server/tool/OrderTools.java:210-227 | the label of the first table entry with the code, or the code unchanged when no entry has it |
| Orders.TranslateOrderStatus | mcp-server/src/main/java/com/example/mcp/server/tool/OrderTools.java:210-218 | PENDING, SHIPPED, DELIVERED and CANCELLED map to their labels; any other code is returned unchanged |
| Orders.TranslateRefundStatus | mcp-server/src/main/java/com/example/mcp/server/tool/OrderTools.java:220-227 | PENDING, APPROVED and REJECTED map to their labels; any other code is returned unchanged |
| Orders.OrderLabelsDistinct | mcp-server/src/main/java/com/example/mcp/server/tool/OrderTools.java:210-218 | two different known order codes get different labels |
| Orders.FirstCarrier | mcp-server/src/main/java/com/example/mcp/server/tool/OrderTools.java:229-235 | the carrier of the first prefix the number starts with, or `快递公司` when none matches |
| Orders.CarrierPrefixesExclusive | mcp-server/src/main/java/com/example/mcp/server/tool/OrderTools.java:229-233 | no tracking number starts with two of the carrier prefixes, so the order of the tests does not matter |
| Orders.GetCarrier | mcp-server/src/main/java/com/example/mcp/server/tool/OrderTools.java:229-235 | a number starting with SF, YT, ZT or YD gets that carrier; any other gets `快递公司` |
| Orders.FirstRefund | mcp-server/src/main/java/com/example/mcp/server/tool/OrderTools.java:124-127 | the first refund row of the order, with none before it; none iff no row has the order |
| Orders.Refunded | mcp-server/src/main/java/com/example/mcp/server/tool/OrderTools.java:101-155 | a blank order number or reason, an unknown or cancelled order, or an existing refund each get their own reply (the prompt for the missing field, not found, already cancelled, the existing refund's details) and change no table; otherwise exactly one PENDING refund for the order total is added, the order becomes CANCELLED, and the reply is the submission notice with refund number, order number, amount and reason |
| Orders.RefundOnce | mcp-server/src/main/java/com/example/mcp/server/tool/OrderTools.java:116-142 | a second request for an order just refunded changes nothing |
| Orders.RefundKeepsOnePerOrder | mcp-server/src/main/java/com/example/mcp/server/tool/OrderTools.java:124-138 | applying a refund keeps at most one refund row per order |
| Orders.OrderStore.FindRefund | mcp-server/src/main/java/com/example/mcp/server/tool/OrderTools.java:124-127 | the lookup loop finds the order's first refund row |
| Orders.OrderStore.ApplyRefund | mcp-server/src/main/java/com/example/mcp/server/tool/OrderTools.java:101-155 | the reply and the new tables are those of the refund transition |
| Orders.QueryOf | mcp-server/src/main/java/com/example/mcp/server/tool/OrderTools.java:45-70 | a non-blank order number wins, else a non-blank user name, else no lookup; both are trimmed |
| Orders.OrderBlocksAppend | mcp-server/src/main/java/com/example/mcp/server/tool/OrderTools.java:78-90 | the text of two runs of rows is the text of the first then of the second |
| Orders.OrderReply | mcp-server/src/main/java/com/example/mcp/server/tool/OrderTools.java:35-96 | with neither argument the prompt; a lookup without rows gives the not-found message |
| Orders.AskQueryWithoutLookup | mcp-server/src/main/java/com/example/mcp/server/tool/OrderTools.java:68-70 | without order number and user name the reply is the prompt, whatever the tables hold |
| Orders.OrderNoWins | mcp-server/src/main/java/com/example/mcp/server/tool/OrderTools.java:45-56 | with an order number the reply does not depend on the user name |
| Orders.QueryOrder | mcp-server/src/main/java/com/example/mcp/server/tool/OrderTools.java:35-96 | the row loop builds the specified reply |
| Orders.FormatOrders | mcp-server/src/main/java/com/example/mcp/server/tool/OrderTools.java:75-90 | one block per row, appended in result order |
| Orders.UnshippedNote | mcp-server/src/main/java/com/example/mcp/server/tool/OrderTools.java:185-191 | PENDING gets the awaiting-shipment note, CANCELLED the cancelled note, any other status nothing |
| Orders.TrackReply | mcp-server/src/main/java/com/example/mcp/server/tool/OrderTools.java:160-206 | blank number: prompt; unknown order: not found; otherwise the head, then the status note when there is no tracking number, else the carrier line first |
| Database.KeywordTest | mcp-server/src/main/java/com/example/mcp/server/tool/DatabaseTools.java:44-45 | the six `contains` tests hit iff some keyword occurs somewhere in the text |
| Database.Guard | mcp-server/src/main/java/com/example/mcp/server/tool/DatabaseTools.java:36-47 | null or blank SQL, then non-SELECT, then a keyword anywhere are rejected in that order; only SQL passing all three goes on |
| Database.UpdateInsideRejected | mcp-server/src/main/java/com/example/mcp/server/tool/DatabaseTools.java:44-46 | a trimmed SELECT statement with `UPDATE` anywhere in its upper-cased text is rejected as dangerous |
| Database.UpdatedAtRejected | mcp-server/src/main/java/com/example/mcp/server/tool/DatabaseTools.java:44-46 | `select updated_at` is rejected as dangerous, although it only names a column |
| Database.Cell | mcp-server/src/main/java/com/example/mcp/server/tool/DatabaseTools.java:69-70 | a null value or a missing column prints `NULL`, anything else its value |
| Database.Separator | mcp-server/src/main/java/com/example/mcp/server/tool/DatabaseTools.java:63 | the separator is one `---|` per column |
| Database.QueryReply | mcp-server/src/main/java/com/example/mcp/server/tool/DatabaseTools.java:31-79 | a rejected statement gives the guard's message; an empty result gives the no-data message echoing the SQL |
| Database.RejectedNeverRuns | mcp-server/src/main/java/com/example/mcp/server/tool/DatabaseTools.java:36-50 | a rejected statement's reply does not depend on the database |
| Database.AppendCells | mcp-server/src/main/java/com/example/mcp/server/tool/DatabaseTools.java:60-61 | the loop writes each text followed by ` | `, in order |
| Database.FormatRow | mcp-server/src/main/java/com/example/mcp/server/tool/DatabaseTools.java:66-73 | a row line is `| `, its cells under the first row's columns, and a newline |
| Database.FormatTable | mcp-server/src/main/java/com/example/mcp/server/tool/DatabaseTools.java:56-74 | the nested loops build the specified table: count, header of the first row's columns, separator, one line per row |
| Database.QueryDatabase | mcp-server/src/main/java/com/example/mcp/server/tool/DatabaseTools.java:31-79 | the method gives the specified reply |
| Weather.ValueStart | mcp-weather-server/src/main/java/com/example/mcp/weather/tool/WeatherTools.java:216 | the first index from the start that holds no space or quote, or the end |
| Weather.ValueEnd | mcp-weather-server/src/main/java/com/example/mcp/weather/tool/WeatherTools.java:218 | the first index from the start that holds a quote, comma or closing brace, or the end |
| Weather.ColonAfter | mcp-weather-server/src/main/java/com/example/mcp/weather/tool/WeatherTools.java:210-214 | none iff the quoted key or a later `:` is missing; otherwise a `:` at or after the key's end |
| Weather.ValueAfter | mcp-weather-server/src/main/java/com/example/mcp/weather/tool/WeatherTools.java:215-219 | the value is trimmed and contains no quote, comma or closing brace |
| Weather.JsonValue | mcp-weather-server/src/main/java/com/example/mcp/weather/tool/WeatherTools.java:209-220 | null iff the quoted key or a following colon is missing; otherwise a trimmed value without quote, comma or closing brace |
| Weather.SkipToValue | mcp-weather-server/src/main/java/com/example/mcp/weather/tool/WeatherTools.java:215-216 | the first loop stops at the specified start index |
| Weather.ScanValue | mcp-weather-server/src/main/java/com/example/mcp/weather/tool/WeatherTools.java:217-218 | the second loop stops at the specified end index |
| Weather.ExtractJsonValue | mcp-weather-server/src/main/java/com/example/mcp/weather/tool/WeatherTools.java:209-220 | the two index loops give the specified value, and every index stays within the text |
| Weather.MemberValue | mcp-weather-server/src/main/java/com/example/mcp/weather/tool/WeatherTools.java:209-220 | for `{"key": "v"…` with v free of stop chars and trimmed, the value read back is v |
| Weather.ArrayValue | mcp-weather-server/src/main/java/com/example/mcp/weather/tool/WeatherTools.java:222-229 | null when the array key is absent; otherwise the value extractJsonValue reads in the text from the key to at most 200 chars later; a value read is trimmed and free of stop chars |
| Weather.ArrayValueWindow | mcp-weather-server/src/main/java/com/example/mcp/weather/tool/WeatherTools.java:226-228 | text more than 200 chars past the array key has no effect |
| Weather.ArrayValueMissingInWindow | mcp-weather-server/src/main/java/com/example/mcp/weather/tool/WeatherTools.java:226-228 | a value key absent from the 200-char window gives null, even if it occurs later |
| Weather.ScanFinds | mcp-weather-server/src/main/java/com/example/mcp/weather/tool/WeatherTools.java:127-133 | the counting loop stops one past the first `}` that brings the depth back to 0, and finds nothing iff there is none |
| Weather.BlockEnd | mcp-weather-server/src/main/java/com/example/mcp/weather/tool/WeatherTools.java:124-133 | objEnd is one past the first closing brace that balances the block, or objStart when the depth never returns to 0 |
| Weather.MatchBrace | mcp-weather-server/src/main/java/com/example/mcp/weather/tool/WeatherTools.java:124-133 | the counting loop computes the specified block end |
| Weather.DayLabel | mcp-weather-server/src/main/java/com/example/mcp/weather/tool/WeatherTools.java:159 | day 0 is 今天, day 1 明天, later days 后天 |
| Weather.LabelsDistinct | mcp-weather-server/src/main/java/com/example/mcp/weather/tool/WeatherTools.java:159 | the three labels differ |
| Weather.DayDescription | mcp-weather-server/src/main/java/com/example/mcp/weather/tool/WeatherTools.java:144-157 | null without hourly data; otherwise the first weatherDesc value, with the rain chance appended only when present and not `0` |
| Weather.DayText | mcp-weather-server/src/main/java/com/example/mcp/weather/tool/WeatherTools.java:159-169 | a day's text starts with `### ` and its label |
| Weather.DayBlocks | mcp-weather-server/src/main/java/com/example/mcp/weather/tool/WeatherTools.java:118-135 | at most three day blocks, each empty (unclosed) or a balanced `{…}` |
| Weather.RenderThree | mcp-weather-server/src/main/java/com/example/mcp/weather/tool/WeatherTools.java:119-172 | three blocks print as today, tomorrow and the day after, in that order |
| Weather.Forecast | mcp-weather-server/src/main/java/com/example/mcp/weather/tool/WeatherTools.java:101-178 | no `"weather"` key gives the not-found message; no `[` after it the format-error message |
| Weather.AppendDays | mcp-weather-server/src/main/java/com/example/mcp/weather/tool/WeatherTools.java:117-172 | the day loop appends the texts of the specified day blocks, labelled in order |
| Weather.ParseForecast | mcp-weather-server/src/main/java/com/example/mcp/weather/tool/WeatherTools.java:101-178 | the method gives the specified forecast reply |

## Left out
- Case mapping is ASCII-only (`toUpperCase`/`toLowerCase`). String lengths count characters, not UTF-16 units.
- Java `HashMap` iteration order is modelled as the order of an association list with distinct keys. Any fixed order satisfies the lemmas; the actual hash order is not modelled.
- Java `int` overflow of counters and indices is not modelled; counters are `nat`.
- Line endings other than `\n` are not modelled. The trailing empty pieces that `String.split` drops are kept, because they never match a key or a plan step.
- Prompt texts are not modelled, because they are only inputs to oracle calls. This covers `buildRouterPrompt` and the prompts of `generatePlan`, `executeStep`, `observe` and `generateFinalAnswer`.
- `SkillExecutor.execute` (the non-streaming variant, lines 76-115) is not modelled. It is one LLM call over the same resolved tools, with an error string as fallback.
- LLM calls, tool-catalog fetches, MCP `initialize`, the 5-second fetch timeout and JDBC queries are oracle parameters. A timeout is one of the failure outcomes of the fetch oracle.
- Concurrency is not modelled: Reactor scheduling (`subscribeOn`, `Flux.defer`), `synchronized` blocks and `ConcurrentHashMap`.
- Logging is not modelled.
- `SkillEmbeddingIndex` is not part of this model. It is floating-point similarity over an external embedding model.
- `JdbcChatMemoryRepository` is not part of this model; it is a wrapper over JDBC.
- The HTTP/SSE controllers and the Spring configuration classes are not part of this model; they are transport and bean wiring.
- `OrderTools.generateTimeline` is an oracle, because it is date arithmetic. The refund number is a parameter, because it comes from the clock.
- Database exceptions inside the tool methods' `try` blocks are not modelled, except in `queryDatabase`, where the query oracle may fail.
- The wttr.in HTTP fetch and the current-weather formatting of `parseWeatherJson` are not modelled.
- `totalSnow_cm` is read by the forecast code but never printed, so it is not modelled. The `parseForecastJson` catch block is unreachable in the model.
- `switch` statements over status codes and carrier prefixes are modelled as lookup tables in source order.
- Loader.Kept: its own contract states only the length bound. KeptAppend, KeptFrom and LoadedSkillsNamed state the rest.
- Assoc.FromList: the duplicate-key message of `Collectors.toMap` also names the two values it tried to merge. Their `toString` is not modelled, so the model's message ends after the key.
- Connections.FetchOf: the tool-listing oracle is a function of the client, so one client gives the same answer to every `getToolCallbacks` call. A reconnected client is a new value (it carries its attempt number) and may answer differently.
- Connections.Gather: its own contract states only the bound on connection attempts. ServerTools, GatherKeepsEarlier, GatherHealthy and GetToolCallbacks state the tools collected.

## Findings

| source | as written | input that shows it | evidently intended | confidence | as-written member | corrected member |
|---|---|---|---|---|---|---|
| mcp-client-agent/src/main/java/com/example/mcp/client/skill/MultiIntentExecutor.java:102-105 | after a skill asked the user, every later resolvable intent calls `savePending(conversationId, intents.subList(i, n))`, so each call replaces the previous list | intents a, b, c, all resolvable, where a's run emits no action event: b saves [b, c], then c saves [c], and the store ends as [c], so b is lost | save the remainder once, from the first skipped intent: [b, c] | not executed | Scheduler.SaveRemainingAsWritten, Scheduler.OverwriteLosesIntent | Scheduler.Execute, Scheduler.FirstDeferralKeepsRest |

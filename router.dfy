/**
 * The skill router: builds the name-to-skill map, asks the router LLM which
 * skill a message belongs to (with a window of the conversation history),
 * normalizes its answer to a skill key, and dispatches to that skill or to
 * the chitchat fallback.
 */
module Router {
  import opened Base
  import opened Text
  import opened Records
  import Events
  import Assoc

  type Event = Events.PlanActionEvent

  const ChitchatName: string := "chitchat"
  const Apology: string := "抱歉，系统暂时无法处理您的请求。"
  const Understanding: Event := Events.Planning("🤔 正在理解您的问题...")
  const Understood: Event := Events.Planning("💡 已理解，正在规划执行方案...")

  /** How many of the latest history messages the router sees. */
  const HistoryWindow: nat := 16
  /** Assistant texts longer than this are cut to this many chars plus "...". */
  const AssistantExcerpt: nat := 150

  const HistoryHeader: string := "\n\n## 对话历史（从早到晚）\n"
  const HistoryFooter: string := "\n请结合对话历史判断用户当前消息的意图。如果用户在补充上一轮的信息，应该路由到同一个 Skill。"

  // ------------------------------------------------------------------ the skill map

  function SkillName(skill: SkillDefinition): string {
    skill.name
  }

  /** The router's skill map: each loaded skill under its name; two skills with one name abort construction. */
  function BuildSkillMap(skills: seq<SkillDefinition>): Result<Assoc.Entries<SkillDefinition>> {
    Assoc.FromList(Assoc.KeyedBy(skills, SkillName))
  }

  /** Every loaded skill is found under its own name, and a repeated name makes construction fail. */
  lemma SkillMapLookup(skills: seq<SkillDefinition>, i: nat, j: nat)
    requires i < |skills| && j < |skills| && i != j
    ensures skills[i].name == skills[j].name ==> BuildSkillMap(skills).Err?
    ensures BuildSkillMap(skills).Ok? ==> Assoc.Get(BuildSkillMap(skills).value, skills[i].name) == Some(skills[i])
  {
    var pairs := Assoc.KeyedBy(skills, SkillName);
    if skills[i].name == skills[j].name {
      assert pairs[i].0 == pairs[j].0;
    }
    if BuildSkillMap(skills).Ok? {
      Assoc.GetEntry(pairs, i);
    }
  }

  /** The fallback skill: the one named "chitchat", if any. */
  function Fallback(skillMap: Assoc.Entries<SkillDefinition>): Option<SkillDefinition> {
    Assoc.Get(skillMap, ChitchatName)
  }

  /** `getSkillInfo`: each skill name with its description, in map order. */
  function SkillInfo(skillMap: Assoc.Entries<SkillDefinition>): (info: Assoc.Entries<string>)
    ensures |info| == |skillMap|
    ensures forall i :: 0 <= i < |skillMap| ==> info[i] == (skillMap[i].0, skillMap[i].1.description)
  {
    seq(|skillMap|, i requires 0 <= i < |skillMap| => (skillMap[i].0, skillMap[i].1.description))
  }

  /** The info map has the skill map's keys and gives each skill's description. */
  lemma {:induction false} SkillInfoLookup(skillMap: Assoc.Entries<SkillDefinition>, name: string)
    ensures Assoc.Get(SkillInfo(skillMap), name).Some? <==> Assoc.HasKey(skillMap, name)
    ensures Assoc.HasKey(skillMap, name) ==>
              Assoc.Get(SkillInfo(skillMap), name).value == Assoc.Get(skillMap, name).value.description
  {
    if |skillMap| > 0 && skillMap[0].0 != name {
      SkillInfoLookup(skillMap[1..], name);
      assert SkillInfo(skillMap)[1..] == SkillInfo(skillMap[1..]);
    }
  }

  // ------------------------------------------------------------------ history context

  /** Spring AI's message types; the router prints each by its lower-cased name. */
  datatype MessageType = UserMessage | AssistantMessage | SystemMessage | ToolMessage

  function RoleName(t: MessageType): string {
    match t
    case UserMessage => "user"
    case AssistantMessage => "assistant"
    case SystemMessage => "system"
    case ToolMessage => "tool"
  }

  /** A stored conversation message; its text may be null. */
  datatype Message = Message(messageType: MessageType, text: Option<string>)

  /** The text shown for a message: long assistant texts cut short, a null text printed as "null". */
  function Shown(m: Message): (r: string)
    ensures m.text.None? ==> r == "null"
    ensures m.text.Some? && (m.messageType != AssistantMessage || |m.text.value| <= AssistantExcerpt) ==> r == m.text.value
    ensures m.text.Some? && m.messageType == AssistantMessage && |m.text.value| > AssistantExcerpt ==>
              |r| == AssistantExcerpt + 3 && r[..AssistantExcerpt] == m.text.value[..AssistantExcerpt]
  {
    match m.text
    case None => "null"
    case Some(t) => if m.messageType == AssistantMessage then Abbreviate(t, AssistantExcerpt) else t
  }

  function Line(m: Message): string {
    RoleName(m.messageType) + ": " + Shown(m) + "\n"
  }

  /** The lines of the given messages, in order. */
  function Lines(ms: seq<Message>): string {
    if |ms| == 0 then "" else Lines(ms[..|ms| - 1]) + Line(ms[|ms| - 1])
  }

  lemma LinesSnoc(ms: seq<Message>, m: Message)
    ensures Lines(ms + [m]) == Lines(ms) + Line(m)
  {
    assert (ms + [m])[..|ms|] == ms;
  }

  lemma SliceSnoc<T>(s: seq<T>, lo: nat, hi: nat)
    requires lo <= hi < |s|
    ensures s[lo..hi + 1] == s[lo..hi] + [s[hi]]
  {
  }

  /** Lines of two runs of messages are the lines of the first followed by those of the second. */
  lemma {:induction false} LinesAppend(a: seq<Message>, b: seq<Message>)
    ensures Lines(a + b) == Lines(a) + Lines(b)
    decreases |b|
  {
    if |b| == 0 {
      assert a + b == a;
    } else {
      var front := b[..|b| - 1];
      var last := b[|b| - 1];
      assert b == front + [last];
      assert a + b == (a + front) + [last];
      LinesSnoc(a + front, last);
      LinesSnoc(front, last);
      LinesAppend(a, front);
      AppendAssoc(Lines(a), Lines(front), Line(last));
    }
  }

  /** The latest messages, at most HistoryWindow of them, oldest first. */
  function Window(history: seq<Message>): (w: seq<Message>)
    ensures |w| == (if |history| < HistoryWindow then |history| else HistoryWindow)
    ensures w == history[|history| - |w|..]
  {
    if |history| > HistoryWindow then history[|history| - HistoryWindow..] else history
  }

  /** The history section of the router prompt; empty when there is no history. */
  function HistoryContext(history: Option<seq<Message>>): string {
    match history
    case None => ""
    case Some(h) => if |h| == 0 then "" else HistoryHeader + Lines(Window(h)) + HistoryFooter
  }

  /** One history line: the role's name, the text (long assistant texts cut short), a newline. */
  method FormatLine(msg: Message) returns (line: string)
    ensures line == Line(msg)
  {
    var role := RoleName(msg.messageType);
    var text := msg.text;
    if role == "assistant" && text.Some? && |text.value| > AssistantExcerpt {
      text := Some(text.value[..AssistantExcerpt] + "...");
    }
    line := role + ": " + (if text.Some? then text.value else "null") + "\n";
  }

  /** Builds the history section line by line, as `identifySkill` does. */
  method BuildHistoryContext(history: Option<seq<Message>>) returns (context: string)
    ensures context == HistoryContext(history)
  {
    context := "";
    if history.Some? && |history.value| > 0 {
      var h := history.value;
      var sb := HistoryHeader;
      var start := if |h| - HistoryWindow > 0 then |h| - HistoryWindow else 0;
      for i := start to |h|
        invariant sb == HistoryHeader + Lines(h[start..i])
      {
        var line := FormatLine(h[i]);
        SliceSnoc(h, start, i);
        LinesSnoc(h[start..i], h[i]);
        AppendAssoc(HistoryHeader, Lines(h[start..i]), line);
        sb := sb + line;
      }
      assert h[start..|h|] == Window(h);
      context := sb + HistoryFooter;
    }
  }

  // ------------------------------------------------------------------ answer normalization

  /** The router's answer, trimmed and lower-cased. */
  function Normalize(answer: string): string {
    ToLower(Trim(answer))
  }

  /** The index of the first key, from `from` on, that occurs in `result`. */
  function FirstContained(result: string, keys: seq<string>, from: nat): (r: Option<nat>)
    requires from <= |keys|
    ensures r.Some? ==> from <= r.value < |keys| && Contains(result, keys[r.value])
    ensures r.Some? ==> forall j :: from <= j < r.value ==> !Contains(result, keys[j])
    ensures r.None? ==> forall j :: from <= j < |keys| ==> !Contains(result, keys[j])
    decreases |keys| - from
  {
    if from == |keys| then None
    else if Contains(result, keys[from]) then Some(from)
    else FirstContained(result, keys, from + 1)
  }

  /**
   * The skill name `identifySkill` settles on for an LLM answer: the
   * normalized answer itself when it is a key, else the first key (in map
   * order) it contains, else "chitchat"; any failure of the call also gives
   * "chitchat".
   */
  function Identify(answer: Result<string>, keys: seq<string>): (name: string)
    ensures name == ChitchatName || name in keys
    ensures answer.Ok? && Normalize(answer.value) in keys ==> name == Normalize(answer.value)
    ensures answer.Ok? && Normalize(answer.value) !in keys && name != ChitchatName ==>
              exists i :: 0 <= i < |keys| && keys[i] == name && Contains(Normalize(answer.value), name)
                          && forall j :: 0 <= j < i ==> !Contains(Normalize(answer.value), keys[j])
    ensures answer.Ok? && Normalize(answer.value) !in keys ==>
              forall i :: (0 <= i < |keys| && Contains(Normalize(answer.value), keys[i])
                           && forall j :: 0 <= j < i ==> !Contains(Normalize(answer.value), keys[j])) ==> name == keys[i]
    ensures (answer.Ok? && Normalize(answer.value) !in keys
             && forall k :: k in keys ==> !Contains(Normalize(answer.value), k)) ==> name == ChitchatName
    ensures answer.Err? ==> name == ChitchatName
  {
    match answer
    case Err(_) => ChitchatName
    case Ok(text) =>
      var result := Normalize(text);
      if result in keys then result
      else
        match FirstContained(result, keys, 0)
        case Some(i) => keys[i]
        case None => ChitchatName
  }

  /**
   * `identifySkill`: builds the prompt from the message and its history
   * window, asks the router LLM (an oracle that may fail) and maps the
   * answer to a skill name.
   */
  method IdentifySkill(history: Option<seq<Message>>, userMessage: string, keys: seq<string>,
                       router: string -> Result<string>)
    returns (name: string)
    ensures name == Identify(router(userMessage + HistoryContext(history)), keys)
  {
    var context := BuildHistoryContext(history);
    var answer := router(userMessage + context);
    if answer.Err? {
      return ChitchatName;
    }
    var result := Normalize(answer.value);
    if result in keys {
      return result;
    }
    for k := 0 to |keys|
      invariant FirstContained(result, keys, 0) == FirstContained(result, keys, k)
    {
      if Contains(result, keys[k]) {
        return keys[k];
      }
    }
    return ChitchatName;
  }

  // ------------------------------------------------------------------ dispatch

  /** The skill a name dispatches to: its own, else the chitchat fallback, else none. */
  function Dispatch(skillMap: Assoc.Entries<SkillDefinition>, name: string): Option<SkillDefinition> {
    Assoc.GetOrDefault(skillMap, name, Fallback(skillMap))
  }

  /**
   * Whatever the router answers, a skill is found unless the answer led to
   * "chitchat" and no chitchat skill exists; an unknown name never reaches
   * dispatch, since identification only yields keys and "chitchat".
   */
  lemma DispatchFailsOnlyWithoutChitchat(skillMap: Assoc.Entries<SkillDefinition>, answer: Result<string>)
    ensures var name := Identify(answer, Assoc.Keys(skillMap));
      Dispatch(skillMap, name).None? <==> name == ChitchatName && !Assoc.HasKey(skillMap, ChitchatName)
  {
  }

  /** `route`: identify, dispatch, and run the skill (an oracle); with no skill at all, a fixed apology from "router". */
  method Route(history: Option<seq<Message>>, userMessage: string, skillMap: Assoc.Entries<SkillDefinition>,
               router: string -> Result<string>, execute: SkillDefinition -> SkillResponse)
    returns (response: SkillResponse)
    ensures var name := Identify(router(userMessage + HistoryContext(history)), Assoc.Keys(skillMap));
      match Dispatch(skillMap, name)
      case None => response == SkillResponse("router", Apology)
      case Some(skill) => response == execute(skill)
  {
    var name := IdentifySkill(history, userMessage, Assoc.Keys(skillMap), router);
    var skill := Assoc.GetOrDefault(skillMap, name, Fallback(skillMap));
    if skill.None? {
      return SkillResponse("router", Apology);
    }
    response := execute(skill.value);
  }

  /**
   * `streamRoute`: a planning event first; then, when no skill resolves,
   * exactly an error and done; otherwise a second planning event and the
   * skill's plan-and-execute stream (an oracle).
   */
  method StreamRoute(history: Option<seq<Message>>, userMessage: string, skillMap: Assoc.Entries<SkillDefinition>,
                     router: string -> Result<string>, planAndExecute: SkillDefinition -> seq<Event>)
    returns (events: seq<Event>)
    ensures |events| >= 2 && events[0] == Understanding
    ensures var name := Identify(router(userMessage + HistoryContext(history)), Assoc.Keys(skillMap));
      match Dispatch(skillMap, name)
      case None => events == [Understanding, Events.Error(Apology), Events.Done()]
      case Some(skill) => events == [Understanding, Understood] + planAndExecute(skill)
  {
    var name := IdentifySkill(history, userMessage, Assoc.Keys(skillMap), router);
    var skill := Assoc.GetOrDefault(skillMap, name, Fallback(skillMap));
    if skill.None? {
      events := [Understanding, Events.Error(Apology), Events.Done()];
    } else {
      events := [Understanding, Understood] + planAndExecute(skill.value);
    }
  }
}

/**
 * The multi-intent scheduler: runs the intents of one user turn one after
 * another, stops running skills once one of them only asked the user a
 * question, keeps the intents it did not reach as pending work for the
 * conversation's next turn, and has the results of several skills merged
 * into one reply by a summarizing LLM call.
 */
module Scheduler {
  import opened Base
  import opened Text
  import opened Records
  import Events
  import Assoc

  type Event = Events.PlanActionEvent

  // ------------------------------------------------------------------ pending store

  /** The pending rows of one conversation, in insertion order (none when it has no entry). */
  function Rows(rows: map<string, seq<SkillIntent>>, conversationId: string): seq<SkillIntent> {
    if conversationId in rows then rows[conversationId] else []
  }

  /** The table after deleting a conversation's rows and inserting `intents` in order. */
  function Replaced(rows: map<string, seq<SkillIntent>>, conversationId: string, intents: seq<SkillIntent>)
    : map<string, seq<SkillIntent>>
  {
    if |intents| == 0 then rows - {conversationId} else rows[conversationId := intents]
  }

  /** A save is read back unchanged, touches no other conversation, and replaces rather than merges. */
  lemma ReplacedReadsBack(rows: map<string, seq<SkillIntent>>, conversationId: string,
                          intents: seq<SkillIntent>, later: seq<SkillIntent>, other: string)
    ensures Rows(Replaced(rows, conversationId, intents), conversationId) == intents
    ensures other != conversationId ==> Rows(Replaced(rows, conversationId, intents), other) == Rows(rows, other)
    ensures Replaced(Replaced(rows, conversationId, intents), conversationId, later) == Replaced(rows, conversationId, later)
  {
  }

  /** The pending_intents table, keyed by conversation id. */
  class PendingStore {
    var rows: map<string, seq<SkillIntent>>

    constructor ()
      ensures rows == map[]
    {
      rows := map[];
    }

    /** Deletes the conversation's rows, then inserts one row per intent, in order. */
    method SavePending(conversationId: string, intents: seq<SkillIntent>)
      modifies this
      ensures rows == Replaced(old(rows), conversationId, intents)
    {
      rows := rows - {conversationId};
      for k := 0 to |intents|
        invariant rows == Replaced(old(rows), conversationId, intents[..k])
      {
        rows := rows[conversationId := Rows(rows, conversationId) + [intents[k]]];
        assert intents[..k + 1] == intents[..k] + [intents[k]];
      }
      assert intents[..|intents|] == intents;
    }

    /**
     * Reads the conversation's rows; when there are some, deletes them and
     * returns them, otherwise returns null and deletes nothing.
     */
    method PopPending(conversationId: string) returns (pending: Option<seq<SkillIntent>>)
      modifies this
      ensures pending.None? <==> Rows(old(rows), conversationId) == []
      ensures pending.Some? ==> pending.value == Rows(old(rows), conversationId)
      ensures Rows(rows, conversationId) == []
      ensures pending.Some? ==> rows == old(rows) - {conversationId}
      ensures pending.None? ==> rows == old(rows)
    {
      var found := Rows(rows, conversationId);
      if found != [] {
        rows := rows - {conversationId};
        pending := Some(found);
      } else {
        pending := None;
      }
    }
  }

  // ------------------------------------------------------------------ merging

  function SkillNames(intents: seq<SkillIntent>): (names: seq<string>)
    ensures |names| == |intents|
    ensures forall i :: 0 <= i < |intents| ==> names[i] == intents[i].skillName
  {
    seq(|intents|, i requires 0 <= i < |intents| => intents[i].skillName)
  }

  /** Some intent in the list targets the skill `name`. */
  predicate Targets(intents: seq<SkillIntent>, name: string) {
    name in SkillNames(intents)
  }

  /**
   * The merged list after considering the first |pending| pending intents:
   * the new intents, then each pending intent whose skill no earlier entry
   * of the merged list targets.
   */
  function MergeSpec(newIntents: seq<SkillIntent>, pending: seq<SkillIntent>): seq<SkillIntent>
    decreases |pending|
  {
    if |pending| == 0 then newIntents
    else
      var merged := MergeSpec(newIntents, pending[..|pending| - 1]);
      var p := pending[|pending| - 1];
      if Targets(merged, p.skillName) then merged else merged + [p]
  }

  /** `mergeIntents`: a copy of the new intents, extended by the pending ones they do not already cover. */
  method MergeIntents(newIntents: seq<SkillIntent>, pending: Option<seq<SkillIntent>>)
    returns (merged: seq<SkillIntent>)
    ensures pending.None? ==> merged == newIntents
    ensures pending.Some? ==> merged == MergeSpec(newIntents, pending.value)
  {
    merged := newIntents;
    if pending.Some? {
      var ps := pending.value;
      for k := 0 to |ps|
        invariant merged == MergeSpec(newIntents, ps[..k])
      {
        var p := ps[k];
        var dup := Targets(merged, p.skillName);
        if !dup {
          merged := merged + [p];
        }
        assert ps[..k + 1][..k] == ps[..k];
      }
      assert ps[..|ps|] == ps;
    }
  }

  lemma TargetsAppend(intents: seq<SkillIntent>, p: SkillIntent, name: string)
    ensures Targets(intents + [p], name) <==> Targets(intents, name) || p.skillName == name
  {
    assert SkillNames(intents + [p]) == SkillNames(intents) + [p.skillName];
  }

  lemma PrefixOfSnoc<T>(a: seq<T>, x: T, n: nat)
    requires n <= |a|
    ensures (a + [x])[..n] == a[..n]
  {
  }

  /** New intents take precedence: they come first in the merged list, unchanged. */
  lemma {:induction false} MergeKeepsNew(newIntents: seq<SkillIntent>, pending: seq<SkillIntent>)
    ensures |newIntents| <= |MergeSpec(newIntents, pending)|
    ensures MergeSpec(newIntents, pending)[..|newIntents|] == newIntents
    decreases |pending|
  {
    if |pending| > 0 {
      var before := MergeSpec(newIntents, pending[..|pending| - 1]);
      MergeKeepsNew(newIntents, pending[..|pending| - 1]);
      PrefixOfSnoc(before, pending[|pending| - 1], |newIntents|);
    }
  }

  /** Every entry after the new intents is a pending intent whose skill no earlier entry targets. */
  lemma {:induction false} MergeAddsFresh(newIntents: seq<SkillIntent>, pending: seq<SkillIntent>, i: nat)
    requires |newIntents| <= i < |MergeSpec(newIntents, pending)|
    ensures MergeSpec(newIntents, pending)[i] in pending
    ensures !Targets(MergeSpec(newIntents, pending)[..i], MergeSpec(newIntents, pending)[i].skillName)
    decreases |pending|
  {
    var front := pending[..|pending| - 1];
    var p := pending[|pending| - 1];
    var before := MergeSpec(newIntents, front);
    var merged := MergeSpec(newIntents, pending);
    assert pending == front + [p];
    if i < |before| {
      MergeAddsFresh(newIntents, front, i);
      if merged != before {
        PrefixOfSnoc(before, p, i);
        assert merged[i] == before[i];
      }
    } else {
      assert merged == before + [p];
      assert merged[..i] == before;
    }
  }

  /** No pending skill is lost: every pending intent's skill is targeted by the merged list. */
  lemma {:induction false} MergeCovers(newIntents: seq<SkillIntent>, pending: seq<SkillIntent>, q: SkillIntent)
    requires q in pending
    ensures Targets(MergeSpec(newIntents, pending), q.skillName)
    decreases |pending|
  {
    var front := pending[..|pending| - 1];
    var p := pending[|pending| - 1];
    var before := MergeSpec(newIntents, front);
    assert pending == front + [p];
    if !Targets(before, p.skillName) {
      TargetsAppend(before, p, q.skillName);
    }
    if q in front {
      MergeCovers(newIntents, front, q);
    }
  }

  /** Merging [(A,"x")] into pending [(A,"y"),(B,"z")]: the new A wins, the pending B is kept. */
  lemma MergeExample()
    ensures MergeSpec([SkillIntent("A", "x")], [SkillIntent("A", "y"), SkillIntent("B", "z")])
            == [SkillIntent("A", "x"), SkillIntent("B", "z")]
  {
    var pending := [SkillIntent("A", "y"), SkillIntent("B", "z")];
    assert pending[..1] == [SkillIntent("A", "y")];
    assert pending[..1][..0] == [];
    assert SkillNames([SkillIntent("A", "x")]) == ["A"];
  }

  // ------------------------------------------------------------------ serial execution

  const SummarySeparator: string := "\n\n---\n\n"
  const Summarizing: Event := Events.Planning("📝 正在汇总所有任务结果...")

  /** The opening event: how many sub-tasks were recognised. */
  function Announce(total: nat): Event {
    Events.Planning("💡 识别到 " + NatToString(total) + " 个任务，开始逐个处理...")
  }

  /** A sub-task's result as it enters the summary: its sub-task in brackets, a newline, its content. */
  function Tagged(subTask: string, content: string): string {
    "【" + subTask + "】\n" + content
  }

  function TypesOf(stream: seq<Event>): (types: seq<Events.EventType>)
    ensures |types| == |stream|
    ensures forall i :: 0 <= i < |stream| ==> types[i] == stream[i].eventType
  {
    seq(|stream|, i requires 0 <= i < |stream| => stream[i].eventType)
  }

  /** The run invoked at least one tool step; a run without one only asked the user something. */
  predicate HasAction(stream: seq<Event>) {
    Events.ActionType in TypesOf(stream)
  }

  predicate IsContentResult(e: Event) {
    e.eventType == Events.ResultType && e.content.Some?
  }

  /** The tagged contents of the stream's result events that carry content, in stream order. */
  function Collected(subTask: string, stream: seq<Event>): (r: seq<string>)
    ensures |r| <= |stream|
  {
    if |stream| == 0 then []
    else
      var e := stream[|stream| - 1];
      var front := Collected(subTask, stream[..|stream| - 1]);
      if IsContentResult(e) then front + [Tagged(subTask, e.content.value)] else front
  }

  /** Every collected result starts with its sub-task in brackets. */
  lemma {:induction false} CollectedTagged(subTask: string, stream: seq<Event>)
    ensures forall j :: 0 <= j < |Collected(subTask, stream)| ==>
              StartsWith(Collected(subTask, stream)[j], "【" + subTask + "】\n")
  {
    if |stream| > 0 {
      CollectedTagged(subTask, stream[..|stream| - 1]);
      var e := stream[|stream| - 1];
      if IsContentResult(e) {
        var t := Tagged(subTask, e.content.value);
        assert t[..|"【" + subTask + "】\n"|] == "【" + subTask + "】\n";
      }
    }
  }

  /**
   * A run that ends with a null answer adds nothing to the collected results;
   * one that ends with an answer adds that answer, tagged with its sub-task.
   */
  lemma CollectedClose(subTask: string, stream: seq<Event>, text: string)
    ensures Collected(subTask, stream + [Events.NullResult(), Events.Done()]) == Collected(subTask, stream)
    ensures Collected(subTask, stream + [Events.Result(text), Events.Done()])
            == Collected(subTask, stream) + [Tagged(subTask, text)]
  {
    var nullEnd := stream + [Events.NullResult(), Events.Done()];
    assert nullEnd[..|nullEnd| - 1] == stream + [Events.NullResult()];
    assert (stream + [Events.NullResult()])[..|stream|] == stream;
    var textEnd := stream + [Events.Result(text), Events.Done()];
    assert textEnd[..|textEnd| - 1] == stream + [Events.Result(text)];
    assert (stream + [Events.Result(text)])[..|stream|] == stream;
  }

  /**
   * Watches one skill's event stream as it passes through: collects the
   * tagged result contents and notes whether any action event went by.
   */
  method ConsumeStream(subTask: string, stream: seq<Event>) returns (collected: seq<string>, hasAction: bool)
    ensures collected == Collected(subTask, stream)
    ensures hasAction <==> HasAction(stream)
  {
    collected := [];
    hasAction := false;
    for k := 0 to |stream|
      invariant collected == Collected(subTask, stream[..k])
      invariant hasAction <==> HasAction(stream[..k])
    {
      var e := stream[k];
      if e.eventType == Events.ActionType {
        hasAction := true;
      }
      if IsContentResult(e) {
        collected := collected + [Tagged(subTask, e.content.value)];
      }
      assert stream[..k + 1][..k] == stream[..k];
      assert TypesOf(stream[..k + 1]) == TypesOf(stream[..k]) + [e.eventType];
    }
    assert stream[..|stream|] == stream;
  }

  /** The skill an intent runs on: its own if the map has it, else the fallback (possibly none). */
  function Resolve(skillMap: Assoc.Entries<SkillDefinition>, fallback: Option<SkillDefinition>,
                   intent: SkillIntent): Option<SkillDefinition>
  {
    Assoc.GetOrDefault(skillMap, intent.skillName, fallback)
  }

  /**
   * What running one intent contributes: its header followed by its skill's
   * event stream, the tagged results collected from that stream, and whether
   * the run only asked the user (it carried no action event).
   */
  datatype Outcome = Outcome(events: seq<Event>, results: seq<string>, askedUser: bool)

  /** Runs the intent at 1-based position `position` of `total` on `skill`. */
  function RunIntent(skill: SkillDefinition, intent: SkillIntent, position: nat, total: nat,
                     run: (SkillDefinition, string) -> seq<Event>): Outcome
  {
    var stream := run(skill, intent.subTask);
    Outcome([Events.SkillStart(position, total, skill.name, intent.subTask)] + stream,
            Collected(intent.subTask, stream),
            !HasAction(stream))
  }

  /** The intent at index i: None when its skill does not resolve, else what running it yields. */
  function PlanOf(intents: seq<SkillIntent>, skillMap: Assoc.Entries<SkillDefinition>,
                  fallback: Option<SkillDefinition>, run: (SkillDefinition, string) -> seq<Event>, i: nat)
    : Option<Outcome>
    requires i < |intents|
  {
    match Resolve(skillMap, fallback, intents[i])
    case None => None
    case Some(skill) => Some(RunIntent(skill, intents[i], i + 1, |intents|, run))
  }

  /**
   * Every intent's plan. The skill runs are oracle answers, so what an
   * intent would yield is fixed in advance; the scheduler decides which of
   * them actually run.
   */
  function Outcomes(intents: seq<SkillIntent>, skillMap: Assoc.Entries<SkillDefinition>,
                    fallback: Option<SkillDefinition>, run: (SkillDefinition, string) -> seq<Event>)
    : (plans: seq<Option<Outcome>>)
    ensures |plans| == |intents|
    ensures forall i :: 0 <= i < |intents| ==> plans[i] == PlanOf(intents, skillMap, fallback, run, i)
  {
    seq(|intents|, i requires 0 <= i < |intents| => PlanOf(intents, skillMap, fallback, run, i))
  }

  /**
   * What the scheduler holds after going through some of the intents: the
   * events emitted, the collected results, the ask-user flag, and the index
   * from which the rest was saved as pending work, once it was.
   */
  datatype Batch = Batch(events: seq<Event>, results: seq<string>, askUser: bool, deferredFrom: Option<nat>)

  function Initial(total: nat): Batch {
    Batch([Announce(total)], [], false, None)
  }

  /**
   * Intent i of the loop in `execute`. An intent whose skill does not
   * resolve is skipped silently. While no skill has asked the user, a
   * resolved intent runs and its events and results are appended; a run
   * that only asked the user sets the flag. Once the flag is set, the first
   * resolved intent saves itself and everything after it as pending work,
   * and nothing further happens.
   */
  function Step(b: Batch, plan: Option<Outcome>, i: nat): (r: Batch)
    ensures |b.events| <= |r.events| && r.events[..|b.events|] == b.events
    ensures |b.results| <= |r.results| && r.results[..|b.results|] == b.results
    ensures b.askUser ==> r.askUser && r.events == b.events && r.results == b.results
    ensures b.deferredFrom.Some? ==> r == b
    ensures r.deferredFrom != b.deferredFrom ==> r.deferredFrom == Some(i) && b.askUser && plan.Some?
  {
    match plan
    case None => b
    case Some(o) =>
      if b.deferredFrom.Some? then b
      else if b.askUser then b.(deferredFrom := Some(i))
      else
        var events := b.events + o.events;
        var results := b.results + o.results;
        assert events[..|b.events|] == b.events;
        assert results[..|b.results|] == b.results;
        Batch(events, results, o.askedUser, None)
  }

  /** The batch after the first n intents: the opening event, then Step for each intent in order. */
  function Served(plans: seq<Option<Outcome>>, n: nat): (b: Batch)
    requires n <= |plans|
    ensures |b.events| >= 1 && b.events[0] == Announce(|plans|)
    ensures b.deferredFrom.Some? ==> b.askUser && b.deferredFrom.value < n
  {
    if n == 0 then Initial(|plans|)
    else
      var before := Served(plans, n - 1);
      var b := Step(before, plans[n - 1], n - 1);
      assert b.events[0] == b.events[..|before.events|][0];
      b
  }

  /**
   * The summary stage: when no skill asked the user and more than one result
   * was collected, a planning event, then the summarizer's answer as a result
   * (one without content when the answer is null) and done; a failing
   * summarizer call ends the stream with its error after the planning event.
   * Otherwise nothing is added.
   */
  function Conclude(b: Batch, summarize: string -> Result<Option<string>>): (r: (seq<Event>, Option<string>))
    ensures |r.0| >= |b.events| && r.0[..|b.events|] == b.events
    ensures |r.0| > |b.events| <==> !b.askUser && |b.results| > 1
    ensures |r.0| > |b.events| ==> r.0[|b.events|] == Summarizing
    ensures r.1.Some? <==> |r.0| > |b.events| && summarize(Join(b.results, SummarySeparator)).Err?
    ensures r.1.None? && |r.0| > |b.events| ==>
              var answer := summarize(Join(b.results, SummarySeparator)).value;
              r.0[|b.events|..] == [Summarizing, Events.ResultOf(answer), Events.Done()]
  {
    if b.askUser || |b.results| <= 1 then (b.events, None)
    else
      match summarize(Join(b.results, SummarySeparator))
      case Ok(answer) => (b.events + [Summarizing, Events.ResultOf(answer), Events.Done()], None)
      case Err(m) => (b.events + [Summarizing], Some(m))
  }

  /** One pass of the loop in `execute`: skip, defer, or run intent i. */
  method ServeIntent(conversationId: string, intents: seq<SkillIntent>, i: nat,
                     skillMap: Assoc.Entries<SkillDefinition>, fallback: Option<SkillDefinition>,
                     run: (SkillDefinition, string) -> seq<Event>, store: PendingStore, b: Batch)
    returns (r: Batch)
    requires i < |intents|
    modifies store
    ensures r == Step(b, PlanOf(intents, skillMap, fallback, run, i), i)
    ensures r.deferredFrom == b.deferredFrom ==> store.rows == old(store.rows)
    ensures r.deferredFrom != b.deferredFrom ==> store.rows == Replaced(old(store.rows), conversationId, intents[i..])
  {
    var intent := intents[i];
    var skill := Assoc.GetOrDefault(skillMap, intent.skillName, fallback);
    r := b;
    if skill.Some? && b.deferredFrom.None? {
      if b.askUser {
        store.SavePending(conversationId, intents[i..]);
        r := b.(deferredFrom := Some(i));
      } else {
        var stream := run(skill.value, intent.subTask);
        var collected, hasAction := ConsumeStream(intent.subTask, stream);
        var header := Events.SkillStart(i + 1, |intents|, skill.value.name, intent.subTask);
        r := Batch(b.events + ([header] + stream), b.results + collected, !hasAction, None);
      }
    }
  }

  /**
   * `execute`: runs the intents in order and summarizes. The events and the
   * stream error are those of the batch after every intent; the pending
   * store changes only when intents were deferred, and then holds exactly
   * the intents from the first deferred one on.
   */
  method Execute(conversationId: string, intents: seq<SkillIntent>, skillMap: Assoc.Entries<SkillDefinition>,
                 fallback: Option<SkillDefinition>, run: (SkillDefinition, string) -> seq<Event>,
                 summarize: string -> Result<Option<string>>, store: PendingStore)
    returns (events: seq<Event>, failure: Option<string>)
    modifies store
    ensures var b := Served(Outcomes(intents, skillMap, fallback, run), |intents|);
      (events, failure) == Conclude(b, summarize)
      && store.rows == (if b.deferredFrom.Some? then Replaced(old(store.rows), conversationId, intents[b.deferredFrom.value..])
                        else old(store.rows))
  {
    ghost var plans := Outcomes(intents, skillMap, fallback, run);
    var b := Initial(|intents|);
    for i := 0 to |intents|
      invariant b == Served(plans, i)
      invariant store.rows == (if b.deferredFrom.Some? then Replaced(old(store.rows), conversationId, intents[b.deferredFrom.value..])
                               else old(store.rows))
    {
      b := ServeIntent(conversationId, intents, i, skillMap, fallback, run, store, b);
    }
    if b.askUser || |b.results| <= 1 {
      events, failure := b.events, None;
    } else {
      var answer := summarize(Join(b.results, SummarySeparator));
      if answer.Ok? {
        events, failure := b.events + [Summarizing, Events.ResultOf(answer.value), Events.Done()], None;
      } else {
        events, failure := b.events + [Summarizing], Some(answer.message);
      }
    }
  }

  lemma PrefixOfExtension<T>(a: seq<T>, b: seq<T>, c: seq<T>)
    requires |a| <= |b| && b[..|a|] == a
    requires |b| <= |c| && c[..|b|] == b
    ensures c[..|a|] == a
  {
    assert c[..|a|] == c[..|b|][..|a|];
  }

  /**
   * Serial execution: a later batch extends an earlier one; events and
   * results are only ever appended, and the ask-user flag, once set, stays.
   */
  lemma {:induction false} ServedExtends(plans: seq<Option<Outcome>>, n: nat, m: nat)
    requires n <= m <= |plans|
    ensures |Served(plans, n).events| <= |Served(plans, m).events|
    ensures Served(plans, m).events[..|Served(plans, n).events|] == Served(plans, n).events
    ensures |Served(plans, n).results| <= |Served(plans, m).results|
    ensures Served(plans, m).results[..|Served(plans, n).results|] == Served(plans, n).results
    ensures Served(plans, n).askUser ==> Served(plans, m).askUser
    decreases m - n
  {
    if n < m {
      ServedExtends(plans, n, m - 1);
      var bn := Served(plans, n);
      var bp := Served(plans, m - 1);
      var bm := Served(plans, m);
      PrefixOfExtension(bn.events, bp.events, bm.events);
      PrefixOfExtension(bn.results, bp.results, bm.results);
    }
  }

  /**
   * Once a skill has asked the user, no further intent runs: no event and
   * no result is added by any later intent.
   */
  lemma {:induction false} StopsAfterAskUser(plans: seq<Option<Outcome>>, n: nat, m: nat)
    requires n <= m <= |plans|
    requires Served(plans, n).askUser
    ensures Served(plans, m).events == Served(plans, n).events
    ensures Served(plans, m).results == Served(plans, n).results
    ensures Served(plans, m).askUser
    decreases m - n
  {
    if n < m {
      StopsAfterAskUser(plans, n, m - 1);
    }
  }

  /**
   * The pending work starts at the first resolvable intent met after a
   * skill asked the user: at that point the flag was set and nothing was
   * deferred yet, and the deferral never moves afterwards.
   */
  lemma {:induction false} DeferredFromFirst(plans: seq<Option<Outcome>>, n: nat)
    requires n <= |plans|
    requires Served(plans, n).deferredFrom.Some?
    ensures var j := Served(plans, n).deferredFrom.value;
      Served(plans, j).askUser && Served(plans, j).deferredFrom.None? && plans[j].Some?
      && Served(plans, j + 1).deferredFrom == Some(j)
  {
    if Served(plans, n - 1).deferredFrom.Some? {
      DeferredFromFirst(plans, n - 1);
    }
  }

  // ------------------------------------------------------------------ the pending-save overwrite

  predicate Resolvable(skillMap: Assoc.Entries<SkillDefinition>, fallback: Option<SkillDefinition>, intent: SkillIntent) {
    Resolve(skillMap, fallback, intent).Some?
  }

  /** The last index in [lo, hi) whose intent resolves to a skill. */
  function LastResolvable(intents: seq<SkillIntent>, skillMap: Assoc.Entries<SkillDefinition>,
                          fallback: Option<SkillDefinition>, lo: nat, hi: nat): (r: Option<nat>)
    requires lo <= hi <= |intents|
    ensures r.Some? ==> lo <= r.value < hi && Resolvable(skillMap, fallback, intents[r.value])
    ensures r.Some? ==> forall k :: r.value < k < hi ==> !Resolvable(skillMap, fallback, intents[k])
    decreases hi - lo
  {
    if hi == lo then None
    else if Resolvable(skillMap, fallback, intents[hi - 1]) then Some(hi - 1)
    else LastResolvable(intents, skillMap, fallback, lo, hi - 1)
  }

  /**
   * The deferral as the source writes it: once the ask-user flag is set
   * (before intent `from`), each later intent whose skill resolves calls
   * savePending with the intents from its own position on, so each call
   * replaces the previous one and the last call decides what is stored.
   */
  method SaveRemainingAsWritten(store: PendingStore, conversationId: string, intents: seq<SkillIntent>,
                                skillMap: Assoc.Entries<SkillDefinition>, fallback: Option<SkillDefinition>, from: nat)
    requires from <= |intents|
    modifies store
    ensures var last := LastResolvable(intents, skillMap, fallback, from, |intents|);
      store.rows == (if last.Some? then Replaced(old(store.rows), conversationId, intents[last.value..])
                     else old(store.rows))
  {
    for i := from to |intents|
      invariant var last := LastResolvable(intents, skillMap, fallback, from, i);
        store.rows == (if last.Some? then Replaced(old(store.rows), conversationId, intents[last.value..])
                       else old(store.rows))
    {
      if Resolvable(skillMap, fallback, intents[i]) {
        var last := LastResolvable(intents, skillMap, fallback, from, i);
        if last.Some? {
          ReplacedReadsBack(old(store.rows), conversationId, intents[last.value..], intents[i..], conversationId);
        }
        store.SavePending(conversationId, intents[i..]);
      }
    }
  }

  const Chitchat: SkillDefinition := SkillDefinition("chitchat", "", [], "")

  function ThreeIntents(): seq<SkillIntent> {
    [SkillIntent("a", "x"), SkillIntent("b", "y"), SkillIntent("c", "z")]
  }

  /**
   * Three intents A, B, C whose skills all resolve (to the fallback), where
   * A's run asked the user: as written, B saves [B, C] and then C
   * overwrites it with [C], so B is lost.
   */
  lemma OverwriteLosesIntent()
    ensures LastResolvable(ThreeIntents(), [], Some(Chitchat), 1, 3) == Some(2)
    ensures Rows(Replaced(map[], "conv", ThreeIntents()[2..]), "conv") == [SkillIntent("c", "z")]
  {
    assert ThreeIntents()[2..] == [SkillIntent("c", "z")];
  }

  /**
   * The same three intents, with A's run carrying no action: the batch
   * defers from B, so the pending rows are [B, C].
   */
  lemma FirstDeferralKeepsRest()
    ensures Served(Outcomes(ThreeIntents(), [], Some(Chitchat), (s, t) => []), 3).deferredFrom == Some(1)
    ensures Rows(Replaced(map[], "conv", ThreeIntents()[1..]), "conv") == [SkillIntent("b", "y"), SkillIntent("c", "z")]
  {
    var intents := ThreeIntents();
    var run: (SkillDefinition, string) -> seq<Event> := (s, t) => [];
    var plans := Outcomes(intents, [], Some(Chitchat), run);
    assert TypesOf(run(Chitchat, "x")) == [];
    assert plans[0] == PlanOf(intents, [], Some(Chitchat), run, 0);
    assert plans[0].Some? && plans[0].value.askedUser;
    assert plans[1] == PlanOf(intents, [], Some(Chitchat), run, 1);
    assert plans[1].Some?;
    assert Served(plans, 1).askUser && Served(plans, 1).deferredFrom.None?;
    assert Served(plans, 2).deferredFrom == Some(1);
    assert intents[1..] == [SkillIntent("b", "y"), SkillIntent("c", "z")];
  }
}

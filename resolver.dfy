/**
 * Binds a skill's declared short tool names to live tool callbacks. A live
 * name matches a short name exactly, or by ending in "_" + the short name
 * (tool-server prefixes such as "srv_getWeather").
 */
module Resolver {
  import opened Base
  import opened Text
  import opened Records
  import Assoc

  /** The live tools keyed by name, in iteration order. */
  type Catalog = Assoc.Entries<Tool>

  function ToolName(t: Tool): string {
    t.name
  }

  /** getAllTools: keys every callback by its name; two callbacks with one name make it fail. */
  function GetAllTools(callbacks: seq<Tool>): (r: Result<Catalog>)
    ensures r.Ok? <==> forall i, j :: 0 <= i < j < |callbacks| ==> callbacks[i].name != callbacks[j].name
    ensures r.Ok? ==> r.value == Assoc.KeyedBy(callbacks, ToolName)
  {
    var pairs := Assoc.KeyedBy(callbacks, ToolName);
    assert Assoc.KeysDistinct(pairs) <==> forall i, j :: 0 <= i < j < |callbacks| ==> callbacks[i].name != callbacks[j].name by {
      forall i, j | 0 <= i < j < |callbacks| ensures pairs[i].0 == callbacks[i].name && pairs[j].0 == callbacks[j].name {}
    }
    Assoc.FromList(pairs)
  }

  /**
   * Keying fails at the first callback whose name an earlier one already has,
   * and the error names that tool.
   */
  lemma DuplicateToolNamed(callbacks: seq<Tool>)
    requires GetAllTools(callbacks).Err?
    ensures exists j ::
              && 0 <= j < |callbacks|
              && GetAllTools(callbacks).message == Assoc.DuplicateKey(callbacks[j].name)
              && (exists i :: 0 <= i < j && callbacks[i].name == callbacks[j].name)
              && (forall i, k :: 0 <= i < k < j ==> callbacks[i].name != callbacks[k].name)
  {
    var pairs := Assoc.KeyedBy(callbacks, ToolName);
    var j := Assoc.FirstRepeat(pairs).value;
    var i :| 0 <= i < j && pairs[..j][i].0 == pairs[j].0;
    assert callbacks[i].name == callbacks[j].name;
    forall i, k | 0 <= i < k < j ensures callbacks[i].name != callbacks[k].name {
      assert pairs[..j][i].0 != pairs[..j][k].0;
    }
  }

  /** The first entry, from `from` on, whose name ends with `suffix`; |all| when there is none. */
  function FirstSuffixIndex(all: Catalog, suffix: string, from: nat): (k: nat)
    requires from <= |all|
    ensures from <= k <= |all|
    ensures k < |all| ==> EndsWith(all[k].0, suffix)
    ensures forall j :: from <= j < k ==> !EndsWith(all[j].0, suffix)
    decreases |all| - from
  {
    if from == |all| then from
    else if EndsWith(all[from].0, suffix) then from
    else FirstSuffixIndex(all, suffix, from + 1)
  }

  /** The callback findTool returns for `shortName`, None standing for null. */
  function Find(all: Catalog, shortName: string): Option<Tool> {
    match Assoc.Get(all, shortName)
    case Some(t) => Some(t)
    case None =>
      var k := FirstSuffixIndex(all, "_" + shortName, 0);
      if k < |all| then Some(all[k].1) else None
  }

  /** findTool: exact key first, then the first entry whose name ends with "_" + shortName. */
  method FindTool(all: Catalog, shortName: string) returns (r: Option<Tool>)
    ensures r == Find(all, shortName)
  {
    var exact := Assoc.Get(all, shortName);
    if exact.Some? {
      return exact;
    }
    var suffix := "_" + shortName;
    var i := 0;
    while i < |all|
      invariant 0 <= i <= |all|
      invariant forall j :: 0 <= j < i ==> !EndsWith(all[j].0, suffix)
    {
      if EndsWith(all[i].0, suffix) {
        return Some(all[i].1);
      }
      i := i + 1;
    }
    return None;
  }

  /** A name present in the catalog always resolves to its own entry. */
  lemma FindExact(all: Catalog, i: nat)
    requires Assoc.KeysDistinct(all) && i < |all|
    ensures Find(all, all[i].0) == Some(all[i].1)
  {
    Assoc.GetEntry(all, i);
  }

  /** Without an exact key, the first "_"-suffixed name wins. */
  lemma FindSuffix(all: Catalog, shortName: string, i: nat)
    requires !Assoc.HasKey(all, shortName)
    requires i < |all| && EndsWith(all[i].0, "_" + shortName)
    requires forall j :: 0 <= j < i ==> !EndsWith(all[j].0, "_" + shortName)
    ensures Find(all, shortName) == Some(all[i].1)
  {
    var k := FirstSuffixIndex(all, "_" + shortName, 0);
    assert k == i;
  }

  /** findTool gives null exactly when no name equals shortName or ends with "_" + shortName. */
  lemma FindNone(all: Catalog, shortName: string)
    ensures Find(all, shortName).None? <==>
      forall j :: 0 <= j < |all| ==> all[j].0 != shortName && !EndsWith(all[j].0, "_" + shortName)
  {
    if Find(all, shortName).None? {
      assert !Assoc.HasKey(all, shortName);
    }
  }

  /** Whatever findTool returns is the callback of an entry that matches exactly or by "_"-suffix. */
  lemma FindIsMatch(all: Catalog, shortName: string)
    requires Find(all, shortName).Some?
    ensures exists i :: 0 <= i < |all| && all[i].1 == Find(all, shortName).value
                        && (all[i].0 == shortName || EndsWith(all[i].0, "_" + shortName))
  {
  }

  /**
   * The exact name binds, and so does a server-prefixed name ("srv_" + name);
   * a name that ends in the short name without the underscore does not.
   */
  lemma SuffixNeedsUnderscore(h: Tool, shortName: string, prefix: string, c: char)
    requires c != '_'
    ensures Find([(shortName, h)], shortName) == Some(h)
    ensures Find([(prefix + "_" + shortName, h)], shortName) == Some(h)
    ensures Find([([c] + shortName, h)], shortName) == None
  {
    var suffix := "_" + shortName;
    var long := prefix + "_" + shortName;
    assert long[|long| - |suffix|..] == suffix;
    if long != shortName {
      assert Assoc.Get([(long, h)], shortName) == None;
    }
    var near := [c] + shortName;
    assert near != shortName;
    assert near[0] != suffix[0];
    assert !EndsWith(near, suffix) by {
      assert |near| == |suffix| && near[|near| - |suffix|..] == near;
    }
    FindNone([(near, h)], shortName);
  }

  /** The callbacks that the declared names resolve to, in declaration order. */
  function Resolved(all: Catalog, declared: seq<string>): seq<Tool>
  {
    if declared == [] then []
    else
      var last := declared[|declared| - 1];
      Resolved(all, declared[..|declared| - 1])
        + (match Find(all, last) case Some(t) => [t] case None => [])
  }

  /** Resolution goes name by name: resolving a + b is resolving a, then b. */
  lemma {:induction false} ResolvedAppend(all: Catalog, a: seq<string>, b: seq<string>)
    ensures Resolved(all, a + b) == Resolved(all, a) + Resolved(all, b)
    decreases |b|
  {
    if b == [] {
      assert a + b == a;
    } else {
      var b' := b[..|b| - 1];
      assert (a + b)[..|a + b| - 1] == a + b';
      ResolvedAppend(all, a, b');
    }
  }

  /** Every declared name resolves to a callback. */
  predicate AllFound(all: Catalog, declared: seq<string>) {
    forall k :: 0 <= k < |declared| ==> Find(all, declared[k]).Some?
  }

  lemma AllFoundSnoc(all: Catalog, declared: seq<string>)
    requires declared != []
    ensures AllFound(all, declared) <==>
      AllFound(all, declared[..|declared| - 1]) && Find(all, declared[|declared| - 1]).Some?
  {
    var init := declared[..|declared| - 1];
    assert forall k :: 0 <= k < |init| ==> init[k] == declared[k];
  }

  /** Unresolved names are dropped, so never more tools than declared names. */
  lemma {:induction false} ResolvedLength(all: Catalog, declared: seq<string>)
    ensures |Resolved(all, declared)| <= |declared|
    ensures |Resolved(all, declared)| == |declared| <==> AllFound(all, declared)
  {
    if declared != [] {
      var init := declared[..|declared| - 1];
      ResolvedLength(all, init);
      ResolvedLastLength(all, declared);
      AllFoundSnoc(all, declared);
    }
  }

  /** The last declared name adds one tool when it resolves and none otherwise. */
  lemma ResolvedLastLength(all: Catalog, declared: seq<string>)
    requires declared != []
    ensures |Resolved(all, declared)| ==
      |Resolved(all, declared[..|declared| - 1])| + (if Find(all, declared[|declared| - 1]).Some? then 1 else 0)
  {
  }

  /** When every name resolves, the k-th tool is the k-th name's callback (so repeats are kept). */
  lemma {:induction false} ResolvedAllFound(all: Catalog, declared: seq<string>, k: nat)
    requires AllFound(all, declared)
    requires k < |declared|
    ensures |Resolved(all, declared)| == |declared|
    ensures Resolved(all, declared)[k] == Find(all, declared[k]).value
    decreases |declared|
  {
    ResolvedLength(all, declared);
    var init := declared[..|declared| - 1];
    AllFoundSnoc(all, declared);
    ResolvedLength(all, init);
    if k < |init| {
      ResolvedAllFound(all, init, k);
    }
  }

  lemma ResolvedStep(all: Catalog, declared: seq<string>, i: nat)
    requires i < |declared|
    ensures Resolved(all, declared[..i + 1]) ==
      Resolved(all, declared[..i]) + (match Find(all, declared[i]) case Some(t) => [t] case None => [])
  {
    assert declared[..i + 1][..i] == declared[..i];
  }

  /** The tools a skill is bound to for one catalog fetch: the fetch's or the keying's error, else the resolved list. */
  function Bound(fetched: Result<seq<Tool>>, skill: SkillDefinition): Result<seq<Tool>> {
    if fetched.Err? then Err(fetched.message)
    else
      match GetAllTools(fetched.value)
      case Err(message) => Err(message)
      case Ok(all) => Ok(Resolved(all, skill.allowedTools))
  }

  /** resolveTools: fetch the catalog (the fetch or the keying may fail), then resolve the skill's tools. */
  method ResolveTools(fetched: Result<seq<Tool>>, skill: SkillDefinition) returns (r: Result<seq<Tool>>)
    ensures fetched.Err? ==> r == Err(fetched.message)
    ensures fetched.Ok? && GetAllTools(fetched.value).Err? ==> r.Err?
    ensures fetched.Ok? && GetAllTools(fetched.value).Ok? ==>
      r == Ok(Resolved(GetAllTools(fetched.value).value, skill.allowedTools))
    ensures r == Bound(fetched, skill)
  {
    if fetched.Err? {
      return Err(fetched.message);
    }
    var keyed := GetAllTools(fetched.value);
    if keyed.Err? {
      return Err(keyed.message);
    }
    var all := keyed.value;
    var declared := skill.allowedTools;
    var matched: seq<Tool> := [];
    var i := 0;
    while i < |declared|
      invariant 0 <= i <= |declared|
      invariant matched == Resolved(all, declared[..i])
    {
      var tool := FindTool(all, declared[i]);
      ResolvedStep(all, declared, i);
      if tool.Some? {
        matched := matched + [tool.value];
      }
      i := i + 1;
    }
    assert declared[..i] == declared;
    return Ok(matched);
  }

  /** One "- name: description" line per tool, plus a schema line when the schema is not blank. */
  function SignatureLines(t: Tool): string {
    "- " + t.name + ": " + t.description + "\n"
    + (if t.inputSchema.Some? && !IsBlank(t.inputSchema.value) then "  参数 schema: " + t.inputSchema.value + "\n" else "")
  }

  function Signatures(tools: seq<Tool>): string {
    if tools == [] then "" else Signatures(tools[..|tools| - 1]) + SignatureLines(tools[|tools| - 1])
  }

  /** formatToolSignatures: "无" for no tools, else the trimmed signature lines. */
  method FormatToolSignatures(tools: Option<seq<Tool>>) returns (r: string)
    ensures tools.None? || tools.value == [] ==> r == "无"
    ensures tools.Some? && tools.value != [] ==> r == Trim(Signatures(tools.value))
  {
    if tools.None? || |tools.value| == 0 {
      return "无";
    }
    var ts := tools.value;
    var sb := "";
    var i := 0;
    while i < |ts|
      invariant 0 <= i <= |ts|
      invariant sb == Signatures(ts[..i])
    {
      assert ts[..i + 1][..i] == ts[..i];
      sb := sb + SignatureLines(ts[i]);
      i := i + 1;
    }
    assert ts[..i] == ts;
    return Trim(sb);
  }

  /** The signature text of a non-empty tool list opens with the first tool's "- name:". */
  lemma SignaturesStartWithFirstTool(tools: seq<Tool>)
    requires tools != []
    ensures StartsWith(Trim(Signatures(tools)), "- " + tools[0].name + ":")
  {
    var p := "- " + tools[0].name + ":";
    SignaturesPrefix(tools);
    var s := Signatures(tools);
    assert s[..|p|] == p;
    assert !TrimmedAway(s[0]) by { assert s[0] == p[0] == '-'; }
    assert TrimStart(s) == s;
    var r := TrimEnd(s);
    assert !TrimmedAway(s[|p| - 1]) by { assert s[|p| - 1] == p[|p| - 1] == ':'; }
    assert |r| >= |p|;
    assert r[..|p|] == s[..|p|];
  }

  lemma {:induction false} SignaturesPrefix(tools: seq<Tool>)
    requires tools != []
    ensures StartsWith(Signatures(tools), "- " + tools[0].name + ":")
    decreases |tools|
  {
    var init := tools[..|tools| - 1];
    if init == [] {
      assert Signatures(tools) == "" + SignatureLines(tools[0]) == SignatureLines(tools[0]);
      SignatureLinePrefix(tools[0]);
    } else {
      SignaturesPrefix(init);
      assert init[0] == tools[0];
      PrefixExtends(Signatures(init), SignatureLines(tools[|tools| - 1]), "- " + tools[0].name + ":");
    }
  }

  lemma SignatureLinePrefix(t: Tool)
    ensures StartsWith(SignatureLines(t), "- " + t.name + ":")
  {
    var p := "- " + t.name + ":";
    assert SignatureLines(t)[..|p|] == p;
  }

  lemma PrefixExtends(s: string, t: string, p: string)
    requires StartsWith(s, p)
    ensures StartsWith(s + t, p)
  {
    assert (s + t)[..|p|] == s[..|p|];
  }
}

/**
 * The skill loader: reads each SKILL.md, takes its metadata from the
 * YAML-like frontmatter between the opening "---" and the next "---", and
 * loads the body after it on demand as the skill's system prompt.
 */
module Loader {
  import opened Base
  import opened Text
  import opened Records

  const Fence: string := "---"
  const NameKey: string := "name"
  const DescriptionKey: string := "description"
  const ToolsKey: string := "allowed-tools"

  // ------------------------------------------------------------------ frontmatter values

  /** The trimmed line starts with `key:`. */
  predicate Matches(line: string, key: string) {
    StartsWith(Trim(line), key + ":")
  }

  /** The trimmed text after `key:` on a matching line (empty on a line too short to match). */
  function RawValue(line: string, key: string): string {
    var trimmed := Trim(line);
    if |key| + 1 <= |trimmed| then Trim(trimmed[|key| + 1..]) else ""
  }

  /**
   * Strips one pair of enclosing double quotes. A value that is a single
   * quote both starts and ends with one, and `substring(1, 0)` throws.
   */
  function Unquote(value: string): (r: Result<string>)
    ensures r.Err? <==> value == "\""
    ensures r.Ok? && StartsWith(value, "\"") && EndsWith(value, "\"") ==> r.value == value[1..|value| - 1]
    ensures r.Ok? && !(StartsWith(value, "\"") && EndsWith(value, "\"")) ==> r.value == value
  {
    if StartsWith(value, "\"") && EndsWith(value, "\"") then
      if |value| < 2 then Err("begin 1, end 0, length 1") else Ok(value[1..|value| - 1])
    else Ok(value)
  }

  /** A value read from a matching line: found, or the exception unquoting threw. */
  function Found(value: Result<string>): (r: Result<Option<string>>)
    ensures r.Ok? <==> value.Ok?
    ensures value.Ok? ==> r.value == Some(value.value)
  {
    match value
    case Ok(v) => Ok(Some(v))
    case Err(m) => Err(m)
  }

  /** Which lines match the key. */
  function Hits(lines: seq<string>, key: string): (hits: seq<bool>)
    ensures |hits| == |lines|
    ensures forall i :: 0 <= i < |lines| ==> hits[i] == Matches(lines[i], key)
  {
    seq(|lines|, i requires 0 <= i < |lines| => Matches(lines[i], key))
  }

  /** The first index, from `from` on, that holds. */
  function FirstTrue(hits: seq<bool>, from: nat): (r: Option<nat>)
    requires from <= |hits|
    ensures r.Some? ==> from <= r.value < |hits| && hits[r.value]
    ensures r.Some? ==> forall j :: from <= j < r.value ==> !hits[j]
    ensures r.None? ==> forall j :: from <= j < |hits| ==> !hits[j]
    decreases |hits| - from
  {
    if from == |hits| then None
    else if hits[from] then Some(from)
    else FirstTrue(hits, from + 1)
  }

  /** The value of the first matching line among `lines`: null when none matches, an error when unquoting throws. */
  function ValueIn(lines: seq<string>, key: string): Result<Option<string>> {
    Pick(lines, key, FirstTrue(Hits(lines, key), 0))
  }

  /** The value on line `at`, or null when there is no such line. */
  function Pick(lines: seq<string>, key: string, at: Option<nat>): Result<Option<string>>
    requires at.Some? ==> at.value < |lines|
  {
    match at
    case None => Ok(None)
    case Some(i) => LineValue(lines[i], key)
  }

  /** The value a matching line holds, or the error unquoting it raises. */
  function LineValue(line: string, key: string): Result<Option<string>> {
    Found(Unquote(RawValue(line, key)))
  }

  /** `extractYamlValue`: the frontmatter split into lines, then the first line for the key decides. */
  function YamlValue(yaml: string, key: string): Result<Option<string>> {
    ValueIn(SplitWhere(yaml, IsNewline), key)
  }

  /** `extractYamlValue` as written: a scan over the lines with an early return. */
  method ExtractYamlValue(yaml: string, key: string) returns (r: Result<Option<string>>)
    ensures r == YamlValue(yaml, key)
  {
    var lines := SplitWhere(yaml, IsNewline);
    for k := 0 to |lines|
      invariant FirstTrue(Hits(lines, key), 0) == FirstTrue(Hits(lines, key), k)
    {
      var trimmed := Trim(lines[k]);
      if StartsWith(trimmed, key + ":") {
        var value := Trim(trimmed[|key| + 1..]);
        if StartsWith(value, "\"") && EndsWith(value, "\"") {
          if |value| < 2 {
            return Err("begin 1, end 0, length 1");
          }
          value := value[1..|value| - 1];
        }
        return Ok(Some(value));
      }
    }
    return Ok(None);
  }

  /** The first index that holds is the one with none before it. */
  lemma FirstTrueAt(hits: seq<bool>, i: nat)
    requires i < |hits| && hits[i] && forall j :: 0 <= j < i ==> !hits[j]
    ensures FirstTrue(hits, 0) == Some(i)
  {
  }

  /** Reading lines in order: the first line that matches the key decides ... */
  lemma {:induction false} ValueInFirstMatch(lines: seq<string>, key: string, i: nat)
    requires i < |lines| && Matches(lines[i], key)
    requires forall j :: 0 <= j < i ==> !Matches(lines[j], key)
    ensures ValueIn(lines, key) == LineValue(lines[i], key)
  {
    var hits := Hits(lines, key);
    assert hits[i];
    assert forall j :: 0 <= j < i ==> !hits[j];
    FirstTrueAt(hits, i);
    assert Pick(lines, key, Some(i)) == LineValue(lines[i], key);
  }

  /** ... and with no matching line the value is null. */
  lemma {:induction false} ValueInNoMatch(lines: seq<string>, key: string)
    requires forall j :: 0 <= j < |lines| ==> !Matches(lines[j], key)
    ensures ValueIn(lines, key) == Ok(None)
  {
    var hits := Hits(lines, key);
    assert forall j :: 0 <= j < |lines| ==> !hits[j];
    assert FirstTrue(hits, 0) == None;
  }

  /** The lines of a text that is one line, a newline, and more. */
  lemma LinesOfCons(first: string, rest: string)
    requires forall i :: 0 <= i < |first| ==> first[i] != '\n'
    ensures SplitWhere(first + "\n" + rest, IsNewline) == [first] + SplitWhere(rest, IsNewline)
  {
    SplitAppend(first, '\n', rest, IsNewline);
    SplitNoSeparator(first, IsNewline);
    assert first + "\n" + rest == first + ['\n'] + rest;
  }

  /** A text that is one line followed by more: the line decides when it matches the key. */
  lemma YamlValueFirstLine(first: string, rest: string, key: string)
    requires forall i :: 0 <= i < |first| ==> first[i] != '\n'
    requires Matches(first, key)
    ensures YamlValue(first + "\n" + rest, key) == LineValue(first, key)
  {
    LinesOfCons(first, rest);
    var lines := [first] + SplitWhere(rest, IsNewline);
    assert lines[0] == first;
    ValueInFirstMatch(lines, key, 0);
  }

  // ------------------------------------------------------------------ allowed tools

  /** Java's `\s` in a regular expression: the six ASCII whitespace chars. */
  predicate IsRegexSpace(c: char) {
    c == ' ' || c == '\t' || c == '\n' || c == '\U{000B}' || c == '\U{000C}' || c == '\r'
  }

  /** A char of the pattern `[\s,]+` that separates tool names. */
  predicate IsToolSeparator(c: char) {
    IsRegexSpace(c) || c == ','
  }

  /** The non-blank pieces, in order. */
  function NonBlank(pieces: seq<string>): (r: seq<string>)
    ensures |r| <= |pieces|
    ensures forall i :: 0 <= i < |r| ==> !IsBlank(r[i]) && r[i] in pieces
  {
    if |pieces| == 0 then []
    else
      var front := NonBlank(pieces[..|pieces| - 1]);
      var last := pieces[|pieces| - 1];
      if IsBlank(last) then front else front + [last]
  }

  lemma {:induction false} NonBlankAppend(a: seq<string>, b: seq<string>)
    ensures NonBlank(a + b) == NonBlank(a) + NonBlank(b)
    decreases |b|
  {
    if |b| == 0 {
      assert a + b == a;
    } else {
      var front := b[..|b| - 1];
      assert (a + b)[..|a + b| - 1] == a + front;
      assert (a + b)[|a + b| - 1] == b[|b| - 1];
      NonBlankAppend(a, front);
      AppendAssoc(NonBlank(a), NonBlank(front), [b[|b| - 1]]);
    }
  }

  /** A token is a non-blank name without separators. */
  predicate IsToolName(t: string) {
    !IsBlank(t) && forall i :: 0 <= i < |t| ==> !IsToolSeparator(t[i])
  }

  /**
   * The tool names of a value: split at runs of separators, blank pieces
   * dropped. Splitting at every separator and dropping the blank pieces
   * (the empty ones among them) gives the same tokens.
   */
  function ToolTokens(value: string): (tokens: seq<string>)
    ensures forall k :: 0 <= k < |tokens| ==> IsToolName(tokens[k])
  {
    SplitPiecesHaveNoSeparator(value, IsToolSeparator);
    NonBlank(SplitWhere(value, IsToolSeparator))
  }

  /** Writing tool names space-separated and reading them back gives the same names, in order. */
  lemma {:induction false} ToolTokensJoin(names: seq<string>)
    requires forall k :: 0 <= k < |names| ==> IsToolName(names[k])
    ensures ToolTokens(Join(names, " ")) == names
  {
    if |names| == 1 {
      SplitNoSeparator(names[0], IsToolSeparator);
    } else if |names| > 1 {
      var rest := Join(names[1..], " ");
      assert Join(names, " ") == names[0] + [' '] + rest;
      SplitAppend(names[0], ' ', rest, IsToolSeparator);
      SplitNoSeparator(names[0], IsToolSeparator);
      ToolTokensJoin(names[1..]);
      NonBlankAppend([names[0]], SplitWhere(rest, IsToolSeparator));
      assert NonBlank([names[0]]) == [names[0]] by {
        assert [names[0]][..0] == [];
      }
      assert names == [names[0]] + names[1..];
    }
  }

  /** `extractAllowedTools`: no tools when the field is absent or blank, else the tokens of its value. */
  function AllowedTools(frontmatter: string): (r: Result<seq<string>>)
    ensures r.Ok? ==> forall k :: 0 <= k < |r.value| ==> IsToolName(r.value[k])
    ensures YamlValue(frontmatter, ToolsKey).Ok? <==> r.Ok?
    ensures YamlValue(frontmatter, ToolsKey) == Ok(None) ==> r == Ok([])
    ensures YamlValue(frontmatter, ToolsKey).Ok? && YamlValue(frontmatter, ToolsKey).value.Some? ==>
              var v := YamlValue(frontmatter, ToolsKey).value.value;
              r == Ok(if IsBlank(v) then [] else ToolTokens(v))
  {
    match YamlValue(frontmatter, ToolsKey)
    case Err(m) => Err(m)
    case Ok(None) => Ok([])
    case Ok(Some(v)) => if IsBlank(v) then Ok([]) else Ok(ToolTokens(v))
  }

  // ------------------------------------------------------------------ SKILL.md sections

  /** Where the frontmatter closes: the first "---" at index 3 or later, or -1. */
  function FrontmatterEnd(content: string): int {
    IndexOf(content, Fence, 3)
  }

  /**
   * The skill a frontmatter describes: null without a non-blank name;
   * otherwise the skill, with a missing description read as "". An
   * exception while reading a value propagates.
   */
  function FromFrontmatter(frontmatter: string, location: string): (r: Result<Option<SkillDefinition>>)
    ensures r.Ok? <==> YamlValue(frontmatter, NameKey).Ok? && YamlValue(frontmatter, DescriptionKey).Ok?
                       && YamlValue(frontmatter, ToolsKey).Ok?
    ensures r.Ok? && r.value.Some? <==> r.Ok? && YamlValue(frontmatter, NameKey).value.Some?
                                        && !IsBlank(YamlValue(frontmatter, NameKey).value.value)
    ensures r.Ok? && r.value.Some? ==>
              r.value.value.name == YamlValue(frontmatter, NameKey).value.value
              && r.value.value.location == location
              && r.value.value.allowedTools == AllowedTools(frontmatter).value
              && (YamlValue(frontmatter, DescriptionKey).value.None? ==> r.value.value.description == "")
              && (YamlValue(frontmatter, DescriptionKey).value.Some? ==>
                    r.value.value.description == YamlValue(frontmatter, DescriptionKey).value.value)
  {
    match YamlValue(frontmatter, NameKey)
    case Err(m) => Err(m)
    case Ok(name) =>
      match YamlValue(frontmatter, DescriptionKey)
      case Err(m) => Err(m)
      case Ok(description) =>
        match AllowedTools(frontmatter)
        case Err(m) => Err(m)
        case Ok(tools) =>
          if name.None? || IsBlank(name.value) then Ok(None)
          else Ok(Some(SkillDefinition(name.value, if description.Some? then description.value else "", tools, location)))
  }

  /**
   * `parseMetadata`: null without an opening "---" or a closing one;
   * otherwise the skill described by the trimmed text between them.
   */
  function ParseMetadata(content: string, location: string): (r: Result<Option<SkillDefinition>>)
    ensures !StartsWith(content, Fence) ==> r == Ok(None)
    ensures StartsWith(content, Fence) && FrontmatterEnd(content) < 0 ==> r == Ok(None)
    ensures StartsWith(content, Fence) && FrontmatterEnd(content) >= 0 ==>
              r == FromFrontmatter(Trim(content[3..FrontmatterEnd(content)]), location)
  {
    if !StartsWith(content, Fence) then Ok(None)
    else
      var endIdx := FrontmatterEnd(content);
      if endIdx < 0 then Ok(None)
      else FromFrontmatter(Trim(content[3..endIdx]), location)
  }

  /** `loadPrompt`: the trimmed text after the closing "---"; "" when it is missing or the file cannot be read. */
  function LoadPrompt(content: Result<string>): (prompt: string)
    ensures IsTrimmed(prompt)
    ensures content.Err? ==> prompt == ""
    ensures content.Ok? && FrontmatterEnd(content.value) < 0 ==> prompt == ""
  {
    match content
    case Err(_) => ""
    case Ok(text) =>
      var endIdx := FrontmatterEnd(text);
      if endIdx < 0 then "" else Trim(text[endIdx + 3..])
  }

  /** In such a file the first "---" after the opening one is the one right after the frontmatter. */
  lemma FenceAfter(frontmatter: string, body: string)
    requires forall i :: 0 <= i < |frontmatter| ==> !OccursAt(frontmatter + Fence, Fence, i)
    ensures var file := Fence + frontmatter + Fence + body;
      var end := 3 + |frontmatter|;
      FrontmatterEnd(file) == end && file[..3] == Fence && file[3..end] == frontmatter && file[end + 3..] == body
  {
    var file := Fence + frontmatter + Fence + body;
    var end := 3 + |frontmatter|;
    assert file[end..end + 3] == Fence;
    var tail := frontmatter + Fence;
    assert file == Fence + tail + body;
    forall i | 3 <= i < end
      ensures !OccursAt(file, Fence, i)
    {
      assert file[i..i + 3] == tail[i - 3..i];
      assert !OccursAt(tail, Fence, i - 3);
    }
    IndexOfAt(file, Fence, 3, end);
    assert file[..3] == Fence;
    assert file[3..end] == frontmatter;
    assert file[end + 3..] == body;
  }

  /**
   * A file laid out as "---", a frontmatter that does not run into a
   * "---", "---", a body: the frontmatter closes right after it, metadata is
   * read from it, and the prompt is the trimmed body.
   */
  lemma SkillFileSections(frontmatter: string, body: string, location: string)
    requires forall i :: 0 <= i < |frontmatter| ==> !OccursAt(frontmatter + Fence, Fence, i)
    ensures var file := Fence + frontmatter + Fence + body;
      FrontmatterEnd(file) == 3 + |frontmatter|
      && ParseMetadata(file, location) == FromFrontmatter(Trim(frontmatter), location)
      && LoadPrompt(Ok(file)) == Trim(body)
  {
    FenceAfter(frontmatter, body);
  }

  // ------------------------------------------------------------------ loading every skill

  /** One scanned SKILL.md: its text (reading may fail) and its location. */
  datatype SkillFile = SkillFile(content: Result<string>, location: string)

  function Parsed(file: SkillFile): Result<Option<SkillDefinition>> {
    match file.content
    case Err(m) => Err(m)
    case Ok(text) => ParseMetadata(text, file.location)
  }

  /** What parsing each file gives, in scan order. */
  function ParsesOf(files: seq<SkillFile>): (parses: seq<Result<Option<SkillDefinition>>>)
    ensures |parses| == |files|
    ensures forall i :: 0 <= i < |files| ==> parses[i] == Parsed(files[i])
  {
    seq(|files|, i requires 0 <= i < |files| => Parsed(files[i]))
  }

  /** The skills among the parses, in order; failures and nulls contribute nothing. */
  function Kept(parses: seq<Result<Option<SkillDefinition>>>): (skills: seq<SkillDefinition>)
    ensures |skills| <= |parses|
  {
    if |parses| == 0 then []
    else
      var front := Kept(parses[..|parses| - 1]);
      match parses[|parses| - 1]
      case Ok(Some(skill)) => front + [skill]
      case _ => front
  }

  /** Keeping from two runs of parses keeps from each, in order. */
  lemma {:induction false} KeptAppend(a: seq<Result<Option<SkillDefinition>>>, b: seq<Result<Option<SkillDefinition>>>)
    ensures Kept(a + b) == Kept(a) + Kept(b)
    decreases |b|
  {
    if |b| == 0 {
      assert a + b == a;
    } else {
      var front := b[..|b| - 1];
      assert (a + b)[..|a + b| - 1] == a + front;
      assert (a + b)[|a + b| - 1] == b[|b| - 1];
      KeptAppend(a, front);
      match b[|b| - 1]
      case Ok(Some(skill)) =>
        AppendAssoc(Kept(a), Kept(front), [skill]);
      case _ =>
    }
  }

  /** One more parse keeps its skill, if it gives one. */
  lemma KeptSnoc(parses: seq<Result<Option<SkillDefinition>>>, k: nat)
    requires k < |parses|
    ensures parses[k].Ok? && parses[k].value.Some? ==> Kept(parses[..k + 1]) == Kept(parses[..k]) + [parses[k].value.value]
    ensures !(parses[k].Ok? && parses[k].value.Some?) ==> Kept(parses[..k + 1]) == Kept(parses[..k])
  {
    assert parses[..k + 1][..k] == parses[..k];
  }

  /** Every kept skill is one of the parses. */
  lemma {:induction false} KeptFrom(parses: seq<Result<Option<SkillDefinition>>>)
    ensures forall j :: 0 <= j < |Kept(parses)| ==> Ok(Some(Kept(parses)[j])) in parses
  {
    if |parses| > 0 {
      var front := parses[..|parses| - 1];
      KeptFrom(front);
      assert forall x :: x in front ==> x in parses;
    }
  }

  /** Every loaded skill has a non-blank name and the location of a scanned file. */
  lemma LoadedSkillsNamed(files: seq<SkillFile>, j: nat)
    requires j < |Kept(ParsesOf(files))|
    ensures !IsBlank(Kept(ParsesOf(files))[j].name)
    ensures exists i :: 0 <= i < |files| && files[i].location == Kept(ParsesOf(files))[j].location
  {
    var parses := ParsesOf(files);
    var skill := Kept(parses)[j];
    KeptFrom(parses);
    var i :| 0 <= i < |parses| && parses[i] == Ok(Some(skill));
    var file := files[i];
    assert Parsed(file) == Ok(Some(skill));
    assert file.content.Ok?;
    var text := file.content.value;
    assert ParseMetadata(text, file.location) == Ok(Some(skill));
    assert StartsWith(text, Fence) && FrontmatterEnd(text) >= 0;
    assert FromFrontmatter(Trim(text[3..FrontmatterEnd(text)]), file.location) == Ok(Some(skill));
  }

  /** The scan over the files: each parse that gives a skill adds it. */
  method LoadFiles(files: seq<SkillFile>) returns (skills: seq<SkillDefinition>)
    ensures skills == Kept(ParsesOf(files))
  {
    skills := [];
    ghost var parses := ParsesOf(files);
    for k := 0 to |files|
      invariant skills == Kept(parses[..k])
    {
      KeptSnoc(parses, k);
      var parsed := Parsed(files[k]);
      if parsed.Ok? && parsed.value.Some? {
        skills := skills + [parsed.value.value];
      }
    }
    assert parses[..|files|] == parses;
  }

  /** `loadAllSkills`: parses each scanned file, keeping the skills; a failed scan loads nothing. */
  method LoadAllSkills(scan: Result<seq<SkillFile>>) returns (skills: seq<SkillDefinition>)
    ensures scan.Err? ==> skills == []
    ensures scan.Ok? ==> skills == Kept(ParsesOf(scan.value))
  {
    skills := [];
    if scan.Ok? {
      skills := LoadFiles(scan.value);
    }
  }
}

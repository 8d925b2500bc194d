/**
 * The weather server's JSON scraping: a value found by scanning for the
 * quoted key, the same inside a 200-char window after an array key, and the
 * forecast reply that cuts up to three day blocks out of the `weather` array
 * by counting braces. The HTTP fetch is an oracle: these functions take the
 * response body as it arrived.
 */
module Weather {
  import opened Base
  import opened Text

  /** What `indexOf` looks for: the key between double quotes. */
  function Quoted(key: string): (q: string)
    ensures |q| == |key| + 2 && q[0] == '"' && q[|q| - 1] == '"' && q[1..|q| - 1] == key
  {
    "\"" + key + "\""
  }

  // ------------------------------------------------------------------ extractJsonValue

  /** Chars skipped between the colon and the value. */
  predicate Skipped(c: char) { c == ' ' || c == '"' }

  /** Chars that end a value. */
  predicate Stops(c: char) { c == '"' || c == ',' || c == '}' }

  /** The first index at or after `i` that holds no skipped char, or the end. */
  function ValueStart(json: string, i: nat): (start: nat)
    requires i <= |json|
    ensures i <= start <= |json|
    ensures forall k :: i <= k < start ==> Skipped(json[k])
    ensures start == |json| || !Skipped(json[start])
    decreases |json| - i
  {
    if i < |json| && Skipped(json[i]) then ValueStart(json, i + 1) else i
  }

  /** The first index at or after `i` that holds a stopping char, or the end. */
  function ValueEnd(json: string, i: nat): (end: nat)
    requires i <= |json|
    ensures i <= end <= |json|
    ensures forall k :: i <= k < end ==> !Stops(json[k])
    ensures end == |json| || Stops(json[end])
    decreases |json| - i
  {
    if i < |json| && !Stops(json[i]) then ValueEnd(json, i + 1) else i
  }

  /** Where the first occurrence of the quoted key starts, or -1. */
  function KeyAt(json: string, key: string): int {
    IndexOf(json, Quoted(key), 0)
  }

  /** The first ':' after the first occurrence of the quoted key, if both are there. */
  function ColonAfter(json: string, key: string): (colon: Option<nat>)
    ensures colon.None? <==> KeyAt(json, key) < 0 || IndexOf(json, ":", KeyAt(json, key) + |Quoted(key)|) < 0
    ensures colon.Some? ==> KeyAt(json, key) + |Quoted(key)| <= colon.value < |json| && json[colon.value] == ':'
  {
    var idx := KeyAt(json, key);
    if idx < 0 then None
    else
      var colon := IndexOf(json, ":", idx + |Quoted(key)|);
      if colon < 0 then None else Some(colon)
  }

  /** The chars of a trimmed string all come from the string. */
  lemma TrimKeeps(s: string)
    ensures forall c :: c in Trim(s) ==> c in s
  {
    var t := TrimStart(s);
    assert forall c :: c in t ==> c in s by {
      assert t == s[|s| - |t|..];
    }
  }

  /** The value after the colon at `colon`: past spaces and quotes, up to a stopping char, trimmed. */
  function ValueAfter(json: string, colon: nat): (value: string)
    requires colon < |json|
    ensures IsTrimmed(value) && forall c :: c in value ==> !Stops(c)
  {
    var start := ValueStart(json, colon + 1);
    var end := ValueEnd(json, start);
    TrimKeeps(json[start..end]);
    Trim(json[start..end])
  }

  /**
   * `extractJsonValue`: null when the quoted key or a ':' after it is missing;
   * otherwise the text after the colon, past spaces and quotes, up to the
   * first quote, comma or closing brace, trimmed. So the value holds none of
   * those three chars.
   */
  function JsonValue(json: string, key: string): (value: Option<string>)
    ensures value.None? <==> KeyAt(json, key) < 0 || IndexOf(json, ":", KeyAt(json, key) + |Quoted(key)|) < 0
    ensures value.Some? ==> IsTrimmed(value.value) && forall c :: c in value.value ==> !Stops(c)
  {
    match ColonAfter(json, key)
    case None => None
    case Some(colon) => Some(ValueAfter(json, colon))
  }

  /** The first loop of `extractJsonValue`: past the spaces and quotes after the colon. */
  method SkipToValue(json: string, from: nat) returns (start: nat)
    requires from <= |json|
    ensures start == ValueStart(json, from)
  {
    start := from;
    while start < |json| && (json[start] == ' ' || json[start] == '"')
      invariant from <= start <= |json|
      invariant ValueStart(json, start) == ValueStart(json, from)
      decreases |json| - start
    {
      start := start + 1;
    }
  }

  /** The second loop of `extractJsonValue`: up to the first quote, comma or closing brace. */
  method ScanValue(json: string, start: nat) returns (end: nat)
    requires start <= |json|
    ensures end == ValueEnd(json, start)
  {
    end := start;
    while end < |json| && json[end] != '"' && json[end] != ',' && json[end] != '}'
      invariant start <= end <= |json|
      invariant ValueEnd(json, end) == ValueEnd(json, start)
      decreases |json| - end
    {
      end := end + 1;
    }
  }

  /** The value after the key's colon is the trimmed text between the two scans. */
  lemma ValueAfterIs(json: string, key: string, colon: nat, start: nat, end: nat)
    requires ColonAfter(json, key) == Some(colon)
    requires start == ValueStart(json, colon + 1) && end == ValueEnd(json, start)
    ensures JsonValue(json, key) == Some(Trim(json[start..end]))
  {
    ValueAfterUnfold(json, colon, start, end);
  }

  lemma ValueAfterUnfold(json: string, colon: nat, start: nat, end: nat)
    requires colon < |json|
    requires start == ValueStart(json, colon + 1) && end == ValueEnd(json, start)
    ensures ValueAfter(json, colon) == Trim(json[start..end])
  {
  }

  /** `extractJsonValue`. */
  method ExtractJsonValue(json: string, key: string) returns (value: Option<string>)
    ensures value == JsonValue(json, key)
  {
    var idx := IndexOf(json, Quoted(key), 0);
    if idx < 0 {
      return None;
    }
    var colon := IndexOf(json, ":", idx + |Quoted(key)|);
    if colon < 0 {
      return None;
    }
    assert ColonAfter(json, key) == Some(colon);
    var start := SkipToValue(json, colon + 1);
    var end := ScanValue(json, start);
    value := Some(Trim(json[start..end]));
    ValueAfterIs(json, key, colon, start, end);
  }

  /**
   * A member written as wttr.in writes them, `"key": "v"`, right after the
   * opening brace yields `v` for any trimmed `v` free of quotes, commas and
   * braces, whatever follows it.
   */
  lemma MemberValue(key: string, v: string, rest: string)
    requires |v| > 0 && IsTrimmed(v) && forall c :: c in v ==> !Stops(c)
    ensures JsonValue("{" + Quoted(key) + ": \"" + v + "\"" + rest, key) == Some(v)
  {
    var json := "{" + Quoted(key) + ": \"" + v + "\"" + rest;
    var colon := 1 + |Quoted(key)|;
    MemberColon(key, v, rest);
    assert json[colon + 1] == ' ' && json[colon + 2] == '"';
    assert json[colon + 3..colon + 3 + |v|] == v;
    assert json[colon + 3 + |v|] == '"';
    QuotedValue(json, colon, v);
  }

  /** In such a member the key is found right after the brace, and its colon right after the key. */
  lemma MemberColon(key: string, v: string, rest: string)
    ensures ColonAfter("{" + Quoted(key) + ": \"" + v + "\"" + rest, key) == Some(1 + |Quoted(key)|)
  {
    var q := Quoted(key);
    var json := "{" + q + ": \"" + v + "\"" + rest;
    var n := |q|;
    assert json[1..1 + n] == q;
    assert json[0..n] != q by {
      assert json[0..n][0] != q[0];
    }
    IndexOfAt(json, q, 0, 1);
    assert json[1 + n..2 + n] == ":";
    IndexOfAt(json, ":", 1 + n, 1 + n);
  }

  /** After `: "`, a value free of stopping chars and closed by a quote is read back whole. */
  lemma QuotedValue(json: string, colon: nat, v: string)
    requires |v| > 0 && IsTrimmed(v) && forall c :: c in v ==> !Stops(c)
    requires colon + 4 + |v| <= |json|
    requires json[colon + 1] == ' ' && json[colon + 2] == '"'
    requires json[colon + 3..colon + 3 + |v|] == v && json[colon + 3 + |v|] == '"'
    ensures ValueAfter(json, colon) == v
  {
    var first := colon + 3;
    assert json[first] == v[0];
    assert !Skipped(v[0]) by {
      assert v[0] in v;
    }
    StartAfterQuote(json, colon);
    forall k | first <= k < first + |v|
      ensures !Stops(json[k])
    {
      assert json[k] == v[k - first];
      assert v[k - first] in v;
    }
    EndAtStop(json, first, first + |v|);
    ValueAfterUnfold(json, colon, first, first + |v|);
    TrimOfTrimmed(v);
  }

  /** The value starts right after the space and the opening quote. */
  lemma StartAfterQuote(json: string, colon: nat)
    requires colon + 3 < |json|
    requires json[colon + 1] == ' ' && json[colon + 2] == '"' && !Skipped(json[colon + 3])
    ensures ValueStart(json, colon + 1) == colon + 3
  {
  }

  /** The value ends at the first stopping char. */
  lemma EndAtStop(json: string, first: nat, end: nat)
    requires first <= end < |json| && Stops(json[end])
    requires forall k :: first <= k < end ==> !Stops(json[k])
    ensures ValueEnd(json, first) == end
  {
  }

  // ------------------------------------------------------------------ extractJsonArrayValue

  const Window: nat := 200

  /**
   * `extractJsonArrayValue`: null when the quoted array key is missing;
   * otherwise `extractJsonValue` on the text from the key to at most 200
   * chars later.
   */
  function ArrayValue(json: string, arrayKey: string, valueKey: string): (value: Option<string>)
    ensures KeyAt(json, arrayKey) < 0 ==> value.None?
    ensures KeyAt(json, arrayKey) >= 0 ==>
              var idx := KeyAt(json, arrayKey);
              value == JsonValue(json[idx..if idx + Window < |json| then idx + Window else |json|], valueKey)
    ensures value.Some? ==> IsTrimmed(value.value) && forall c :: c in value.value ==> !Stops(c)
  {
    var idx := KeyAt(json, arrayKey);
    if idx < 0 then None
    else
      var searchEnd := if idx + Window < |json| then idx + Window else |json|;
      JsonValue(json[idx..searchEnd], valueKey)
  }

  /** Nothing more than 200 chars past the array key is looked at. */
  lemma ArrayValueWindow(json: string, tail: string, arrayKey: string, valueKey: string)
    requires 0 <= KeyAt(json, arrayKey) && KeyAt(json, arrayKey) + Window <= |json|
    ensures ArrayValue(json + tail, arrayKey, valueKey) == ArrayValue(json, arrayKey, valueKey)
  {
    var idx := KeyAt(json, arrayKey);
    IndexOfExtend(json, tail, Quoted(arrayKey), 0);
    assert (json + tail)[idx..idx + Window] == json[idx..idx + Window];
  }

  /** An absent value key in the window gives null, even when it occurs later in the text. */
  lemma ArrayValueMissingInWindow(json: string, arrayKey: string, valueKey: string)
    requires 0 <= KeyAt(json, arrayKey)
    requires forall i :: !OccursAt(json[KeyAt(json, arrayKey)..], Quoted(valueKey), i)
    ensures ArrayValue(json, arrayKey, valueKey).None?
  {
    var idx := KeyAt(json, arrayKey);
    var searchEnd := if idx + Window < |json| then idx + Window else |json|;
    var rest := json[idx..];
    assert json[idx..searchEnd] == rest[..searchEnd - idx];
    if KeyAt(rest[..searchEnd - idx], valueKey) >= 0 {
      OccursInPrefix(rest, searchEnd - idx, Quoted(valueKey), KeyAt(rest[..searchEnd - idx], valueKey));
    }
  }

  /** An occurrence in a prefix is an occurrence in the whole text. */
  lemma OccursInPrefix(s: string, n: nat, p: string, k: int)
    requires n <= |s| && OccursAt(s[..n], p, k)
    ensures OccursAt(s, p, k)
  {
    assert s[..n][k..k + |p|] == s[k..k + |p|];
  }

  // ------------------------------------------------------------------ brace matching

  function Step(c: char): int {
    if c == '{' then 1 else if c == '}' then -1 else 0
  }

  /** Opening braces minus closing braces. */
  function Depth(s: string): int {
    if |s| == 0 then 0 else Depth(s[..|s| - 1]) + Step(s[|s| - 1])
  }

  /** Index `k` is one past a '}' that brings the count from `o` back to 0. */
  predicate ClosesAt(json: string, o: nat, k: nat) {
    o < k <= |json| && json[k - 1] == '}' && Depth(json[o..k]) == 0
  }

  /** The counting loop from index `i`, with `depth` counted so far: one past the closing brace, if any. */
  function Scan(json: string, i: nat, depth: int): Option<nat>
    requires i <= |json|
    decreases |json| - i
  {
    if i == |json| then None
    else if json[i] == '{' then Scan(json, i + 1, depth + 1)
    else if json[i] == '}' then
      if depth - 1 == 0 then Some(i + 1) else Scan(json, i + 1, depth - 1)
    else Scan(json, i + 1, depth)
  }

  lemma DepthSnoc(json: string, o: nat, i: nat)
    requires o <= i < |json|
    ensures Depth(json[o..i + 1]) == Depth(json[o..i]) + Step(json[i])
  {
    assert json[o..i + 1][..i - o] == json[o..i];
  }

  /** The scan stops at the first index where the count returns to 0 on a '}', and at no other. */
  lemma {:induction false} ScanFinds(json: string, o: nat, i: nat, depth: int)
    requires o <= i <= |json| && depth == Depth(json[o..i])
    ensures Scan(json, i, depth).Some? ==>
              i < Scan(json, i, depth).value && ClosesAt(json, o, Scan(json, i, depth).value)
              && forall k :: i < k < Scan(json, i, depth).value ==> !ClosesAt(json, o, k)
    ensures Scan(json, i, depth).None? ==> forall k :: i < k <= |json| ==> !ClosesAt(json, o, k)
    decreases |json| - i
  {
    if i < |json| {
      DepthSnoc(json, o, i);
      var next := depth + Step(json[i]);
      if json[i] == '}' && depth - 1 == 0 {
        assert ClosesAt(json, o, i + 1);
      } else {
        assert !ClosesAt(json, o, i + 1);
        ScanFinds(json, o, i + 1, next);
      }
    }
  }

  /**
   * The brace matching of `parseForecastJson`: one past the first '}' that
   * brings the count from `objStart` back to 0, or `objStart` itself when the
   * count never returns to 0.
   */
  function BlockEnd(json: string, objStart: nat): (objEnd: nat)
    requires objStart <= |json|
    ensures objStart <= objEnd <= |json|
    ensures objEnd > objStart ==>
              ClosesAt(json, objStart, objEnd) && forall k :: objStart < k < objEnd ==> !ClosesAt(json, objStart, k)
    ensures objEnd == objStart <==> forall k :: objStart < k <= |json| ==> !ClosesAt(json, objStart, k)
  {
    assert json[objStart..objStart] == [];
    ScanFinds(json, objStart, objStart, 0);
    match Scan(json, objStart, 0)
    case None => objStart
    case Some(e) => e
  }

  /** The counting loop, stopping at the brace that closes the block. */
  method MatchBrace(json: string, objStart: nat) returns (objEnd: nat)
    requires objStart <= |json|
    ensures objEnd == BlockEnd(json, objStart)
  {
    var depth := 0;
    objEnd := objStart;
    for i := objStart to |json|
      invariant Scan(json, i, depth) == Scan(json, objStart, 0)
    {
      if json[i] == '{' {
        depth := depth + 1;
      } else if json[i] == '}' {
        depth := depth - 1;
        if depth == 0 {
          objEnd := i + 1;
          return;
        }
      }
    }
  }

  // ------------------------------------------------------------------ parseForecastJson

  const WeatherKey: string := "\"weather\""
  const HourlyKey: string := "\"hourly\""

  function Header(city: string): string {
    "城市: " + city + " — 未来3天天气预报\n\n"
  }

  function NoForecast(city: string): string {
    "城市: " + city + "\n未找到预报数据"
  }

  function BadFormat(city: string): string {
    "城市: " + city + "\n预报数据格式异常"
  }

  /** The heading of the `day`-th block. */
  function DayLabel(day: nat): (heading: string)
    ensures day == 0 ==> heading == "今天"
    ensures day == 1 ==> heading == "明天"
    ensures day >= 2 ==> heading == "后天"
  {
    if day == 0 then "今天" else if day == 1 then "明天" else "后天"
  }

  /** The three labels differ, so the blocks can be told apart by their heading. */
  lemma LabelsDistinct()
    ensures DayLabel(0) != DayLabel(1) && DayLabel(1) != DayLabel(2) && DayLabel(0) != DayLabel(2)
  {
    assert DayLabel(0)[0] != DayLabel(1)[0] && DayLabel(1)[0] != DayLabel(2)[0] && DayLabel(0)[0] != DayLabel(2)[0];
  }

  /** What `StringBuilder.append` writes for a value that may be null. */
  function Shown(value: Option<string>): string {
    if value.Some? then value.value else "null"
  }

  function RainNote(chance: string): string {
    "（降水概率: " + chance + "%）"
  }

  /**
   * The day's description, read from the text from `"hourly"` on: the first
   * `weatherDesc` value, followed by the rain chance when that is present and
   * not "0" (after an empty description when there is none); null when the
   * day has no hourly data.
   */
  function DayDescription(dayJson: string): (desc: Option<string>)
    ensures IndexOf(dayJson, HourlyKey, 0) < 0 ==> desc.None?
    ensures IndexOf(dayJson, HourlyKey, 0) >= 0 ==>
              var section := dayJson[IndexOf(dayJson, HourlyKey, 0)..];
              var chance := JsonValue(section, "chanceofrain");
              var weather := ArrayValue(section, "weatherDesc", "value");
              if chance.Some? && chance.value != "0" then
                desc == Some((if weather.Some? then weather.value else "") + RainNote(chance.value))
              else desc == weather
  {
    var hourlyIdx := IndexOf(dayJson, HourlyKey, 0);
    if hourlyIdx < 0 then None
    else
      var section := dayJson[hourlyIdx..];
      var weather := ArrayValue(section, "weatherDesc", "value");
      var chance := JsonValue(section, "chanceofrain");
      if chance.Some? && chance.value != "0" then
        Some((if weather.Some? then weather.value else "") + RainNote(chance.value))
      else weather
  }

  /** The optional line `prefix + value + suffix`, empty when the value is null. */
  function Line(prefix: string, value: Option<string>, suffix: string): string {
    if value.Some? then prefix + value.value + suffix else ""
  }

  /** The text appended for the `day`-th block; the minimum and maximum temperature print "null" when missing. */
  function DayText(day: nat, dayJson: string): (text: string)
    ensures StartsWith(text, "### " + DayLabel(day))
  {
    var head := "### " + DayLabel(day);
    head
    + Line("（", JsonValue(dayJson, "date"), "）") + "\n"
    + "- 温度: " + Shown(JsonValue(dayJson, "mintempC")) + "°C ~ " + Shown(JsonValue(dayJson, "maxtempC")) + "°C"
    + Line("，均温 ", JsonValue(dayJson, "avgtempC"), "°C") + "\n"
    + Line("- 天气: ", DayDescription(dayJson), "\n")
    + Line("- 紫外线指数: ", JsonValue(dayJson, "uvIndex"), "\n")
    + Line("- 日照时长: ", JsonValue(dayJson, "sunHour"), " 小时\n")
    + "\n"
  }

  /** A day block as cut out: empty when its brace is never closed, else a balanced `{ … }`. */
  predicate WellCut(block: string) {
    block == [] || (block[0] == '{' && block[|block| - 1] == '}' && Depth(block) == 0)
  }

  /**
   * The day blocks the loop cuts out of the text, searching for '{' after
   * `searchPos`, for the days from `day` to the third.
   */
  function DayBlocks(json: string, searchPos: nat, day: nat): (blocks: seq<string>)
    requires searchPos <= |json|
    ensures |blocks| + day <= 3 || |blocks| == 0
    ensures forall b :: b in blocks ==> WellCut(b)
    decreases 3 - day
  {
    if day >= 3 then []
    else
      var objStart := IndexOf(json, "{", searchPos + 1);
      if objStart < 0 then []
      else
        var objEnd := BlockEnd(json, objStart);
        assert objEnd > objStart ==> json[objStart..objEnd][0] == json[objStart];
        [json[objStart..objEnd]] + DayBlocks(json, objEnd, day + 1)
  }

  /** The text of each block, the `i`-th labelled as day `i`. */
  function DayTexts(blocks: seq<string>): (texts: seq<string>)
    ensures |texts| == |blocks|
    ensures forall i :: 0 <= i < |blocks| ==> texts[i] == DayText(i, blocks[i])
  {
    seq(|blocks|, i requires 0 <= i < |blocks| => DayText(i, blocks[i]))
  }

  /** The texts one after another. */
  function Concat(texts: seq<string>): string {
    if |texts| == 0 then "" else Concat(texts[..|texts| - 1]) + texts[|texts| - 1]
  }

  /** The day texts of the blocks, labelled in order from "今天". */
  function Render(blocks: seq<string>): string {
    Concat(DayTexts(blocks))
  }

  lemma ConcatSnoc(texts: seq<string>, t: string)
    ensures Concat(texts + [t]) == Concat(texts) + t
  {
    assert (texts + [t])[..|texts|] == texts;
  }

  lemma DayTextsSnoc(blocks: seq<string>, b: string)
    ensures DayTexts(blocks + [b]) == DayTexts(blocks) + [DayText(|blocks|, b)]
  {
  }

  lemma RenderSnoc(blocks: seq<string>, b: string)
    ensures Render(blocks + [b]) == Render(blocks) + DayText(|blocks|, b)
  {
    DayTextsSnoc(blocks, b);
    ConcatSnoc(DayTexts(blocks), DayText(|blocks|, b));
  }

  lemma ConcatThree(texts: seq<string>)
    requires |texts| == 3
    ensures Concat(texts) == texts[0] + texts[1] + texts[2]
  {
    ConcatSnoc([], texts[0]);
    assert [] + [texts[0]] == [texts[0]];
    ConcatSnoc([texts[0]], texts[1]);
    assert [texts[0]] + [texts[1]] == [texts[0], texts[1]];
    ConcatSnoc([texts[0], texts[1]], texts[2]);
    assert [texts[0], texts[1]] + [texts[2]] == texts;
  }

  /** One round of the day loop: the block cut out at the next '{', then the remaining days. */
  lemma DayBlocksStep(json: string, searchPos: nat, day: nat)
    requires searchPos <= |json| && day < 3 && IndexOf(json, "{", searchPos + 1) >= 0
    ensures var objStart := IndexOf(json, "{", searchPos + 1);
            DayBlocks(json, searchPos, day)
            == [json[objStart..BlockEnd(json, objStart)]] + DayBlocks(json, BlockEnd(json, objStart), day + 1)
  {
  }

  /** The blocks found so far, followed by those still to come, are the same after one more round. */
  lemma CutRound(json: string, searchPos: nat, day: nat, found: seq<string>)
    requires searchPos <= |json| && day < 3 && IndexOf(json, "{", searchPos + 1) >= 0
    ensures var objStart := IndexOf(json, "{", searchPos + 1);
            var objEnd := BlockEnd(json, objStart);
            found + DayBlocks(json, searchPos, day) == (found + [json[objStart..objEnd]]) + DayBlocks(json, objEnd, day + 1)
  {
    var objStart := IndexOf(json, "{", searchPos + 1);
    var objEnd := BlockEnd(json, objStart);
    DayBlocksStep(json, searchPos, day);
    var rest := DayBlocks(json, objEnd, day + 1);
    assert (found + [json[objStart..objEnd]]) + rest == found + ([json[objStart..objEnd]] + rest);
  }

  /** One round of the day loop: the next block is cut out and its text appended. */
  lemma DayRound(json: string, searchPos: nat, day: nat, found: seq<string>)
    requires searchPos <= |json| && day < 3 && IndexOf(json, "{", searchPos + 1) >= 0 && |found| == day
    ensures var objStart := IndexOf(json, "{", searchPos + 1);
            var objEnd := BlockEnd(json, objStart);
            found + DayBlocks(json, searchPos, day) == (found + [json[objStart..objEnd]]) + DayBlocks(json, objEnd, day + 1)
            && Render(found + [json[objStart..objEnd]]) == Render(found) + DayText(day, json[objStart..objEnd])
  {
    var objStart := IndexOf(json, "{", searchPos + 1);
    var objEnd := BlockEnd(json, objStart);
    CutRound(json, searchPos, day, found);
    RenderSnoc(found, json[objStart..objEnd]);
  }

  /** Three blocks print as today, tomorrow and the day after, in that order. */
  lemma RenderThree(blocks: seq<string>)
    requires |blocks| == 3
    ensures Render(blocks) == DayText(0, blocks[0]) + DayText(1, blocks[1]) + DayText(2, blocks[2])
  {
    ConcatThree(DayTexts(blocks));
  }

  /**
   * `parseForecastJson`: the missing-data and format-error messages, or the
   * header followed by the day blocks, trimmed.
   */
  function Forecast(city: string, json: string): (reply: string)
    ensures IndexOf(json, WeatherKey, 0) < 0 ==> reply == NoForecast(city)
    ensures IndexOf(json, WeatherKey, 0) >= 0 && IndexOf(json, "[", IndexOf(json, WeatherKey, 0)) < 0 ==>
              reply == BadFormat(city)
  {
    var weatherIdx := IndexOf(json, WeatherKey, 0);
    if weatherIdx < 0 then NoForecast(city)
    else
      var arrStart := IndexOf(json, "[", weatherIdx);
      if arrStart < 0 then BadFormat(city)
      else Trim(Header(city) + Render(DayBlocks(json, arrStart, 0)))
  }

  /** The day loop of `parseForecastJson`: at most three blocks, each cut out by brace counting and appended as text. */
  method AppendDays(json: string, arrStart: nat) returns (days: string)
    requires arrStart <= |json|
    ensures days == Render(DayBlocks(json, arrStart, 0))
  {
    ghost var all := DayBlocks(json, arrStart, 0);
    ghost var found: seq<string> := [];
    days := "";
    var searchPos: nat := arrStart;
    var day: nat := 0;
    while day < 3
      invariant 0 <= day <= 3 && searchPos <= |json|
      invariant |found| == day
      invariant found + DayBlocks(json, searchPos, day) == all
      invariant days == Render(found)
      decreases 3 - day
    {
      var objStart := IndexOf(json, "{", searchPos + 1);
      if objStart < 0 {
        assert DayBlocks(json, searchPos, day) == [];
        break;
      }
      var objEnd := MatchBrace(json, objStart);
      var dayJson := json[objStart..objEnd];
      DayRound(json, searchPos, day, found);
      days := days + DayText(day, dayJson);
      found := found + [dayJson];
      searchPos := objEnd;
      day := day + 1;
    }
    assert DayBlocks(json, searchPos, day) == [];
    assert found == all;
  }

  /** `parseForecastJson`, with its day loop, its brace-counting loop and its appends. */
  method ParseForecast(city: string, json: string) returns (reply: string)
    ensures reply == Forecast(city, json)
  {
    var weatherIdx := IndexOf(json, WeatherKey, 0);
    if weatherIdx < 0 {
      return NoForecast(city);
    }
    var arrStart := IndexOf(json, "[", weatherIdx);
    if arrStart < 0 {
      return BadFormat(city);
    }
    var days := AppendDays(json, arrStart);
    reply := Trim(Header(city) + days);
  }
}

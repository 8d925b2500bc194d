/**
 * The java.lang.String operations the core relies on, on `seq<char>`:
 * trim, isBlank, startsWith, endsWith, indexOf, contains, toUpperCase,
 * toLowerCase, split and join, plus Integer.toString for naturals.
 */
module Text {

  /** `String.trim` removes every leading and trailing char up to U+0020. */
  predicate TrimmedAway(c: char) { c <= ' ' }

  function TrimStart(s: string): (r: string)
    ensures |r| <= |s| && r == s[|s| - |r|..]
    ensures r == [] || !TrimmedAway(r[0])
    ensures forall i :: 0 <= i < |s| - |r| ==> TrimmedAway(s[i])
  {
    if |s| > 0 && TrimmedAway(s[0]) then TrimStart(s[1..]) else s
  }

  function TrimEnd(s: string): (r: string)
    ensures |r| <= |s| && r == s[..|r|]
    ensures r == [] || !TrimmedAway(r[|r| - 1])
    ensures forall i :: |r| <= i < |s| ==> TrimmedAway(s[i])
  {
    if |s| > 0 && TrimmedAway(s[|s| - 1]) then TrimEnd(s[..|s| - 1]) else s
  }

  /** A string that `trim` leaves unchanged. */
  predicate IsTrimmed(s: string) {
    s == [] || (!TrimmedAway(s[0]) && !TrimmedAway(s[|s| - 1]))
  }

  /** Java `String.trim`. */
  function Trim(s: string): (r: string)
    ensures IsTrimmed(r)
    ensures |r| <= |s|
  {
    TrimEnd(TrimStart(s))
  }

  /** Trimming a trimmed string changes nothing, so `trim` is idempotent. */
  lemma TrimOfTrimmed(s: string)
    requires IsTrimmed(s)
    ensures Trim(s) == s
  {
  }

  /** `Character.isWhitespace`: the ASCII controls it names and the Unicode space,
      line and paragraph separators other than the non-breaking ones. */
  predicate IsWhitespace(c: char) {
    c == ' ' || c == '\t' || c == '\n' || c == '\U{000B}' || c == '\U{000C}' || c == '\r'
    || ('\U{001C}' <= c <= '\U{001F}')
    || c == '\U{1680}' || ('\U{2000}' <= c <= '\U{2006}') || ('\U{2008}' <= c <= '\U{200A}')
    || c == '\U{2028}' || c == '\U{2029}' || c == '\U{205F}' || c == '\U{3000}'
  }

  /** Java `String.isBlank`: empty or whitespace only. */
  predicate IsBlank(s: string) {
    forall i :: 0 <= i < |s| ==> IsWhitespace(s[i])
  }

  predicate StartsWith(s: string, prefix: string) {
    |prefix| <= |s| && s[..|prefix|] == prefix
  }

  predicate EndsWith(s: string, suffix: string) {
    |suffix| <= |s| && s[|s| - |suffix|..] == suffix
  }

  /** `p` occurs in `s` starting at index `i`. */
  predicate OccursAt(s: string, p: string, i: int) {
    0 <= i && i + |p| <= |s| && s[i..i + |p|] == p
  }

  /** Java `s.indexOf(p, from)`: the first occurrence at or after `from`, or -1. */
  function IndexOf(s: string, p: string, from: nat): (r: int)
    ensures r == -1 || (from <= r && OccursAt(s, p, r))
    ensures r == -1 ==> forall i :: from <= i ==> !OccursAt(s, p, i)
    ensures r != -1 ==> forall i :: from <= i < r ==> !OccursAt(s, p, i)
    decreases |s| - from
  {
    if from + |p| > |s| then -1
    else if s[from..from + |p|] == p then from
    else IndexOf(s, p, from + 1)
  }

  /** The search stops at the first occurrence at or after `from`. */
  lemma IndexOfAt(s: string, p: string, from: nat, r: nat)
    requires from <= r && OccursAt(s, p, r)
    requires forall i :: from <= i < r ==> !OccursAt(s, p, i)
    ensures IndexOf(s, p, from) == r
  {
    var k := IndexOf(s, p, from);
    assert k != -1;
    assert !(k < r);
  }

  /** Java `s.contains(p)`. */
  predicate Contains(s: string, p: string) {
    IndexOf(s, p, 0) >= 0
  }

  lemma ContainsIff(s: string, p: string)
    ensures Contains(s, p) <==> exists i :: OccursAt(s, p, i)
  {
  }

  /** A search that finds `p` in `s` finds it at the same place in `s + t`. */
  lemma {:induction false} IndexOfExtend(s: string, t: string, p: string, from: nat)
    requires IndexOf(s, p, from) >= 0
    ensures IndexOf(s + t, p, from) == IndexOf(s, p, from)
    decreases |s| - from
  {
    if s[from..from + |p|] != p {
      assert (s + t)[from..from + |p|] == s[from..from + |p|];
      IndexOfExtend(s, t, p, from + 1);
    } else {
      assert (s + t)[from..from + |p|] == s[from..from + |p|];
    }
  }

  function UpperChar(c: char): char {
    if 'a' <= c <= 'z' then (c as int - 32) as char else c
  }

  function LowerChar(c: char): char {
    if 'A' <= c <= 'Z' then (c as int + 32) as char else c
  }

  /** `toUpperCase` on ASCII letters; every other char is kept. */
  function ToUpper(s: string): (r: string)
    ensures |r| == |s|
  {
    seq(|s|, i requires 0 <= i < |s| => UpperChar(s[i]))
  }

  /** `toLowerCase` on ASCII letters; every other char is kept. */
  function ToLower(s: string): (r: string)
    ensures |r| == |s|
  {
    seq(|s|, i requires 0 <= i < |s| => LowerChar(s[i]))
  }

  /** Upper-casing commutes with taking a prefix. */
  lemma ToUpperPrefix(s: string, n: nat)
    requires n <= |s|
    ensures ToUpper(s)[..n] == ToUpper(s[..n])
  {
  }

  /**
   * Splits `s` at every char satisfying `isSep`, keeping empty pieces
   * (Java's `split` on a one-char pattern, before trailing empties are dropped).
   */
  function SplitWhere(s: string, isSep: char -> bool): (r: seq<string>)
    ensures |r| >= 1
  {
    if |s| == 0 then [""]
    else
      var rest := SplitWhere(s[1..], isSep);
      if isSep(s[0]) then [""] + rest else [[s[0]] + rest[0]] + rest[1..]
  }

  /** No piece contains a separator. */
  lemma {:induction false} SplitPiecesHaveNoSeparator(s: string, isSep: char -> bool)
    ensures forall k, j :: 0 <= k < |SplitWhere(s, isSep)| && 0 <= j < |SplitWhere(s, isSep)[k]|
              ==> !isSep(SplitWhere(s, isSep)[k][j])
  {
    if |s| > 0 {
      SplitPiecesHaveNoSeparator(s[1..], isSep);
    }
  }

  /** A string without separators is one piece. */
  lemma {:induction false} SplitNoSeparator(s: string, isSep: char -> bool)
    requires forall i :: 0 <= i < |s| ==> !isSep(s[i])
    ensures SplitWhere(s, isSep) == [s]
  {
    if |s| > 0 {
      SplitNoSeparator(s[1..], isSep);
      assert [s[0]] + s[1..] == s;
    }
  }

  /** One step of the split: a leading char either starts a new piece or joins the first one. */
  lemma SplitCons(x: char, s: string, isSep: char -> bool)
    ensures SplitWhere([x] + s, isSep) ==
      (var rest := SplitWhere(s, isSep);
       if isSep(x) then [""] + rest else [[x] + rest[0]] + rest[1..])
  {
    assert ([x] + s)[0] == x && ([x] + s)[1..] == s;
  }

  /** Append is associative (stated generically, so that no element equality is involved). */
  lemma AppendAssoc<T>(p: seq<T>, q: seq<T>, r: seq<T>)
    ensures p + (q + r) == (p + q) + r
  {
  }

  lemma DropAppend<T>(q: seq<T>, r: seq<T>)
    requires |q| >= 1
    ensures (q + r)[1..] == q[1..] + r
  {
  }

  /** Prepending one char to both sides keeps the split of the longer string an extension by `rb`. */
  lemma SplitConsAppend(x: char, a: string, tail: string, rb: seq<string>, isSep: char -> bool)
    requires SplitWhere(tail, isSep) == SplitWhere(a, isSep) + rb
    ensures SplitWhere([x] + tail, isSep) == SplitWhere([x] + a, isSep) + rb
  {
    var ra := SplitWhere(a, isSep);
    SplitCons(x, tail, isSep);
    SplitCons(x, a, isSep);
    if isSep(x) {
      AppendAssoc([""], ra, rb);
    } else {
      DropAppend(ra, rb);
      AppendAssoc([[x] + ra[0]], ra[1..], rb);
    }
  }

  /** Splitting at a separator splits the two sides independently, in order. */
  lemma {:induction false} SplitAppend(a: string, c: char, b: string, isSep: char -> bool)
    requires isSep(c)
    ensures SplitWhere(a + [c] + b, isSep) == SplitWhere(a, isSep) + SplitWhere(b, isSep)
    decreases |a|
  {
    if |a| == 0 {
      assert a + [c] + b == [c] + b;
      SplitCons(c, b, isSep);
    } else {
      var tail := a[1..] + [c] + b;
      assert a + [c] + b == [a[0]] + tail;
      assert a == [a[0]] + a[1..];
      SplitAppend(a[1..], c, b, isSep);
      SplitConsAppend(a[0], a[1..], tail, SplitWhere(b, isSep), isSep);
    }
  }

  /** Java `String.join(sep, parts)`. */
  function Join(parts: seq<string>, sep: string): (r: string)
  {
    if |parts| == 0 then ""
    else if |parts| == 1 then parts[0]
    else parts[0] + sep + Join(parts[1..], sep)
  }

  predicate IsNewline(c: char) { c == '\n' }

  /** Splitting on '\n' and joining back with "\n" gives the text back. */
  lemma {:induction false} JoinSplitLines(s: string)
    ensures Join(SplitWhere(s, IsNewline), "\n") == s
  {
    if |s| > 0 {
      JoinSplitLines(s[1..]);
      var rest := SplitWhere(s[1..], IsNewline);
      if !IsNewline(s[0]) {
        if |rest| > 1 {
          assert rest == [rest[0]] + rest[1..];
          assert Join(rest, "\n") == rest[0] + "\n" + Join(rest[1..], "\n");
        }
        assert [s[0]] + s[1..] == s;
      } else {
        assert [s[0]] + s[1..] == s;
      }
    }
  }

  /** Keeps the first `n` chars of a long text and marks the cut with "...". */
  function Abbreviate(s: string, n: nat): (r: string)
    ensures |s| <= n ==> r == s
    ensures |s| > n ==> |r| == n + 3 && r[..n] == s[..n] && r[n..] == "..."
  {
    if |s| > n then s[..n] + "..." else s
  }

  function DigitChar(d: nat): char
    requires d < 10
  {
    "0123456789"[d]
  }

  /** `Integer.toString` for non-negative values. */
  function NatToString(n: nat): (r: string)
    ensures |r| >= 1
    ensures forall i :: 0 <= i < |r| ==> '0' <= r[i] <= '9'
  {
    if n < 10 then [DigitChar(n)] else NatToString(n / 10) + [DigitChar(n % 10)]
  }
}

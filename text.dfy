/**
 * String primitives shared by the backend and the dashboard: the character
 * class of stream identifiers, the two notions of whitespace that Python's
 * `str.strip()` and JavaScript's `String.prototype.trim()` remove, ASCII
 * upper-casing, and single-character replacement applied as a chain of
 * `replace` / `replaceAll` calls.
 */
module Text {

  /** The regular-expression class `[a-zA-Z0-9_-]`. */
  predicate IsIdChar(c: char) {
    ('a' <= c <= 'z') || ('A' <= c <= 'Z') || ('0' <= c <= '9') || c == '_' || c == '-'
  }

  /** Characters for which Python's `str.isspace()` holds. */
  predicate IsPyWhitespace(c: char) {
    c == ' ' || ('\t' <= c <= '\r') || ('\U{1C}' <= c <= '\U{1F}') || c == '\U{85}'
    || c == '\U{A0}' || c == '\U{1680}' || ('\U{2000}' <= c <= '\U{200A}')
    || c == '\U{2028}' || c == '\U{2029}' || c == '\U{202F}' || c == '\U{205F}' || c == '\U{3000}'
  }

  /** Characters that JavaScript's `trim()` removes: WhiteSpace and LineTerminator. */
  predicate IsJsWhitespace(c: char) {
    c == ' ' || ('\t' <= c <= '\r') || c == '\U{FEFF}'
    || c == '\U{A0}' || c == '\U{1680}' || ('\U{2000}' <= c <= '\U{200A}')
    || c == '\U{2028}' || c == '\U{2029}' || c == '\U{202F}' || c == '\U{205F}' || c == '\U{3000}'
  }

  /** The two whitespace sets differ exactly on U+001C..U+001F, U+0085 and U+FEFF. */
  predicate WhitespaceAgrees(c: char) {
    IsPyWhitespace(c) == IsJsWhitespace(c)
  }

  lemma WhitespaceDifference(c: char)
    ensures !WhitespaceAgrees(c) <==> ('\U{1C}' <= c <= '\U{1F}') || c == '\U{85}' || c == '\U{FEFF}'
  {
  }

  /** Drops the leading characters that `ws` accepts. */
  function TrimStart(s: string, ws: char -> bool): (r: string)
    ensures |r| <= |s| && r == s[|s| - |r|..]
    ensures r != [] ==> !ws(r[0])
    ensures forall i :: 0 <= i < |s| - |r| ==> ws(s[i])
    decreases |s|
  {
    if s != [] && ws(s[0]) then TrimStart(s[1..], ws) else s
  }

  /** Drops the trailing characters that `ws` accepts. */
  function TrimEnd(s: string, ws: char -> bool): (r: string)
    ensures |r| <= |s| && r == s[..|r|]
    ensures r != [] ==> !ws(r[|r| - 1])
    ensures forall i :: |r| <= i < |s| ==> ws(s[i])
    decreases |s|
  {
    if s != [] && ws(s[|s| - 1]) then TrimEnd(s[..|s| - 1], ws) else s
  }

  /** `strip()` / `trim()` for the whitespace set `ws`. */
  function Strip(s: string, ws: char -> bool): (r: string)
    ensures r != [] ==> !ws(r[0]) && !ws(r[|r| - 1])
    decreases |s|
  {
    if s != [] && ws(s[0]) then Strip(s[1..], ws) else TrimEnd(s, ws)
  }

  /** Stripping trims the start, then the end. */
  lemma {:induction false} StripIsTrims(s: string, ws: char -> bool)
    ensures Strip(s, ws) == TrimEnd(TrimStart(s, ws), ws)
    decreases |s|
  {
    if s != [] && ws(s[0]) {
      StripIsTrims(s[1..], ws);
    }
  }

  /** `t` holds `u` starting at index `k`. */
  predicate OccursAt(t: string, u: string, k: nat) {
    k + |u| <= |t| && t[k..k + |u|] == u
  }

  ghost predicate IsSubstring(u: string, t: string) {
    exists k: nat :: OccursAt(t, u, k)
  }

  /** Stripping keeps a contiguous run of the input: what it returns occurs in it. */
  lemma StripIsSubstring(s: string, ws: char -> bool)
    ensures IsSubstring(Strip(s, ws), s)
  {
    StripIsTrims(s, ws);
    var a := TrimStart(s, ws);
    var r := TrimEnd(a, ws);
    var k := |s| - |a|;
    assert s[k..k + |r|] == a[..|r|];
    assert OccursAt(s, r, k);
  }

  /** A string with no whitespace at either end is its own strip. */
  lemma StripKeeps(s: string, ws: char -> bool)
    requires s != [] ==> !ws(s[0]) && !ws(s[|s| - 1])
    ensures Strip(s, ws) == s
  {
    StripIsTrims(s, ws);
  }

  /** Two whitespace sets that agree on every character of `s` strip it alike. */
  lemma {:induction false} StripAgrees(s: string, ws1: char -> bool, ws2: char -> bool)
    requires forall i :: 0 <= i < |s| ==> ws1(s[i]) == ws2(s[i])
    ensures Strip(s, ws1) == Strip(s, ws2)
    decreases |s|
  {
    if s != [] && ws1(s[0]) {
      StripAgrees(s[1..], ws1, ws2);
    } else {
      TrimEndAgrees(s, ws1, ws2);
    }
  }

  lemma {:induction false} TrimEndAgrees(s: string, ws1: char -> bool, ws2: char -> bool)
    requires forall i :: 0 <= i < |s| ==> ws1(s[i]) == ws2(s[i])
    ensures TrimEnd(s, ws1) == TrimEnd(s, ws2)
    decreases |s|
  {
    if s != [] && ws1(s[|s| - 1]) {
      TrimEndAgrees(s[..|s| - 1], ws1, ws2);
    }
  }

  /** ASCII upper-casing of one character, as `str.upper()` does on ASCII. */
  function UpperChar(c: char): char {
    if 'a' <= c <= 'z' then (c as int - 32) as char else c
  }

  function Upper(s: string): (r: string)
    ensures |r| == |s|
    ensures forall i :: 0 <= i < |s| ==> r[i] == UpperChar(s[i])
  {
    seq(|s|, i requires 0 <= i < |s| => UpperChar(s[i]))
  }

  /** `s.replace(c, sub)` for a one-character pattern: every `c` becomes `sub`. */
  function Replace(s: string, c: char, sub: string): string
    decreases |s|
  {
    if s == [] then [] else (if s[0] == c then sub else [s[0]]) + Replace(s[1..], c, sub)
  }

  /** Replacement on a one-character string. */
  lemma ReplaceOne(x: char, c: char, sub: string)
    ensures Replace([x], c, sub) == if x == c then sub else [x]
  {
    assert [x][1..] == [];
  }

  lemma {:induction false} ReplaceAppend(a: string, b: string, c: char, sub: string)
    ensures Replace(a + b, c, sub) == Replace(a, c, sub) + Replace(b, c, sub)
    decreases |a|
  {
    if a == [] {
      assert a + b == b;
    } else {
      assert (a + b)[1..] == a[1..] + b;
      ReplaceAppend(a[1..], b, c, sub);
    }
  }

  lemma {:induction false} ReplaceAbsent(s: string, c: char, sub: string)
    requires c !in s
    ensures Replace(s, c, sub) == s
    decreases |s|
  {
    if s != [] {
      assert s == [s[0]] + s[1..];
      ReplaceAbsent(s[1..], c, sub);
    }
  }

  /** One `.replace(from, to)` step of a chain. */
  datatype Rule = Rule(from: char, to: string)

  /** `s.replace(r0).replace(r1)...`: the first rule is applied first. */
  function ReplaceChain(s: string, rules: seq<Rule>): string
    decreases |rules|
  {
    if rules == [] then s else ReplaceChain(Replace(s, rules[0].from, rules[0].to), rules[1..])
  }

  lemma {:induction false} ReplaceChainAppend(a: string, b: string, rules: seq<Rule>)
    ensures ReplaceChain(a + b, rules) == ReplaceChain(a, rules) + ReplaceChain(b, rules)
    decreases |rules|
  {
    if rules != [] {
      ReplaceAppend(a, b, rules[0].from, rules[0].to);
      ReplaceChainAppend(Replace(a, rules[0].from, rules[0].to), Replace(b, rules[0].from, rules[0].to), rules[1..]);
    }
  }

  /** A chain of one-character replacements acts on each character separately. */
  lemma ReplaceChainCons(s: string, rules: seq<Rule>)
    requires s != []
    ensures ReplaceChain(s, rules) == ReplaceChain([s[0]], rules) + ReplaceChain(s[1..], rules)
  {
    assert s == [s[0]] + s[1..];
    ReplaceChainAppend([s[0]], s[1..], rules);
  }

  /** No pattern of the chain occurs in `s`: nothing changes. */
  lemma {:induction false} ReplaceChainAbsent(s: string, rules: seq<Rule>)
    requires forall i :: 0 <= i < |rules| ==> rules[i].from !in s
    ensures ReplaceChain(s, rules) == s
    decreases |rules|
  {
    if rules != [] {
      ReplaceAbsent(s, rules[0].from, rules[0].to);
      ReplaceChainAbsent(s, rules[1..]);
    }
  }

  /**
   * On one character, the chain yields the replacement of the first rule
   * for that character, provided no later rule touches that replacement.
   */
  lemma {:induction false} ReplaceChainHit(c: char, rules: seq<Rule>, k: nat)
    requires k < |rules| && rules[k].from == c
    requires forall j :: 0 <= j < k ==> rules[j].from != c
    requires forall j :: k < j < |rules| ==> rules[j].from !in rules[k].to
    ensures ReplaceChain([c], rules) == rules[k].to
    decreases |rules|
  {
    ReplaceOne(c, rules[0].from, rules[0].to);
    if k == 0 {
      assert forall i :: 0 <= i < |rules[1..]| ==> rules[1..][i] == rules[i + 1];
      ReplaceChainAbsent(rules[0].to, rules[1..]);
    } else {
      assert rules[1..][k - 1] == rules[k];
      ReplaceChainHit(c, rules[1..], k - 1);
    }
  }

  /** A shorter string occurring in `b` occurs in `a + b`, shifted by `|a|`. */
  lemma OccursAtShift(a: string, b: string, u: string, i: nat)
    requires OccursAt(b, u, i)
    ensures OccursAt(a + b, u, |a| + i)
  {
    assert (a + b)[|a| + i..|a| + i + |u|] == b[i..i + |u|];
  }

  /** An occurrence in `a` is also one in `a + b`. */
  lemma OccursAtExtend(a: string, b: string, u: string, i: nat)
    requires OccursAt(a, u, i)
    ensures OccursAt(a + b, u, i)
  {
    assert (a + b)[i..i + |u|] == a[i..i + |u|];
  }
}

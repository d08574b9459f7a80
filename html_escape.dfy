/**
 * `escapeHtml`: the dashboard's chain of five `replaceAll` calls that turns
 * the characters `& < > " '` into character references (section 13.1.4 of
 * the WHATWG HTML Living Standard) before text is placed in markup. Its
 * partners are the per-character escape it amounts to and a decoder that
 * accepts only those five references.
 */
module HtmlEscape {
  import opened Wrappers
  import opened Text

  /** Ampersand first, then `<`, `>`, `"` and `'`. */
  const HtmlRules: seq<Rule> := [
    Rule('&', "&amp;"), Rule('<', "&lt;"), Rule('>', "&gt;"), Rule('"', "&quot;"), Rule('\'', "&#039;")
  ]

  /** `escapeHtml(s)`. */
  function EscapeHtml(s: string): string {
    ReplaceChain(s, HtmlRules)
  }

  predicate IsHtmlSpecial(c: char) {
    c == '&' || c == '<' || c == '>' || c == '"' || c == '\''
  }

  /** `t` has one of the five references at index `i`. */
  predicate StartsReference(t: string, i: nat) {
    OccursAt(t, "&amp;", i) || OccursAt(t, "&lt;", i) || OccursAt(t, "&gt;", i)
    || OccursAt(t, "&quot;", i) || OccursAt(t, "&#039;", i)
  }

  /** The reference one character receives. */
  function HtmlEscapeChar(c: char): (r: string)
    ensures IsHtmlSpecial(c) ==> StartsReference(r, 0) && |r| >= 4
    ensures !IsHtmlSpecial(c) ==> r == [c]
    ensures forall i :: 0 <= i < |r| ==> r[i] != '<' && r[i] != '>' && r[i] != '"' && r[i] != '\''
    ensures forall i :: 0 < i < |r| ==> r[i] != '&'
  {
    match c
    case '&' => "&amp;"
    case '<' => "&lt;"
    case '>' => "&gt;"
    case '"' => "&quot;"
    case '\'' => "&#039;"
    case _ => [c]
  }

  /** Escaping character by character. */
  function HtmlEscapeEach(s: string): (r: string)
    ensures |r| >= |s|
    ensures forall i :: 0 <= i < |r| ==> r[i] != '<' && r[i] != '>' && r[i] != '"' && r[i] != '\''
    decreases |s|
  {
    if s == [] then [] else HtmlEscapeChar(s[0]) + HtmlEscapeEach(s[1..])
  }

  /** The chain applied to one character gives that character's reference. */
  lemma HtmlCharIsChain(c: char)
    ensures ReplaceChain([c], HtmlRules) == HtmlEscapeChar(c)
  {
    match c
    case '&' => ReplaceChainHit(c, HtmlRules, 0);
    case '<' => ReplaceChainHit(c, HtmlRules, 1);
    case '>' => ReplaceChainHit(c, HtmlRules, 2);
    case '"' => ReplaceChainHit(c, HtmlRules, 3);
    case '\'' => ReplaceChainHit(c, HtmlRules, 4);
    case _ => ReplaceChainAbsent([c], HtmlRules);
  }

  /**
   * Because `&` is replaced first, no later step rewrites an ampersand an
   * earlier one inserted: the chain is a per-character escape.
   */
  lemma {:induction false} EscapeHtmlPerChar(s: string)
    ensures EscapeHtml(s) == HtmlEscapeEach(s)
    decreases |s|
  {
    if s != [] {
      ReplaceChainCons(s, HtmlRules);
      HtmlCharIsChain(s[0]);
      EscapeHtmlPerChar(s[1..]);
    }
  }

  /** The output holds no raw `<`, `>`, `"` or `'`. */
  lemma EscapeHtmlNoRawSpecials(s: string)
    ensures forall i :: 0 <= i < |EscapeHtml(s)| ==> EscapeHtml(s)[i] !in "<>\"'"
  {
    EscapeHtmlPerChar(s);
  }

  lemma ReferenceShifts(a: string, b: string, i: nat)
    requires StartsReference(b, i)
    ensures StartsReference(a + b, |a| + i)
  {
    if OccursAt(b, "&amp;", i) { OccursAtShift(a, b, "&amp;", i); }
    else if OccursAt(b, "&lt;", i) { OccursAtShift(a, b, "&lt;", i); }
    else if OccursAt(b, "&gt;", i) { OccursAtShift(a, b, "&gt;", i); }
    else if OccursAt(b, "&quot;", i) { OccursAtShift(a, b, "&quot;", i); }
    else { OccursAtShift(a, b, "&#039;", i); }
  }

  lemma ReferenceExtends(a: string, b: string, i: nat)
    requires StartsReference(a, i)
    ensures StartsReference(a + b, i)
  {
    if OccursAt(a, "&amp;", i) { OccursAtExtend(a, b, "&amp;", i); }
    else if OccursAt(a, "&lt;", i) { OccursAtExtend(a, b, "&lt;", i); }
    else if OccursAt(a, "&gt;", i) { OccursAtExtend(a, b, "&gt;", i); }
    else if OccursAt(a, "&quot;", i) { OccursAtExtend(a, b, "&quot;", i); }
    else { OccursAtExtend(a, b, "&#039;", i); }
  }

  /** Every `&` in the output starts one of the five references. */
  lemma {:induction false} EveryAmpersandStartsReference(s: string)
    ensures forall i: nat :: i < |EscapeHtml(s)| && EscapeHtml(s)[i] == '&' ==> StartsReference(EscapeHtml(s), i)
  {
    EscapeHtmlPerChar(s);
    EachAmpersandStartsReference(s);
  }

  lemma {:induction false} EachAmpersandStartsReference(s: string)
    ensures forall i: nat :: i < |HtmlEscapeEach(s)| && HtmlEscapeEach(s)[i] == '&' ==> StartsReference(HtmlEscapeEach(s), i)
    decreases |s|
  {
    if s != [] {
      var head := HtmlEscapeChar(s[0]);
      var rest := HtmlEscapeEach(s[1..]);
      var t := HtmlEscapeEach(s);
      assert t == head + rest;
      EachAmpersandStartsReference(s[1..]);
      forall i: nat | i < |t| && t[i] == '&' ensures StartsReference(t, i) {
        if i < |head| {
          assert head[i] == '&';
          assert i == 0 && IsHtmlSpecial(s[0]);
          ReferenceExtends(head, rest, 0);
        } else {
          assert rest[i - |head|] == '&';
          ReferenceShifts(head, rest, i - |head|);
        }
      }
    }
  }

  /**
   * The reference at the start of `t`, as the character it stands for and
   * its length; the five references differ in their second character.
   */
  function ReferenceAt(t: string): Option<(char, nat)> {
    if |t| < 2 then None
    else match t[1]
      case 'a' => if OccursAt(t, "&amp;", 0) then Some(('&', 5)) else None
      case 'l' => if OccursAt(t, "&lt;", 0) then Some(('<', 4)) else None
      case 'g' => if OccursAt(t, "&gt;", 0) then Some(('>', 4)) else None
      case 'q' => if OccursAt(t, "&quot;", 0) then Some(('"', 6)) else None
      case '#' => if OccursAt(t, "&#039;", 0) then Some(('\'', 6)) else None
      case _ => None
  }

  /**
   * Decodes the five references and nothing else: a raw `<`, `>`, `"` or
   * `'`, or an `&` that does not start one of the five, is refused.
   */
  function DecodeHtml(t: string): Option<string>
    decreases |t|
  {
    if t == [] then Some([])
    else if t[0] in "<>\"'" then None
    else if t[0] == '&' then
      match ReferenceAt(t)
      case Some((c, n)) => if n <= |t| then Prepend(c, DecodeHtml(t[n..])) else None
      case None => None
    else Prepend(t[0], DecodeHtml(t[1..]))
  }

  /** A reference followed by anything is read as that reference. */
  lemma ReferenceAtEscape(c: char, rest: string)
    requires IsHtmlSpecial(c)
    ensures ReferenceAt(HtmlEscapeChar(c) + rest) == Some((c, |HtmlEscapeChar(c)|))
  {
    var h := HtmlEscapeChar(c);
    var t := h + rest;
    assert t[1] == h[1];
    OccursAtExtend(h, rest, h, 0);
  }

  /** Decoding the output of `escapeHtml` returns its input. */
  lemma DecodeEscapeHtml(s: string)
    ensures DecodeHtml(EscapeHtml(s)) == Some(s)
  {
    EscapeHtmlPerChar(s);
    DecodeEscapeEach(s);
  }

  lemma {:induction false} DecodeEscapeEach(s: string)
    ensures DecodeHtml(HtmlEscapeEach(s)) == Some(s)
    decreases |s|
  {
    if s != [] {
      var c := s[0];
      var h := HtmlEscapeChar(c);
      var rest := HtmlEscapeEach(s[1..]);
      var t := HtmlEscapeEach(s);
      assert t == h + rest;
      DecodeEscapeEach(s[1..]);
      if IsHtmlSpecial(c) {
        ReferenceAtEscape(c, rest);
        assert t[|h|..] == rest;
      } else {
        assert t[1..] == rest;
      }
      assert s == [c] + s[1..];
    }
  }

  /** Text without any of the five characters is left as it is. */
  lemma EscapeHtmlIdentity(s: string)
    requires forall i :: 0 <= i < |s| ==> !IsHtmlSpecial(s[i])
    ensures EscapeHtml(s) == s
  {
    assert forall i :: 0 <= i < |HtmlRules| ==> HtmlRules[i].from !in s;
    ReplaceChainAbsent(s, HtmlRules);
  }
}

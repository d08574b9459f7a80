/**
 * `escape_json`: the chain of five `replace` calls the backend applies to an
 * exception's text before splicing it into a hand-built JSON string. Its
 * partners are the per-character escape it amounts to, the decoder of those
 * five escapes, and a decoder of JSON string contents as section 7 of
 * RFC 8259 defines them.
 */
module JsonEscape {
  import opened Wrappers
  import opened Text

  /** Backslash first, then quote, newline, carriage return and tab. */
  const JsonRules: seq<Rule> := [
    Rule('\\', "\\\\"), Rule('"', "\\\""), Rule('\n', "\\n"), Rule('\r', "\\r"), Rule('\t', "\\t")
  ]

  /** `escape_json(s)`. */
  function EscapeJson(s: string): string {
    ReplaceChain(s, JsonRules)
  }

  /** The escape one character receives. */
  function EscapeChar(c: char): (r: string)
    ensures c in "\\\"\n\r\t" ==> |r| == 2 && r[0] == '\\' && r[1] in "\\\"nrt"
    ensures c !in "\\\"\n\r\t" ==> r == [c]
  {
    match c
    case '\\' => "\\\\"
    case '"' => "\\\""
    case '\n' => "\\n"
    case '\r' => "\\r"
    case '\t' => "\\t"
    case _ => [c]
  }

  /** Escaping character by character. */
  function EscapeEach(s: string): (r: string)
    ensures |r| >= |s|
    ensures forall i :: 0 <= i < |r| ==> r[i] != '\n' && r[i] != '\r' && r[i] != '\t'
    decreases |s|
  {
    if s == [] then [] else EscapeChar(s[0]) + EscapeEach(s[1..])
  }

  lemma {:induction false} EscapeEachAppend(a: string, b: string)
    ensures EscapeEach(a + b) == EscapeEach(a) + EscapeEach(b)
    decreases |a|
  {
    if a == [] {
      assert a + b == b;
    } else {
      assert (a + b)[1..] == a[1..] + b;
      EscapeEachAppend(a[1..], b);
    }
  }

  /** The chain applied to one character gives that character's escape. */
  lemma EscapeCharIsChain(c: char)
    ensures ReplaceChain([c], JsonRules) == EscapeChar(c)
  {
    match c
    case '\\' => ReplaceChainHit(c, JsonRules, 0);
    case '"' => ReplaceChainHit(c, JsonRules, 1);
    case '\n' => ReplaceChainHit(c, JsonRules, 2);
    case '\r' => ReplaceChainHit(c, JsonRules, 3);
    case '\t' => ReplaceChainHit(c, JsonRules, 4);
    case _ => ReplaceChainAbsent([c], JsonRules);
  }

  /**
   * Because the backslash is replaced first, no later step rewrites a
   * backslash an earlier one inserted: the chain is a per-character escape.
   */
  lemma {:induction false} EscapeJsonPerChar(s: string)
    ensures EscapeJson(s) == EscapeEach(s)
    decreases |s|
  {
    if s != [] {
      ReplaceChainCons(s, JsonRules);
      EscapeCharIsChain(s[0]);
      EscapeJsonPerChar(s[1..]);
    }
  }

  /** The character a two-character escape `\x` stands for, of the five `escape_json` writes. */
  function UnescapeChar(x: char): Option<char> {
    match x
    case '\\' => Some('\\')
    case '"' => Some('"')
    case 'n' => Some('\n')
    case 'r' => Some('\r')
    case 't' => Some('\t')
    case _ => None
  }

  /**
   * Reads back the five escapes. It fails when a `"` stands alone or a `\`
   * does not start one of the five pairs; every other character is kept.
   */
  function Unescape(t: string): Option<string>
    decreases |t|
  {
    if t == [] then Some([])
    else if t[0] == '"' then None
    else if t[0] == '\\' then
      if |t| < 2 then None
      else match UnescapeChar(t[1])
        case Some(c) => Prepend(c, Unescape(t[2..]))
        case None => None
    else Prepend(t[0], Unescape(t[1..]))
  }

  /**
   * Unescaping the output of `escape_json` returns its input: every `"` and
   * `\` in the output belongs to an escape pair.
   */
  lemma {:induction false} UnescapeEscapeJson(s: string)
    ensures Unescape(EscapeJson(s)) == Some(s)
  {
    EscapeJsonPerChar(s);
    UnescapeEscapeEach(s);
  }

  /** One escaped character, then anything: read back as that character. */
  lemma UnescapeEscapedChar(c: char, rest: string)
    ensures Unescape(EscapeChar(c) + rest) == Prepend(c, Unescape(rest))
  {
    var t := EscapeChar(c) + rest;
    if c in "\\\"\n\r\t" {
      assert t[2..] == rest;
    } else {
      assert t[1..] == rest;
    }
  }

  lemma {:induction false} UnescapeEscapeEach(s: string)
    ensures Unescape(EscapeEach(s)) == Some(s)
    decreases |s|
  {
    if s != [] {
      UnescapeEscapeEach(s[1..]);
      UnescapeEscapedChar(s[0], EscapeEach(s[1..]));
      assert s == [s[0]] + s[1..];
    }
  }

  /** The output holds no raw newline, carriage return or tab. */
  lemma EscapeJsonNoRawBreaks(s: string)
    ensures forall i :: 0 <= i < |EscapeJson(s)| ==>
      EscapeJson(s)[i] != '\n' && EscapeJson(s)[i] != '\r' && EscapeJson(s)[i] != '\t'
  {
    EscapeJsonPerChar(s);
  }

  /** U+0000..U+001F other than newline, carriage return and tab: left raw by `escape_json`. */
  predicate IsOtherControl(c: char) {
    c < ' ' && c != '\n' && c != '\r' && c != '\t'
  }

  predicate NoOtherControls(s: string) {
    forall i :: 0 <= i < |s| ==> !IsOtherControl(s[i])
  }

  /** Characters other than the three it escapes pass through unchanged. */
  lemma OtherControlsPassThrough(s: string, i: nat)
    requires i < |s| && IsOtherControl(s[i])
    ensures s[i] in EscapeJson(s)
  {
    var a := EscapeEach(s[..i]);
    var b := EscapeEach(s[i..]);
    EscapeJsonPerChar(s);
    assert s == s[..i] + s[i..];
    EscapeEachAppend(s[..i], s[i..]);
    assert EscapeJson(s) == a + b;
    assert s[i..][0] == s[i] && EscapeChar(s[i]) == [s[i]];
    assert b[0] == s[i];
    assert (a + b)[|a|] == s[i];
  }

  /** Value of a hexadecimal digit. */
  function HexDigit(c: char): Option<nat> {
    if '0' <= c <= '9' then Some(c as nat - '0' as nat)
    else if 'a' <= c <= 'f' then Some(c as nat - 'a' as nat + 10)
    else if 'A' <= c <= 'F' then Some(c as nat - 'A' as nat + 10)
    else None
  }

  /** The code unit written by the four digits of a `\uXXXX` escape. */
  function Hex4(h: string): (r: Option<nat>)
    requires |h| == 4
    ensures r.Some? ==> r.value < 0x1_0000
  {
    match (HexDigit(h[0]), HexDigit(h[1]), HexDigit(h[2]), HexDigit(h[3]))
    case (Some(a), Some(b), Some(c), Some(d)) =>
      assert a < 16 && b < 16 && c < 16 && d < 16;
      Some(((a * 16 + b) * 16 + c) * 16 + d)
    case _ => None
  }

  /** The escapes of section 7 of RFC 8259 other than `\u`. */
  function JsonShortEscape(x: char): Option<char> {
    match x
    case '"' => Some('"')
    case '\\' => Some('\\')
    case '/' => Some('/')
    case 'b' => Some('\U{8}')
    case 'f' => Some('\U{C}')
    case 'n' => Some('\n')
    case 'r' => Some('\r')
    case 't' => Some('\t')
    case _ => None
  }

  /**
   * The contents of a JSON string, decoded as section 7 of RFC 8259 reads
   * them: a raw `"`, a raw U+0000..U+001F or a malformed escape makes the
   * string invalid. `\u` escapes of UTF-16 surrogates are not decoded.
   */
  function DecodeJsonString(t: string): Option<string>
    decreases |t|
  {
    if t == [] then Some([])
    else if t[0] == '\\' then
      if |t| < 2 then None
      else if t[1] == 'u' then
        if |t| < 6 then None
        else match Hex4(t[2..6])
          case Some(n) =>
            if 0xD800 <= n < 0xE000 then None else Prepend(n as char, DecodeJsonString(t[6..]))
          case None => None
      else match JsonShortEscape(t[1])
        case Some(c) => Prepend(c, DecodeJsonString(t[2..]))
        case None => None
    else if t[0] == '"' || t[0] < ' ' then None
    else Prepend(t[0], DecodeJsonString(t[1..]))
  }

  /**
   * `escape_json` yields valid JSON string contents exactly when its input
   * has no control character other than newline, carriage return and tab,
   * and then the contents decode to the input.
   */
  lemma DecodeEscapeJson(s: string)
    ensures DecodeJsonString(EscapeJson(s)) == if NoOtherControls(s) then Some(s) else None
  {
    EscapeJsonPerChar(s);
    DecodeEscapeEach(s);
  }

  /** The second character of each two-character escape reads back, under section 7 of RFC 8259, as the escaped character. */
  lemma ShortEscapeInverts(c: char)
    requires c in "\\\"\n\r\t"
    ensures EscapeChar(c) == ['\\', EscapeChar(c)[1]] && JsonShortEscape(EscapeChar(c)[1]) == Some(c)
  {
  }

  /** One escaped character, then anything: decoded as that character unless it is another control character. */
  lemma DecodeEscapedChar(c: char, rest: string)
    ensures DecodeJsonString(EscapeChar(c) + rest)
      == if IsOtherControl(c) then None else Prepend(c, DecodeJsonString(rest))
  {
    var t := EscapeChar(c) + rest;
    if c in "\\\"\n\r\t" {
      ShortEscapeInverts(c);
      assert t[0] == '\\' && t[1] != 'u' && t[2..] == rest;
    } else {
      assert t[0] == c && t[1..] == rest;
    }
  }

  lemma {:induction false} DecodeEscapeEach(s: string)
    ensures DecodeJsonString(EscapeEach(s)) == if NoOtherControls(s) then Some(s) else None
    decreases |s|
  {
    if s != [] {
      var c := s[0];
      DecodeEscapeEach(s[1..]);
      DecodeEscapedChar(c, EscapeEach(s[1..]));
      assert NoOtherControls(s) <==> !IsOtherControl(c) && NoOtherControls(s[1..]) by {
        assert forall i :: 0 < i < |s| ==> s[i] == s[1..][i - 1];
      }
      assert s == [c] + s[1..];
    }
  }

  /** Plain text (no quote, backslash or control character) is its own escape. */
  lemma {:induction false} EscapeEachPlain(s: string)
    requires IsPlain(s)
    ensures EscapeEach(s) == s
    decreases |s|
  {
    if s != [] {
      EscapeEachPlain(s[1..]);
    }
  }

  /** Text with no quote, backslash or control character. */
  predicate IsPlain(p: string) {
    forall i :: 0 <= i < |p| ==> p[i] >= ' ' && p[i] != '"' && p[i] != '\\'
  }

  /**
   * Plain text followed by escaped text: the contents are valid JSON exactly
   * when the escaped part has no control character other than newline,
   * carriage return and tab, and then they read back as the two parts.
   */
  lemma PlainThenEscaped(p: string, e: string)
    requires IsPlain(p)
    ensures DecodeJsonString(p + EscapeJson(e)) == if NoOtherControls(e) then Some(p + e) else None
  {
    EscapeEachPlain(p);
    EscapeJsonPerChar(e);
    EscapeEachAppend(p, e);
    DecodeEscapeEach(p + e);
    PlainNoControls(p, e);
  }

  /** `Prepend` for a reader's result: the decoded contents and what follows the closing quote. */
  function PrependRead(c: char, r: Option<(string, string)>): (q: Option<(string, string)>)
    ensures q.Some? <==> r.Some?
    ensures q.Some? ==> q.value == ([c] + r.value.0, r.value.1)
  {
    match r
    case Some((u, rest)) => Some(([c] + u, rest))
    case None => None
  }

  /**
   * A JSON reader inside a string, just after its opening quote: the
   * decoded contents up to the closing `"` and the text after it, or None
   * when the string is malformed or never closed.
   */
  function ReadJsonString(t: string): Option<(string, string)>
    decreases |t|
  {
    if t == [] then None
    else if t[0] == '"' then Some(([], t[1..]))
    else if t[0] == '\\' then
      if |t| < 2 then None
      else if t[1] == 'u' then
        if |t| < 6 then None
        else match Hex4(t[2..6])
          case Some(n) =>
            if 0xD800 <= n < 0xE000 then None else PrependRead(n as char, ReadJsonString(t[6..]))
          case None => None
      else match JsonShortEscape(t[1])
        case Some(c) => PrependRead(c, ReadJsonString(t[2..]))
        case None => None
    else if t[0] < ' ' then None
    else PrependRead(t[0], ReadJsonString(t[1..]))
  }

  /** One escaped character, then anything: read as that character unless it is another control character. */
  lemma ReadEscapedChar(c: char, rest: string)
    ensures ReadJsonString(EscapeChar(c) + rest)
      == if IsOtherControl(c) then None else PrependRead(c, ReadJsonString(rest))
  {
    var t := EscapeChar(c) + rest;
    if c in "\\\"\n\r\t" {
      ShortEscapeInverts(c);
      assert t[0] == '\\' && t[1] != 'u' && t[2..] == rest;
    } else {
      assert t[0] == c && t[1..] == rest;
    }
  }

  /**
   * Escaped text followed by a quote: the reader stops exactly at that
   * quote, with the text as its contents, unless the text holds another
   * control character, which makes the string malformed.
   */
  lemma {:induction false} ReadEscapeEach(s: string, r: string)
    ensures ReadJsonString(EscapeEach(s) + "\"" + r) == if NoOtherControls(s) then Some((s, r)) else None
    decreases |s|
  {
    if s == [] {
      assert EscapeEach(s) + "\"" + r == ['"'] + r;
    } else {
      var c := s[0];
      ReadEscapeEach(s[1..], r);
      assert EscapeEach(s) + "\"" + r == EscapeChar(c) + (EscapeEach(s[1..]) + "\"" + r);
      ReadEscapedChar(c, EscapeEach(s[1..]) + "\"" + r);
      assert NoOtherControls(s) <==> !IsOtherControl(c) && NoOtherControls(s[1..]) by {
        assert forall i :: 0 < i < |s| ==> s[i] == s[1..][i - 1];
      }
      assert s == [c] + s[1..];
    }
  }

  /** A plain prefix does not change whether the rest has another control character. */
  lemma PlainNoControls(p: string, e: string)
    requires IsPlain(p)
    ensures NoOtherControls(p + e) <==> NoOtherControls(e)
  {
    assert forall i :: 0 <= i < |e| ==> (p + e)[|p| + i] == e[i];
    assert forall i :: 0 <= i < |p| ==> (p + e)[i] == p[i] && !IsOtherControl(p[i]);
  }

  /** Plain text, then escaped text, then a quote: read as the two texts under the same condition, stopping at the quote. */
  lemma PlainThenEscapedRead(p: string, e: string, after: string)
    requires IsPlain(p)
    ensures ReadJsonString(p + EscapeJson(e) + "\"" + after)
      == if NoOtherControls(e) then Some((p + e, after)) else None
  {
    EscapeEachPlain(p);
    EscapeJsonPerChar(e);
    EscapeEachAppend(p, e);
    PlainNoControls(p, e);
    ReadEscapeEach(p + e, after);
  }

  /** The prefix the backend puts before the escaped exception text. */
  const BackendErrorPrefix: string := "[Backend error] "

  /**
   * The `text` field of the error notice reads back as the prefix and the
   * exception text whenever that text has no stray control character.
   */
  lemma ErrorTextField(e: string)
    ensures DecodeJsonString(BackendErrorPrefix + EscapeJson(e))
      == if NoOtherControls(e) then Some(BackendErrorPrefix + e) else None
  {
    PlainThenEscaped(BackendErrorPrefix, e);
  }
}

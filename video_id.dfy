/**
 * Extraction of an 11-character YouTube video identifier from a free-form
 * stream reference. The backend (`extract_video_id`) and the dashboard
 * (`extractVideoId`) run the same matcher on the stripped input: a bare
 * identifier first, then `v=`, `youtu.be/` and `live/`, each searched for
 * its leftmost occurrence followed by eleven identifier characters. They
 * differ only in which whitespace they strip and in the dashboard's
 * treatment of a missing input.
 */
module VideoId {
  import opened Wrappers
  import opened Text

  const IdLength: nat := 11

  /** The full match of `[a-zA-Z0-9_-]{11}`. */
  predicate IsId(t: string) {
    |t| == IdLength && forall i :: 0 <= i < |t| ==> IsIdChar(t[i])
  }

  /** The literal prefixes of the three URL patterns, in the order they are tried. */
  const Patterns: seq<string> := ["v=", "youtu.be/", "live/"]

  /** `prefix([a-zA-Z0-9_-]{11})` matches in `t` at index `k`. */
  predicate MatchAt(t: string, prefix: string, k: nat) {
    k + |prefix| + IdLength <= |t| && t[k..k + |prefix|] == prefix
    && IsId(t[k + |prefix|..k + |prefix| + IdLength])
  }

  /** The captured group of a match at `k`. */
  function Group(t: string, prefix: string, k: nat): string
    requires MatchAt(t, prefix, k)
  {
    t[k + |prefix|..k + |prefix| + IdLength]
  }

  /** `re.search` / `String.prototype.match`: the leftmost match at or after `from`. */
  function Search(t: string, prefix: string, from: nat): (r: Option<nat>)
    ensures r.Some? ==> from <= r.value && MatchAt(t, prefix, r.value)
    ensures r.Some? ==> forall k: nat :: from <= k < r.value ==> !MatchAt(t, prefix, k)
    ensures r.None? ==> forall k: nat :: from <= k ==> !MatchAt(t, prefix, k)
    decreases |t| - from
  {
    if from + |prefix| + IdLength > |t| then None
    else if MatchAt(t, prefix, from) then Some(from)
    else Search(t, prefix, from + 1)
  }

  /**
   * Pattern `j` of `pats` is the first pattern that matches anywhere in `t`,
   * and `k` is its leftmost match.
   */
  ghost predicate FirstMatch(t: string, pats: seq<string>, j: nat, k: nat) {
    j < |pats| && MatchAt(t, pats[j], k)
    && (forall j': nat, k': nat :: j' < j && MatchAt(t, pats[j'], k') ==> false)
    && (forall k': nat :: k' < k ==> !MatchAt(t, pats[j], k'))
  }

  /** The loop over the pattern list: return the group of the first pattern that hits. */
  function FirstHit(t: string, pats: seq<string>): (r: Option<string>)
    ensures r.Some? ==> IsId(r.value) && IsSubstring(r.value, t)
    decreases |pats|
  {
    if pats == [] then None
    else match Search(t, pats[0], 0)
      case Some(k) =>
        assert OccursAt(t, Group(t, pats[0], k), k + |pats[0]|);
        Some(Group(t, pats[0], k))
      case None => FirstHit(t, pats[1..])
  }

  /**
   * `FirstHit` returns nothing exactly when no pattern matches, and otherwise
   * the group of the leftmost match of the first pattern that matches.
   */
  lemma {:induction false} FirstHitSpec(t: string, pats: seq<string>)
    ensures FirstHit(t, pats).None? <==> forall j: nat, k: nat :: j < |pats| ==> !MatchAt(t, pats[j], k)
    ensures FirstHit(t, pats).Some? ==>
      exists j: nat, k: nat :: FirstMatch(t, pats, j, k) && FirstHit(t, pats).value == Group(t, pats[j], k)
    decreases |pats|
  {
    if pats != [] {
      match Search(t, pats[0], 0)
      case Some(k) =>
        assert FirstMatch(t, pats, 0, k);
      case None =>
        FirstHitSpec(t, pats[1..]);
        var r := FirstHit(t, pats[1..]);
        assert forall j :: 0 < j < |pats| ==> pats[j] == pats[1..][j - 1];
        if r.Some? {
          var j: nat, k: nat :| FirstMatch(t, pats[1..], j, k) && r.value == Group(t, pats[1..][j], k);
          assert FirstMatch(t, pats, j + 1, k);
        } else {
          forall j: nat, k: nat | j < |pats| ensures !MatchAt(t, pats[j], k) {
            if j > 0 {
              assert !MatchAt(t, pats[1..][j - 1], k);
            }
          }
        }
    }
  }

  /**
   * The matcher both extractors run on the stripped input: a full match of
   * the whole string first, then the patterns in order.
   */
  function ExtractFromStripped(t: string): (r: Option<string>)
    ensures IsId(t) ==> r == Some(t)
    ensures r.Some? ==> IsId(r.value) && IsSubstring(r.value, t)
  {
    if IsId(t) then
      assert OccursAt(t, t, 0);
      Some(t)
    else
      FirstHit(t, Patterns)
  }

  /**
   * The order of the attempts: a bare identifier wins; otherwise the result
   * is `None` exactly when no pattern matches anywhere, and else the group of
   * the leftmost match of the first of `v=`, `youtu.be/`, `live/` that matches.
   */
  lemma ExtractOrder(t: string)
    ensures !IsId(t) ==>
      (ExtractFromStripped(t).None? <==> forall j: nat, k: nat :: j < |Patterns| ==> !MatchAt(t, Patterns[j], k))
    ensures !IsId(t) && ExtractFromStripped(t).Some? ==>
      exists j: nat, k: nat :: FirstMatch(t, Patterns, j, k) && ExtractFromStripped(t).value == Group(t, Patterns[j], k)
  {
    FirstHitSpec(t, Patterns);
  }

  /** `extract_video_id` in the backend. */
  function ExtractVideoId(s: string): (r: Option<string>)
    ensures r.Some? ==> IsId(r.value) && IsSubstring(r.value, Strip(s, IsPyWhitespace))
  {
    ExtractFromStripped(Strip(s, IsPyWhitespace))
  }

  /** `extractVideoId` in the dashboard; `None` stands for `null` or `undefined`. */
  function JsExtractVideoId(input: Option<string>): (r: Option<string>)
    ensures input.None? ==> r.None?
    ensures r.Some? ==> IsId(r.value) && IsSubstring(r.value, Strip(input.GetOr(""), IsJsWhitespace))
  {
    assert input.None? ==> Strip(input.GetOr(""), IsJsWhitespace) == "";
    EmptyHasNoId();
    ExtractFromStripped(Strip(input.GetOr(""), IsJsWhitespace))
  }

  /** The empty reference yields no identifier. */
  lemma EmptyHasNoId()
    ensures ExtractFromStripped("") == None
  {
    ExtractOrder("");
  }

  /** An identifier character is never whitespace, for either runtime. */
  lemma IdCharNotWhitespace(c: char)
    requires IsIdChar(c)
    ensures !IsPyWhitespace(c) && !IsJsWhitespace(c)
  {
  }

  /** A bare identifier is its own strip, and the full-match branch returns it. */
  lemma BareIdExtracts(id: string)
    requires IsId(id)
    ensures Strip(id, IsPyWhitespace) == id && ExtractVideoId(id) == Some(id)
  {
    IdCharNotWhitespace(id[0]);
    IdCharNotWhitespace(id[|id| - 1]);
    StripKeeps(id, IsPyWhitespace);
  }

  /** Every identifier the backend extracts is extracted again, unchanged, by the full-match branch. */
  lemma ExtractFixedPoint(s: string)
    requires ExtractVideoId(s).Some?
    ensures var id := ExtractVideoId(s).value; Strip(id, IsPyWhitespace) == id && ExtractVideoId(id) == Some(id)
  {
    BareIdExtracts(ExtractVideoId(s).value);
  }

  /** The same holds for the dashboard's extractor. */
  lemma JsExtractFixedPoint(input: Option<string>)
    requires JsExtractVideoId(input).Some?
    ensures var id := JsExtractVideoId(input).value; JsExtractVideoId(Some(id)) == Some(id)
  {
    var id := JsExtractVideoId(input).value;
    IdCharNotWhitespace(id[0]);
    IdCharNotWhitespace(id[|id| - 1]);
    StripKeeps(id, IsJsWhitespace);
  }

  /**
   * The dashboard's extractor mirrors the backend's on every input that
   * holds none of the characters on which `strip()` and `trim()` disagree
   * (U+001C..U+001F, U+0085, U+FEFF).
   */
  lemma JsMirrorsBackend(s: string)
    requires forall i :: 0 <= i < |s| ==> WhitespaceAgrees(s[i])
    ensures JsExtractVideoId(Some(s)) == ExtractVideoId(s)
  {
    StripAgrees(s, IsPyWhitespace, IsJsWhitespace);
  }

  /** A leading byte-order mark is trimmed by the dashboard but not stripped by the backend. */
  lemma MirrorDiffersOnByteOrderMark()
    ensures JsExtractVideoId(Some("\U{FEFF}dQw4w9WgXcQ")) == Some("dQw4w9WgXcQ")
    ensures ExtractVideoId("\U{FEFF}dQw4w9WgXcQ") == None
  {
    var id := "dQw4w9WgXcQ";
    var s := "\U{FEFF}" + id;
    assert s[1..] == id;
    assert IsId(id);
    IdCharNotWhitespace(id[0]);
    IdCharNotWhitespace(id[10]);
    StripKeeps(id, IsJsWhitespace);
    assert Strip(s, IsJsWhitespace) == id;
    assert !IsPyWhitespace(s[0]);
    StripKeeps(s, IsPyWhitespace);
    NoMatchInTwelve(s);
  }

  /** Twelve characters are too few for any of the URL patterns. */
  lemma NoMatchInTwelve(s: string)
    requires |s| == 12 && !IsId(s)
    ensures ExtractFromStripped(s) == None
  {
    ExtractOrder(s);
  }

  /** A bare identifier is returned as it is. */
  lemma BareIdExample()
    ensures ExtractVideoId("dQw4w9WgXcQ") == Some("dQw4w9WgXcQ")
  {
    var id := "dQw4w9WgXcQ";
    assert IsId(id);
    IdCharNotWhitespace(id[0]);
    IdCharNotWhitespace(id[10]);
    StripKeeps(id, IsPyWhitespace);
  }

  /** The short-link form of any identifier is matched by the `youtu.be/` pattern. */
  lemma ShortLinkExtract(id: string)
    requires IsId(id)
    ensures ExtractVideoId("https://youtu.be/" + id) == Some(id)
  {
    var a := "https://youtu.be/";
    var t := a + id;
    assert '=' !in a && 'y' !in a[..8];
    forall k: nat ensures !MatchAt(t, "v=", k) {
      if k + 2 <= |t| {
        assert t[k..k + 2][1] == t[k + 1];
        if k + 1 < |a| {
          assert t[k + 1] == a[k + 1] && a[k + 1] in a;
        } else {
          assert t[k + 1] == id[k + 1 - |a|] && IsIdChar(id[k + 1 - |a|]);
        }
        assert t[k + 1] != '=';
      }
    }
    assert t[..8] == a[..8];
    NoMatchBefore(t, "youtu.be/", 8);
    assert t[8..17] == a[8..17] == "youtu.be/";
    assert t[17..28] == id;
    assert MatchAt(t, "youtu.be/", 8);
    assert !IsId(t);
    IdCharNotWhitespace(id[10]);
    assert t[|t| - 1] == id[10];
    StripKeeps(t, IsPyWhitespace);
    ExtractOrder(t);
    assert FirstMatch(t, Patterns, 1, 8);
    FirstMatchUnique(t, Patterns);
  }

  /** The watch-page URL of any identifier is matched by the `v=` pattern. */
  lemma WatchUrlExtract(id: string)
    requires IsId(id)
    ensures ExtractVideoId("https://www.youtube.com/watch?v=" + id) == Some(id)
  {
    var a := "https://www.youtube.com/watch?v=";
    var t := a + id;
    assert 'v' !in a[..30];
    assert t[..30] == a[..30];
    NoMatchBefore(t, "v=", 30);
    assert t[30..32] == a[30..32] == "v=";
    assert t[32..43] == id;
    assert MatchAt(t, "v=", 30);
    assert !IsId(t);
    IdCharNotWhitespace(id[10]);
    assert t[|t| - 1] == id[10];
    StripKeeps(t, IsPyWhitespace);
    ExtractOrder(t);
    assert FirstMatch(t, Patterns, 0, 30);
    FirstMatchUnique(t, Patterns);
  }

  /** A pattern cannot match before the first occurrence of its first character. */
  lemma NoMatchBefore(t: string, prefix: string, n: nat)
    requires |prefix| > 0 && n <= |t| && prefix[0] !in t[..n]
    ensures forall k: nat :: k < n ==> !MatchAt(t, prefix, k)
  {
    forall k: nat | k < n ensures !MatchAt(t, prefix, k) {
      assert t[..n][k] == t[k];
    }
  }

  /** At most one (pattern, position) pair is the first match. */
  lemma FirstMatchUnique(t: string, pats: seq<string>)
    ensures forall j1: nat, k1: nat, j2: nat, k2: nat ::
      FirstMatch(t, pats, j1, k1) && FirstMatch(t, pats, j2, k2) ==> j1 == j2 && k1 == k2
  {
  }

  /**
   * A stripped reference that is not itself an identifier and is shorter
   * than the shortest pattern match (thirteen characters) is refused.
   */
  lemma ShortReferenceRefused(s: string)
    requires var t := Strip(s, IsPyWhitespace); |t| != IdLength && |t| < 13
    ensures ExtractVideoId(s) == None
  {
    var t := Strip(s, IsPyWhitespace);
    forall j: nat, k: nat | j < |Patterns| ensures !MatchAt(t, Patterns[j], k) {
      assert |Patterns[j]| >= 2;
    }
    ExtractOrder(t);
  }

  /** Free text with no identifier is refused. */
  lemma NotAUrlExample()
    ensures ExtractVideoId("not a url") == None
  {
    var bad := "not a url";
    assert !IsPyWhitespace(bad[0]) && !IsPyWhitespace(bad[|bad| - 1]);
    StripKeeps(bad, IsPyWhitespace);
    ShortReferenceRefused(bad);
  }
}

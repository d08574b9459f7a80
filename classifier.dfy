/**
 * The backend's reading of the toxicity classifier: `get_scores` reduces
 * the classifier's response to a map from upper-cased label to score,
 * `p_toxic` is picked from that map, and `tier_for_score` turns it into one
 * of three tiers. Scores are only compared, so they are reals.
 */
module Classifier {
  import opened Wrappers
  import opened Text

  const ThreshLikely: real := 0.60
  const ThreshElements: real := 0.20

  /** The tiers of a chat message; `System` marks the backend's own error notices. */
  datatype Tier = Normal | ToxicElements | LikelyToxic | System

  /** The tier's name as it appears in the payload's `tier` field. */
  function TierName(t: Tier): string {
    match t
    case Normal => "NORMAL"
    case ToxicElements => "TOXIC_ELEMENTS"
    case LikelyToxic => "LIKELY_TOXIC"
    case System => "SYSTEM"
  }

  /** Distinct tiers have distinct names. */
  lemma TierNameInjective(a: Tier, b: Tier)
    ensures TierName(a) == TierName(b) <==> a == b
  {
  }

  /** `tier_for_score(p)`. */
  function TierForScore(p: real): (t: Tier)
    ensures t == LikelyToxic <==> p >= ThreshLikely
    ensures t == ToxicElements <==> ThreshElements <= p < ThreshLikely
    ensures t == Normal <==> p < ThreshElements
  {
    if p >= ThreshLikely then LikelyToxic
    else if p >= ThreshElements then ToxicElements
    else Normal
  }

  /** Severity order of the three score tiers. */
  function Severity(t: Tier): nat {
    match t
    case Normal => 0
    case ToxicElements => 1
    case LikelyToxic => 2
    case System => 0
  }

  /** A higher score never gives a milder tier. */
  lemma TierMonotone(p: real, q: real)
    requires p <= q
    ensures Severity(TierForScore(p)) <= Severity(TierForScore(q))
  {
  }

  /**
   * A classifier response, as far as `get_scores` looks at it: lists,
   * dictionaries with string keys, strings, numbers, and anything else.
   */
  datatype Value =
    | List(elems: seq<Value>)
    | Dict(fields: map<string, Value>)
    | Str(s: string)
    | Number(x: real)
    | Other

  /**
   * Why reading one item raised: it is no dictionary, it has no `label` or
   * no `score`, its label has no `upper`, or its score is no number.
   */
  datatype ScoreError = NotADict | MissingLabel | LabelNotString | MissingScore | ScoreNotNumber

  /**
   * One entry of the comprehension: the upper-cased label and the score.
   * The key is evaluated before the value, so label errors come first.
   */
  function ScoreItem(d: Value): (r: Result<(string, real), ScoreError>)
    ensures r.Ok? <==> d.Dict? && "label" in d.fields && d.fields["label"].Str?
                       && "score" in d.fields && d.fields["score"].Number?
    ensures r.Ok? ==> r.value == (Upper(d.fields["label"].s), d.fields["score"].x)
  {
    if !d.Dict? then Err(NotADict)
    else if "label" !in d.fields then Err(MissingLabel)
    else if !d.fields["label"].Str? then Err(LabelNotString)
    else if "score" !in d.fields then Err(MissingScore)
    else if !d.fields["score"].Number? then Err(ScoreNotNumber)
    else Ok((Upper(d.fields["label"].s), d.fields["score"].x))
  }

  predicate AllItemsRead(items: seq<Value>) {
    forall i :: 0 <= i < |items| ==> ScoreItem(items[i]).Ok?
  }

  function LabelOf(d: Value): string
    requires ScoreItem(d).Ok?
  {
    ScoreItem(d).value.0
  }

  function ScoreOf(d: Value): real
    requires ScoreItem(d).Ok?
  {
    ScoreItem(d).value.1
  }

  /**
   * The comprehension `{d["label"].upper(): float(d["score"]) for d in items}`,
   * built left to right; the first unreadable item raises.
   */
  function CollectScores(items: seq<Value>): (r: Result<map<string, real>, ScoreError>)
    ensures r.Ok? <==> AllItemsRead(items)
    decreases |items|
  {
    if items == [] then Ok(map[])
    else
      var init := items[..|items| - 1];
      assert forall i :: 0 <= i < |init| ==> init[i] == items[i];
      match CollectScores(init)
      case Err(e) => Err(e)
      case Ok(m) =>
        match ScoreItem(items[|items| - 1])
        case Err(e) => Err(e)
        case Ok(entry) => Ok(m[entry.0 := entry.1])
  }

  /** The error raised is that of the first unreadable item. */
  lemma {:induction false} CollectScoresFirstError(items: seq<Value>)
    requires !AllItemsRead(items)
    ensures exists i :: (0 <= i < |items| && ScoreItem(items[i]).Err?
      && CollectScores(items) == Err(ScoreItem(items[i]).error) && AllItemsRead(items[..i]))
    decreases |items|
  {
    var init := items[..|items| - 1];
    var n := |items| - 1;
    assert forall i :: 0 <= i < |init| ==> init[i] == items[i];
    if AllItemsRead(init) {
      assert ScoreItem(items[n]).Err?;
      assert items[..n] == init;
    } else {
      CollectScoresFirstError(init);
      var i :| 0 <= i < |init| && ScoreItem(init[i]).Err?
        && CollectScores(init) == Err(ScoreItem(init[i]).error) && AllItemsRead(init[..i]);
      assert init[..i] == items[..i];
      assert ScoreItem(items[i]).Err?;
    }
  }

  /** The labels in the map are exactly the labels of the items. */
  lemma {:induction false} CollectScoresKeys(items: seq<Value>)
    requires AllItemsRead(items)
    ensures forall k :: k in CollectScores(items).value <==>
      exists i :: 0 <= i < |items| && LabelOf(items[i]) == k
    decreases |items|
  {
    if items != [] {
      var init := items[..|items| - 1];
      var n := |items| - 1;
      assert forall i :: 0 <= i < |init| ==> init[i] == items[i];
      CollectScoresKeys(init);
      var m := CollectScores(items).value;
      assert m == CollectScores(init).value[LabelOf(items[n]) := ScoreOf(items[n])];
      forall k | k in m ensures exists i :: 0 <= i < |items| && LabelOf(items[i]) == k {
        if k != LabelOf(items[n]) {
          var i :| 0 <= i < |init| && LabelOf(init[i]) == k;
          assert LabelOf(items[i]) == k;
        }
      }
      forall k | exists i :: 0 <= i < |items| && LabelOf(items[i]) == k ensures k in m {
        var i :| 0 <= i < |items| && LabelOf(items[i]) == k;
        if i < n {
          assert LabelOf(init[i]) == k;
        }
      }
    }
  }

  /** A label gets the score of its last item: later duplicates overwrite earlier ones. */
  lemma {:induction false} CollectScoresLastWins(items: seq<Value>, i: nat)
    requires AllItemsRead(items)
    requires i < |items|
    requires forall j :: i < j < |items| ==> LabelOf(items[j]) != LabelOf(items[i])
    ensures LabelOf(items[i]) in CollectScores(items).value
    ensures CollectScores(items).value[LabelOf(items[i])] == ScoreOf(items[i])
    decreases |items|
  {
    var init := items[..|items| - 1];
    var n := |items| - 1;
    assert forall j :: 0 <= j < |init| ==> init[j] == items[j];
    var m := CollectScores(items).value;
    assert m == CollectScores(init).value[LabelOf(items[n]) := ScoreOf(items[n])];
    if i < n {
      CollectScoresLastWins(init, i);
    }
  }

  /**
   * `get_scores` on a response: the first inner list of a list of lists,
   * the list itself when it starts with a dictionary, and otherwise an
   * empty map.
   */
  function GetScores(res: Value): Result<map<string, real>, ScoreError> {
    match ScoredItems(res)
    case None => Ok(map[])
    case Some(items) => CollectScores(items)
  }

  /** Which items `get_scores` reads, if any: only the first element's kind is inspected. */
  function ScoredItems(res: Value): Option<seq<Value>> {
    if res.List? && |res.elems| > 0 && res.elems[0].List? then Some(res.elems[0].elems)
    else if res.List? && |res.elems| > 0 && res.elems[0].Dict? then Some(res.elems)
    else None
  }

  /**
   * Only the first element decides: a list whose first element is a list
   * is read from that inner list, one whose first element is a dictionary
   * is read as it is, and any other response yields the empty map.
   */
  lemma GetScoresShape(res: Value)
    ensures res.List? && |res.elems| > 0 && res.elems[0].List? ==> GetScores(res) == CollectScores(res.elems[0].elems)
    ensures res.List? && |res.elems| > 0 && res.elems[0].Dict? ==> GetScores(res) == CollectScores(res.elems)
    ensures !(res.List? && |res.elems| > 0 && (res.elems[0].List? || res.elems[0].Dict?)) ==> GetScores(res) == Ok(map[])
  {
  }

  /** `scores.get("TOXIC", scores.get("LABEL_1", 0.0))`. */
  function PToxic(scores: map<string, real>): (p: real)
    ensures "TOXIC" in scores ==> p == scores["TOXIC"]
    ensures "TOXIC" !in scores && "LABEL_1" in scores ==> p == scores["LABEL_1"]
    ensures "TOXIC" !in scores && "LABEL_1" !in scores ==> p == 0.0
  {
    if "TOXIC" in scores then scores["TOXIC"]
    else if "LABEL_1" in scores then scores["LABEL_1"]
    else 0.0
  }

  /** Scores, `p_toxic` and tier for one message, or the error `get_scores` raised. */
  function Classify(res: Value): Result<(real, Tier), ScoreError> {
    match GetScores(res)
    case Err(e) => Err(e)
    case Ok(m) => Ok((PToxic(m), TierForScore(PToxic(m))))
  }

  /**
   * When the items read are all well formed and one of them is labelled
   * `toxic` in any ASCII case, `p_toxic` is the score of the last such item.
   */
  lemma PToxicIsLastToxicScore(items: seq<Value>, i: nat)
    requires AllItemsRead(items)
    requires i < |items| && LabelOf(items[i]) == "TOXIC"
    requires forall j :: i < j < |items| ==> LabelOf(items[j]) != "TOXIC"
    ensures CollectScores(items).Ok? && PToxic(CollectScores(items).value) == ScoreOf(items[i])
  {
    CollectScoresLastWins(items, i);
  }

  /** Without a TOXIC or LABEL_1 label the message scores 0.0 and is Normal. */
  lemma NoToxicLabelIsNormal(items: seq<Value>)
    requires AllItemsRead(items)
    requires forall j :: 0 <= j < |items| ==> LabelOf(items[j]) != "TOXIC" && LabelOf(items[j]) != "LABEL_1"
    ensures CollectScores(items).Ok?
    ensures PToxic(CollectScores(items).value) == 0.0
    ensures TierForScore(PToxic(CollectScores(items).value)) == Normal
  {
    CollectScoresKeys(items);
  }
}

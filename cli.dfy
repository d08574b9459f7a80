/**
 * The earlier command-line script: it reads the classifier's response with
 * the same `get_scores` as the backend, picks `p_toxic` the same way, and
 * chooses one of three tags from two flags computed inline.
 */
module Cli {
  import opened Wrappers
  import opened Classifier

  const Thresh: real := 0.60
  const Thresh1: real := 0.20

  /** `is_likelyToxic`. */
  predicate IsLikelyToxic(p: real) {
    p >= Thresh
  }

  /** `is_ToxicElements`. */
  predicate IsToxicElements(p: real) {
    Thresh1 <= p < Thresh
  }

  /** The two flags are never both set. */
  lemma FlagsExclusive(p: real)
    ensures !(IsLikelyToxic(p) && IsToxicElements(p))
  {
  }

  /** The `if` / `elif` / `else` choice of the tag. */
  function Tag(p: real): (tag: string)
    ensures tag == "Likely Toxic Chat" <==> p >= Thresh
    ensures tag == "Toxic Elements in Chat" <==> Thresh1 <= p < Thresh
    ensures tag == "Normal Chat" <==> p < Thresh1
  {
    if IsLikelyToxic(p) then "Likely Toxic Chat"
    else if IsToxicElements(p) then "Toxic Elements in Chat"
    else "Normal Chat"
  }

  /**
   * The script's thresholds are the backend's, so the tag and the backend's
   * tier always tell the same story: two scores share a tag exactly when
   * they share a tier.
   */
  lemma TagMatchesTier(p: real, q: real)
    ensures Tag(p) == Tag(q) <==> TierForScore(p) == TierForScore(q)
  {
  }

  /** Score and tag of one message; an unreadable response stops the script. */
  function MessageTag(res: Value): Result<(real, string), ScoreError> {
    match GetScores(res)
    case Err(e) => Err(e)
    case Ok(m) => Ok((PToxic(m), Tag(PToxic(m))))
  }

  /**
   * The script and the backend read a response alike: both fail on the same
   * responses with the same error, and otherwise agree on `p_toxic` and on
   * the tag or tier it gives.
   */
  lemma MessageTagAgreesWithBackend(res: Value)
    ensures MessageTag(res).Err? <==> Classify(res).Err?
    ensures MessageTag(res).Err? ==> MessageTag(res).error == Classify(res).error
    ensures MessageTag(res).Ok? ==> MessageTag(res).value.0 == Classify(res).value.0
    ensures MessageTag(res).Ok? ==>
      (MessageTag(res).value.1 == "Likely Toxic Chat" <==> Classify(res).value.1 == LikelyToxic)
    ensures MessageTag(res).Ok? ==>
      (MessageTag(res).value.1 == "Toxic Elements in Chat" <==> Classify(res).value.1 == ToxicElements)
    ensures MessageTag(res).Ok? ==>
      (MessageTag(res).value.1 == "Normal Chat" <==> Classify(res).value.1 == Normal)
  {
  }
}

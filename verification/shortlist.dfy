/**
 * Decoding a selection of class indices into the ranked shortlist a
 * prediction reports, and what a correct shortlist is.
 */
module Shortlist {
  import opened Wrappers
  import opened Errors
  import opened Sequences
  import opened Ranking

  /** One shortlist entry: a category code and its probability. */
  datatype Ranked = Ranked(cpv: int, probability: real)

  /** `label_encoder.inverse_transform([idx])[0]`: raises for an index without a class. */
  function InverseTransform(classes: seq<int>, idx: int): (r: Result<int, Raised>)
    ensures r.Ok? <==> 0 <= idx < |classes|
    ensures r.Ok? ==> r.value == classes[idx]
    ensures r.Err? ==> r.error == UnseenLabel(idx)
  {
    if 0 <= idx < |classes| then Ok(classes[idx]) else Err(UnseenLabel(idx))
  }

  /** The position of the first selected index without a class, or `|idx|` when there is none. */
  function FirstUnlabelled(idx: seq<nat>, n: nat): (k: nat)
    ensures k <= |idx|
    ensures forall m :: 0 <= m < k ==> idx[m] < n
    ensures k < |idx| ==> idx[k] >= n
  {
    if |idx| == 0 then 0
    else if idx[0] >= n then 0
    else 1 + FirstUnlabelled(idx[1..], n)
  }

  /**
   * The list comprehension over the selected indices: each is decoded
   * through the class list; the first index without a class raises.
   */
  function DecodeAll(classes: seq<int>, probs: seq<real>, idx: seq<nat>): (r: Result<seq<Ranked>, Raised>)
    requires forall k :: 0 <= k < |idx| ==> idx[k] < |probs|
    ensures r.Ok? <==> forall k :: 0 <= k < |idx| ==> idx[k] < |classes|
    ensures r.Ok? ==> |r.value| == |idx|
    ensures r.Ok? ==> forall k :: 0 <= k < |idx| ==> r.value[k] == Ranked(classes[idx[k]], probs[idx[k]])
    ensures r.Err? ==> exists k :: 0 <= k < |idx| && idx[k] >= |classes| && r.error == UnseenLabel(idx[k])
                          && forall m :: 0 <= m < k ==> idx[m] < |classes|
  {
    var k := FirstUnlabelled(idx, |classes|);
    if k == |idx| then
      Ok(seq(|idx|, k requires 0 <= k < |idx| => Ranked(classes[idx[k]], probs[idx[k]])))
    else
      Err(UnseenLabel(idx[k]))
  }

  /**
   * The shortlist is a valid top selection from the distribution, decoded
   * through the class list.
   */
  ghost predicate RanksDistribution(top: seq<Ranked>, classes: seq<int>, probs: seq<real>, count: nat) {
    exists idx: seq<nat> ::
      && IsTopSelection(probs, count, idx)
      && (forall k :: 0 <= k < |idx| ==> idx[k] < |classes|)
      && |top| == |idx|
      && (forall k :: 0 <= k < |idx| ==> top[k] == Ranked(classes[idx[k]], probs[idx[k]]))
  }

  /**
   * What the shortlist and confidence promise about a distribution: `min(topN,
   * classes)` entries (Python's slice length for a negative `topN`) forming a
   * valid top selection, and the confidence is the largest probability, hence
   * the first entry's probability whenever there is one.
   */
  ghost predicate IsRankedShortlist(top: seq<Ranked>, conf: real, classes: seq<int>, probs: seq<real>, topN: int) {
    && RanksDistribution(top, classes, probs, SliceLength(|probs|, topN))
    && |top| == SliceLength(|probs|, topN)
    && conf in probs
    && (forall j :: 0 <= j < |probs| ==> probs[j] <= conf)
    && (|top| > 0 ==> conf == top[0].probability)
  }

  /**
   * Decoding one selection of `count` classes: the decoded shortlist and the
   * largest probability, or the first index without a class.
   */
  function RankSelection(classes: seq<int>, probs: seq<real>, count: nat, idx: seq<nat>): (r: Result<(seq<Ranked>, real), Raised>)
    requires IsTopSelection(probs, count, idx)
    ensures r.Ok? ==>
      && RanksDistribution(r.value.0, classes, probs, count)
      && |r.value.0| == count
      && r.value.1 in probs
      && (forall j :: 0 <= j < |probs| ==> probs[j] <= r.value.1)
      && (|r.value.0| > 0 ==> r.value.1 == r.value.0[0].probability)
    ensures |probs| == 0 ==> r.Err?
    ensures 0 < |probs| <= |classes| ==> r.Ok?
    ensures r.Ok? <==> |probs| > 0 && forall k :: 0 <= k < |idx| ==> idx[k] < |classes|
  {
    var decoded := DecodeAll(classes, probs, idx);
    var best := Max(probs);
    if decoded.Err? then
      Err(decoded.error)
    else if best.None? then
      Err(EmptySequence)
    else
      assert |idx| > 0 ==> best.value == probs[idx[0]] by {
        if |idx| > 0 {
          FirstSelectedIsMax(probs, count, idx);
        }
      }
      Ok((decoded.value, best.value))
  }
}

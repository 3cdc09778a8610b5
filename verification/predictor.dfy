/**
 * `CPVPredictor`: the serving-side orchestration of encode, classify, rank
 * and decode, plus the model metadata it reports.
 */
module Predictor {
  import opened Wrappers
  import opened Errors
  import opened Strings
  import opened Sequences
  import opened Vocabulary
  import opened Encoder
  import opened Request
  import opened Ranking
  import opened Shortlist

  /**
   * The trained forest, opaque: `predict` yields an encoded class and
   * `predictProba` a probability per class, both for one feature vector.
   */
  datatype Classifier = Classifier(predict: Vector -> int, predictProba: Vector -> seq<real>)

  /**
   * The persisted bundle: the model, the label encoder's `classes_`, the
   * fitted scaler's transform and the three vocabularies.
   */
  datatype Artifact = Artifact(model: Classifier, classes: seq<int>, scaler: real -> real, vocabs: Vocabs)

  /** A predictor: the bundle plus the index maps built once at construction. */
  datatype CpvPredictor = CpvPredictor(artifact: Artifact, maps: IndexMaps)

  /** `CPVPredictor.__init__`: every vocabulary entry is mapped to its position. */
  function NewPredictor(a: Artifact): (p: CpvPredictor)
    ensures p.artifact == a
    ensures forall s :: (s in p.maps.cae <==> s in a.vocabs.caeNames)
                     && (s in p.maps.nuts <==> s in a.vocabs.nutsCodes)
                     && (s in p.maps.contract <==> s in a.vocabs.contractTypes)
    ensures WellFormed(a.vocabs) ==>
      && (forall i :: 0 <= i < |a.vocabs.caeNames| ==> p.maps.cae[a.vocabs.caeNames[i]] == i)
      && (forall i :: 0 <= i < |a.vocabs.nutsCodes| ==> p.maps.nuts[a.vocabs.nutsCodes[i]] == i)
      && (forall i :: 0 <= i < |a.vocabs.contractTypes| ==> p.maps.contract[a.vocabs.contractTypes[i]] == i)
  {
    MapsPositions(a.vocabs);
    CpvPredictor(a, MapsOf(a.vocabs))
  }

  /** For duplicate-free vocabularies, each entry maps to its own position. */
  lemma MapsPositions(vs: Vocabs)
    ensures WellFormed(vs) ==>
      var ms := MapsOf(vs);
      && (forall i :: 0 <= i < |vs.caeNames| ==> ms.cae[vs.caeNames[i]] == i)
      && (forall i :: 0 <= i < |vs.nutsCodes| ==> ms.nuts[vs.nutsCodes[i]] == i)
      && (forall i :: 0 <= i < |vs.contractTypes| ==> ms.contract[vs.contractTypes[i]] == i)
  {
    if WellFormed(vs) {
      IndexMapPositions(vs.caeNames);
      IndexMapPositions(vs.nutsCodes);
      IndexMapPositions(vs.contractTypes);
    }
  }

  /** `CPVPredictor.prepare_features`, with the maps held by the predictor. */
  function PrepareFeatures(p: CpvPredictor, data: Body, parse: string -> Option<real>): (r: Result<Vector, Raised>)
    ensures r.Ok? <==> ReadOffer(data, parse).Ok?
    ensures r.Err? ==> r.error == ReadOffer(data, parse).error
    ensures r.Ok? ==>
      && |r.value| == Width(p.artifact.vocabs)
      && r.value[0] == p.artifact.scaler(ReadOffer(data, parse).value.value)
  {
    var o :- ReadOffer(data, parse);
    Ok(Encode(o, p.artifact.vocabs, p.maps, p.artifact.scaler))
  }

  /** The `{cpv, confidence, top5}` dictionary a prediction returns. */
  datatype Prediction = Prediction(cpv: int, confidence: real, top: seq<Ranked>)

  /**
   * Lines 110-120 for one distribution: the shortlist of the `topN` most
   * probable classes, decoded, and the largest probability as confidence.
   */
  function RankDistribution(classes: seq<int>, probs: seq<real>, topN: int): (r: Result<(seq<Ranked>, real), Raised>)
    ensures r.Ok? ==> IsRankedShortlist(r.value.0, r.value.1, classes, probs, topN)
    ensures |probs| == 0 ==> r.Err?
    ensures 0 < |probs| <= |classes| ==> r.Ok?
    ensures r.Ok? <==> |probs| > 0 && forall k :: 0 <= k < |TopN(probs, topN)| ==> TopN(probs, topN)[k] < |classes|
  {
    RankSelection(classes, probs, SliceLength(|probs|, topN), TopN(probs, topN))
  }

  /**
   * Lines 103-126: the predicted label decoded through the class list, and
   * the ranked shortlist and confidence of the predicted distribution.
   */
  function Classify(a: Artifact, x: Vector, topN: int): (r: Result<Prediction, Raised>)
    ensures r.Ok? ==>
      && 0 <= a.model.predict(x) < |a.classes|
      && r.value.cpv == a.classes[a.model.predict(x)]
      && IsRankedShortlist(r.value.top, r.value.confidence, a.classes, a.model.predictProba(x), topN)
    ensures var probs := a.model.predictProba(x);
      0 <= a.model.predict(x) < |a.classes| && 0 < |probs| <= |a.classes| ==> r.Ok?
    ensures var probs := a.model.predictProba(x);
      |probs| == 0 || !(0 <= a.model.predict(x) < |a.classes|) ==> r.Err?
    ensures r.Ok? <==> && 0 <= a.model.predict(x) < |a.classes|
                       && RankDistribution(a.classes, a.model.predictProba(x), topN).Ok?
  {
    var y :- InverseTransform(a.classes, a.model.predict(x));
    var ranked :- RankDistribution(a.classes, a.model.predictProba(x), topN);
    Ok(Prediction(y, ranked.1, ranked.0))
  }

  /** `CPVPredictor.predict(offer_data, top_n)`. */
  function Predict(p: CpvPredictor, data: Body, topN: int, parse: string -> Option<real>): (r: Result<Prediction, Raised>)
    ensures !HasAllFields(data) ==> r.Err?
    ensures ReadOffer(data, parse).Err? ==> r == Err(ReadOffer(data, parse).error)
    ensures ReadOffer(data, parse).Ok? ==>
      var x := PrepareFeatures(p, data, parse).value;
      var a := p.artifact;
      && (0 <= a.model.predict(x) < |a.classes| && 0 < |a.model.predictProba(x)| <= |a.classes| ==> r.Ok?)
      && (!(0 <= a.model.predict(x) < |a.classes|) || |a.model.predictProba(x)| == 0 ==> r.Err?)
      && (r.Ok? <==> 0 <= a.model.predict(x) < |a.classes|
                     && RankDistribution(a.classes, a.model.predictProba(x), topN).Ok?)
    ensures r.Ok? ==>
      var x := PrepareFeatures(p, data, parse);
      var a := p.artifact;
      && x.Ok?
      && 0 <= a.model.predict(x.value) < |a.classes|
      && r.value.cpv == a.classes[a.model.predict(x.value)]
      && IsRankedShortlist(r.value.top, r.value.confidence, a.classes, a.model.predictProba(x.value), topN)
  {
    var x :- PrepareFeatures(p, data, parse);
    Classify(p.artifact, x, topN)
  }

  /**
   * A classifier whose encoded label always has a class and whose
   * distribution is non-empty and no longer than the class list.
   */
  ghost predicate Consistent(a: Artifact) {
    forall x :: 0 <= a.model.predict(x) < |a.classes| && 0 < |a.model.predictProba(x)| <= |a.classes|
  }

  /**
   * With a consistent classifier, a request with a numeric value and string
   * names is always answered, whether or not the names are in the vocabularies.
   */
  lemma AnyNamesPredict(p: CpvPredictor, data: Body, topN: int, parse: string -> Option<real>)
    requires Consistent(p.artifact)
    requires HasAllFields(data) && data["VALUE_EURO"].JNumber?
    requires data["CAE_NAME"].JString? && data["NUTS"].JString? && data["TYPE_OF_CONTRACT"].JString?
    ensures Predict(p, data, topN, parse).Ok?
  {
  }

  /** The `get_model_info` / `model-info` dictionary. */
  datatype ModelInfo = ModelInfo(
    modelName: string,
    algorithm: string,
    version: string,
    numCategories: nat,
    numFeatures: nat,
    cpvCodes: seq<string>,
    vocabs: Vocabs)

  /** The feature count reported as metadata; a constant, not the encoded width. */
  const ReportedFeatures: nat := 40

  /**
   * `get_model_info`: one decimal code string per class, reading back as that
   * class, and a fixed feature count.
   */
  function GetModelInfo(a: Artifact): (info: ModelInfo)
    ensures info.numCategories == |a.classes| == |info.cpvCodes|
    ensures forall i :: 0 <= i < |a.classes| ==>
      Numeral(info.cpvCodes[i]) && ParseDecimal(info.cpvCodes[i]) == a.classes[i]
    ensures info.numFeatures == 40
    ensures info.vocabs == a.vocabs
  {
    var codes := seq(|a.classes|, i requires 0 <= i < |a.classes| => Decimal(a.classes[i]));
    forall i | 0 <= i < |a.classes|
      ensures ParseDecimal(codes[i]) == a.classes[i]
    {
      DecimalRoundTrip(a.classes[i]);
    }
    ModelInfo("CPVClassifier", "Random Forest", "1.0", |codes|, ReportedFeatures, codes, a.vocabs)
  }

  /**
   * The reported feature count agrees with the encoded width only for
   * vocabularies whose sizes add up to 39.
   */
  lemma ReportedFeaturesVersusWidth(a: Artifact)
    ensures GetModelInfo(a).numFeatures == Width(a.vocabs)
        <==> |a.vocabs.caeNames| + |a.vocabs.nutsCodes| + |a.vocabs.contractTypes| == 39
  {
  }
}

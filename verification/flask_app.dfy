/**
 * The stand-alone Flask application: a module-level model cache, its own
 * copy of the feature encoder, the prediction helper and the two JSON
 * endpoints.
 */
module FlaskApp {
  import opened Wrappers
  import opened Errors
  import opened Sequences
  import opened Strings
  import opened Encoder
  import opened Request
  import opened Shortlist
  import opened Predictor

  /**
   * `load_model`: a loaded model is kept as it is; otherwise the outcome of
   * reading the pickle (`None` for any exception, a missing key included)
   * becomes the new cache, and the cache is what is returned.
   */
  function LoadModel(state: Option<Artifact>, read: Option<Artifact>): (r: Option<Artifact>)
    ensures state.Some? ==> r == state
    ensures state.None? ==> r == read
  {
    if state.None? then read else state
  }

  /** Once a load has succeeded, loading again changes nothing, whatever a new read would give. */
  lemma LoadModelIdempotent(state: Option<Artifact>, first: Option<Artifact>, second: Option<Artifact>)
    requires LoadModel(state, first).Some?
    ensures LoadModel(LoadModel(state, first), second) == LoadModel(state, first)
  {
  }

  /** A failed read leaves an empty cache empty, so every later request sees no model. */
  lemma FailedLoadLeavesNone(second: Option<Artifact>)
    ensures LoadModel(None, None) == None
    ensures LoadModel(LoadModel(None, None), second) == second
  {
  }

  /** `prepare_features(offer_data, scaler, cae_names, nuts_codes, contract_types)`. */
  function PrepareFeatures(data: Body, scaler: real -> real, vs: Vocabs, parse: string -> Option<real>): (r: Result<Vector, Raised>)
    ensures r.Ok? <==> ReadOffer(data, parse).Ok?
    ensures r.Ok? ==> |r.value| == Width(vs)
    ensures r.Ok? ==>
      var o := ReadOffer(data, parse).value;
      && r.value[0] == scaler(o.value)
      && BlockEncodes(CaeBlock(r.value, vs), vs.caeNames, o.caeName)
      && BlockEncodes(NutsBlock(r.value, vs), vs.nutsCodes, o.nuts)
      && BlockEncodes(ContractBlock(r.value, vs), vs.contractTypes, o.contractType)
  {
    var o :- ReadOffer(data, parse);
    var x := Encode(o, vs, MapsOf(vs), scaler);
    EncodeShape(o, vs, scaler);
    Ok(x)
  }

  /** The application's encoder and the predictor service's encoder give the same vector or the same error. */
  lemma PrepareFeaturesAgree(a: Artifact, data: Body, parse: string -> Option<real>)
    ensures PrepareFeatures(data, a.scaler, a.vocabs, parse)
         == Predictor.PrepareFeatures(NewPredictor(a), data, parse)
  {
  }

  /** The shortlist length of the application: five entries, or fewer classes. */
  const TopCount: int := 5

  /**
   * `predict_cpv`: subscripting the cache fails first when no model is
   * loaded; otherwise encode, classify and rank the five most probable classes.
   */
  function PredictCpv(state: Option<Artifact>, data: Body, parse: string -> Option<real>): (r: Result<Prediction, Raised>)
    ensures state.None? ==> r == Err(ModelNotLoaded)
    ensures r.Ok? ==> state.Some? && HasAllFields(data)
    ensures state.Some? && ReadOffer(data, parse).Err? ==> r == Err(ReadOffer(data, parse).error)
    ensures state.Some? && ReadOffer(data, parse).Ok? ==>
      var a := state.value;
      var x := PrepareFeatures(data, a.scaler, a.vocabs, parse).value;
      && (0 <= a.model.predict(x) < |a.classes| && 0 < |a.model.predictProba(x)| <= |a.classes| ==> r.Ok?)
      && (!(0 <= a.model.predict(x) < |a.classes|) || |a.model.predictProba(x)| == 0 ==> r.Err?)
    ensures r.Ok? ==>
      var a := state.value;
      var x := PrepareFeatures(data, a.scaler, a.vocabs, parse);
      && x.Ok?
      && 0 <= a.model.predict(x.value) < |a.classes|
      && r.value.cpv == a.classes[a.model.predict(x.value)]
      && IsRankedShortlist(r.value.top, r.value.confidence, a.classes, a.model.predictProba(x.value), TopCount)
      && |r.value.top| == if |a.model.predictProba(x.value)| < 5 then |a.model.predictProba(x.value)| else 5
  {
    if state.None? then Err(ModelNotLoaded)
    else
      var a := state.value;
      var x :- PrepareFeatures(data, a.scaler, a.vocabs, parse);
      Classify(a, x, TopCount)
  }

  /** With a model loaded, the application predicts exactly as the predictor service with `top_n = 5`. */
  lemma PredictCpvAgrees(a: Artifact, data: Body, parse: string -> Option<real>)
    ensures PredictCpv(Some(a), data, parse) == Predict(NewPredictor(a), data, TopCount, parse)
  {
    PrepareFeaturesAgree(a, data, parse);
  }

  /** The JSON payload of a response. */
  datatype Payload =
    | Message(text: string)          // `{'error': <fixed text>}`
    | Failure(error: Raised)         // `{'error': str(e)}` for a caught exception
    | Predicted(result: Prediction)  // `{'success': True, 'result': ...}`
    | Info(info: ModelInfo)          // the model metadata dictionary

  datatype Response = Response(status: int, payload: Payload)

  /**
   * `api_predict`. The body is `None` when the request holds no JSON object.
   * The four required fields are checked in order; the first missing one is
   * reported with status 400 before anything else runs; any exception during
   * prediction becomes status 500.
   */
  function ApiPredict(state: Option<Artifact>, body: Option<Body>, parse: string -> Option<real>): (r: Response)
    ensures r.status == 400 <==> body.Some? && !HasAllFields(body.value)
    ensures r.status == 400 ==>
      exists i :: && 0 <= i < |RequiredFields|
                  && RequiredFields[i] !in body.value
                  && (forall j :: 0 <= j < i ==> RequiredFields[j] in body.value)
                  && r.payload == Message("Brakuje pola: " + RequiredFields[i])
    ensures r.status == 200 <==> body.Some? && PredictCpv(state, body.value, parse).Ok?
    ensures r.status == 200 ==> r.payload == Predicted(PredictCpv(state, body.value, parse).value)
    ensures r.status in {200, 400, 500}
    ensures state.None? ==> r.status != 200
  {
    match body
    case None => Response(500, Failure(NotIterable))
    case Some(data) =>
      match FirstMissing(data)
      case Some(field) => Response(400, Message("Brakuje pola: " + field))
      case None =>
        match PredictCpv(state, data, parse)
        case Ok(result) => Response(200, Predicted(result))
        case Err(e) => Response(500, Failure(e))
  }

  /**
   * A body lacking a required field is answered without prediction: the
   * response does not depend on the model or on how numbers are parsed.
   */
  lemma MissingFieldSkipsPrediction(s1: Option<Artifact>, s2: Option<Artifact>, data: Body,
                                    p1: string -> Option<real>, p2: string -> Option<real>)
    requires !HasAllFields(data)
    ensures ApiPredict(s1, Some(data), p1) == ApiPredict(s2, Some(data), p2)
    ensures ApiPredict(s1, Some(data), p1).status == 400
  {
  }

  /** `api_model_info`: 500 with a fixed message without a model, otherwise the metadata. */
  function ApiModelInfo(state: Option<Artifact>): (r: Response)
    ensures r.status == 200 <==> state.Some?
    ensures state.None? ==> r == Response(500, Message("Model nie został wczytany"))
    ensures state.Some? ==>
      && r.payload.Info?
      && r.payload.info.numCategories == |r.payload.info.cpvCodes| == |state.value.classes|
      && r.payload.info.vocabs == state.value.vocabs
      && r.payload.info.numFeatures == 40
      && (forall i :: 0 <= i < |state.value.classes| ==>
            && Numeral(r.payload.info.cpvCodes[i])
            && ParseDecimal(r.payload.info.cpvCodes[i]) == state.value.classes[i])
    ensures state.Some? ==> r.payload == Info(GetModelInfo(state.value))
  {
    match state
    case None => Response(500, Message("Model nie został wczytany"))
    case Some(a) => Response(200, Info(GetModelInfo(a)))
  }
}

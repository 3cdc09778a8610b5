/**
 * The request body as the prediction endpoints see it: a JSON object whose
 * values are read with `float(...)` and used as dictionary keys.
 */
module Request {
  import opened Wrappers
  import opened Errors
  import opened Encoder

  /**
   * A JSON value, reduced to what the encoder distinguishes: arrays and
   * objects only matter for being unhashable.
   */
  datatype Json = JNull | JBool(b: bool) | JNumber(n: real) | JString(s: string) | JArray | JObject

  type Body = map<string, Json>

  /** The fields `api_predict` checks, in the order it checks them. */
  const RequiredFields: seq<string> := ["VALUE_EURO", "CAE_NAME", "NUTS", "TYPE_OF_CONTRACT"]

  /** The first of `fields` that the body lacks, scanning in order. */
  function FirstMissingOf(fields: seq<string>, data: Body): (r: Option<string>)
    ensures r.None? <==> forall i :: 0 <= i < |fields| ==> fields[i] in data
    ensures r.Some? ==> exists i :: 0 <= i < |fields| && fields[i] == r.value && r.value !in data
                          && forall j :: 0 <= j < i ==> fields[j] in data
  {
    if |fields| == 0 then None
    else if fields[0] !in data then Some(fields[0])
    else
      var r := FirstMissingOf(fields[1..], data);
      if r.Some? then
        var i :| 0 <= i < |fields[1..]| && fields[1..][i] == r.value && r.value !in data
                 && forall j :: 0 <= j < i ==> fields[1..][j] in data;
        assert fields[i + 1] == r.value;
        r
      else r
  }

  predicate HasAllFields(data: Body) {
    "VALUE_EURO" in data && "CAE_NAME" in data && "NUTS" in data && "TYPE_OF_CONTRACT" in data
  }

  /** The validation loop of `api_predict`. */
  function FirstMissing(data: Body): (r: Option<string>)
    ensures r.None? <==> HasAllFields(data)
    ensures r.Some? ==> r.value !in data
    ensures r.Some? ==> exists i :: 0 <= i < |RequiredFields| && RequiredFields[i] == r.value
                          && forall j :: 0 <= j < i ==> RequiredFields[j] in data
  {
    var r := FirstMissingOf(RequiredFields, data);
    assert RequiredFields[0] == "VALUE_EURO" && RequiredFields[1] == "CAE_NAME";
    assert RequiredFields[2] == "NUTS" && RequiredFields[3] == "TYPE_OF_CONTRACT";
    r
  }

  /**
   * Python's `float(x)` on a decoded JSON value. Parsing a numeric string is
   * float arithmetic outside the model and is supplied as `parse`.
   */
  function ToFloat(j: Json, parse: string -> Option<real>): (r: Result<real, Raised>)
    ensures j.JNumber? ==> r == Ok(j.n)
    ensures j.JBool? ==> r == Ok(if j.b then 1.0 else 0.0)
    ensures j.JString? ==> (r.Ok? <==> parse(j.s).Some?) && (r.Ok? ==> r.value == parse(j.s).value)
    ensures j.JNull? || j.JArray? || j.JObject? ==> r == Err(NotConvertible)
  {
    match j
    case JNumber(n) => Ok(n)
    case JBool(b) => Ok(if b then 1.0 else 0.0)
    case JString(s) =>
      (match parse(s)
       case Some(x) => Ok(x)
       case None => Err(NotConvertible))
    case _ => Err(NotConvertible)
  }

  /** A JSON value used as a dictionary key. */
  function ToName(j: Json): (r: Result<Name, Raised>)
    ensures r.Ok? <==> !(j.JArray? || j.JObject?)
    ensures r.Ok? ==> (r.value.Text? <==> j.JString?)
    ensures j.JString? ==> r == Ok(Text(j.s))
  {
    match j
    case JString(s) => Ok(Text(s))
    case JArray => Err(Unhashable)
    case JObject => Err(Unhashable)
    case _ => Ok(NonText)
  }

  /** `offer_data[key]`, raising KeyError when the key is absent. */
  function Field(data: Body, key: string): (r: Result<Json, Raised>)
    ensures key in data <==> r.Ok?
    ensures r.Ok? ==> r.value == data[key]
    ensures r.Err? ==> r.error == KeyError(key)
  {
    if key in data then Ok(data[key]) else Err(KeyError(key))
  }

  /** `float(offer_data['VALUE_EURO'])` completes without raising. */
  predicate ValueReads(data: Body, parse: string -> Option<real>) {
    "VALUE_EURO" in data && ToFloat(data["VALUE_EURO"], parse).Ok?
  }

  /** `offer_data[key]` exists and can be used as a dictionary key. */
  predicate NameReads(data: Body, key: string) {
    key in data && ToName(data[key]).Ok?
  }

  /** The exception raised by the read of `key` when it fails. */
  function NameError(data: Body, key: string): Raised {
    if key in data then Unhashable else KeyError(key)
  }

  /**
   * The reads `prepare_features` makes of its request, in its order: the value
   * through `float`, then the three names as map keys. The first read that
   * fails decides the exception.
   */
  function ReadOffer(data: Body, parse: string -> Option<real>): (r: Result<Offer, Raised>)
    ensures r.Ok? <==> && ValueReads(data, parse) && NameReads(data, "CAE_NAME")
                       && NameReads(data, "NUTS") && NameReads(data, "TYPE_OF_CONTRACT")
    ensures r.Ok? ==> HasAllFields(data)
    ensures r.Ok? ==> ToFloat(data["VALUE_EURO"], parse) == Ok(r.value.value)
    ensures r.Ok? ==> && ToName(data["CAE_NAME"]) == Ok(r.value.caeName)
                      && ToName(data["NUTS"]) == Ok(r.value.nuts)
                      && ToName(data["TYPE_OF_CONTRACT"]) == Ok(r.value.contractType)
    ensures !ValueReads(data, parse) ==>
      r == Err(if "VALUE_EURO" in data then NotConvertible else KeyError("VALUE_EURO"))
    ensures ValueReads(data, parse) && !NameReads(data, "CAE_NAME") ==>
      r == Err(NameError(data, "CAE_NAME"))
    ensures ValueReads(data, parse) && NameReads(data, "CAE_NAME") && !NameReads(data, "NUTS") ==>
      r == Err(NameError(data, "NUTS"))
    ensures && ValueReads(data, parse) && NameReads(data, "CAE_NAME") && NameReads(data, "NUTS")
            && !NameReads(data, "TYPE_OF_CONTRACT") ==>
      r == Err(NameError(data, "TYPE_OF_CONTRACT"))
  {
    var v :- Field(data, "VALUE_EURO");
    var value :- ToFloat(v, parse);
    var c :- Field(data, "CAE_NAME");
    var cae :- ToName(c);
    var n :- Field(data, "NUTS");
    var nuts :- ToName(n);
    var t :- Field(data, "TYPE_OF_CONTRACT");
    var contract :- ToName(t);
    Ok(Offer(value, cae, nuts, contract))
  }
}

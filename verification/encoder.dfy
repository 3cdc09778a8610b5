/**
 * The feature encoder: one offer becomes
 * `[value] ++ oneHot(CAE_NAME) ++ oneHot(NUTS) ++ oneHot(TYPE_OF_CONTRACT)`,
 * after which only slot 0 goes through the fitted scaler.
 */
module Encoder {
  import opened Sequences
  import opened Vocabulary

  type Vector = seq<real>

  /**
   * A categorical request value used as a dictionary key: a string, or a
   * hashable non-string (number, boolean, null) that no vocabulary entry equals.
   */
  datatype Name = Text(s: string) | NonText

  /** One offer after `float(...)` has read its monetary value. */
  datatype Offer = Offer(value: real, caeName: Name, nuts: Name, contractType: Name)

  /** The three training-time vocabularies: `cae_names`, `nuts_codes`, `contract_types`. */
  datatype Vocabs = Vocabs(caeNames: seq<string>, nutsCodes: seq<string>, contractTypes: seq<string>)

  /** `cae_map`, `nuts_map`, `contract_map`. */
  datatype IndexMaps = IndexMaps(cae: map<string, nat>, nuts: map<string, nat>, contract: map<string, nat>)

  /** The three enumerate comprehensions over the vocabularies. */
  function MapsOf(vs: Vocabs): (ms: IndexMaps)
    ensures forall s :: && (s in ms.cae <==> s in vs.caeNames)
                        && (s in ms.nuts <==> s in vs.nutsCodes)
                        && (s in ms.contract <==> s in vs.contractTypes)
  {
    IndexMaps(IndexMap(vs.caeNames), IndexMap(vs.nutsCodes), IndexMap(vs.contractTypes))
  }

  /** Every vocabulary is free of repetitions, as training produces them. */
  predicate WellFormed(vs: Vocabs) {
    Distinct(vs.caeNames) && Distinct(vs.nutsCodes) && Distinct(vs.contractTypes)
  }

  /** The number of features: one numeric slot and one slot per vocabulary entry. */
  function Width(vs: Vocabs): nat {
    1 + |vs.caeNames| + |vs.nutsCodes| + |vs.contractTypes|
  }

  predicate Known(v: seq<string>, n: Name) {
    n.Text? && n.s in v
  }

  /** `m.get(name, 0)`: a non-string key is never found. */
  function Resolve(m: map<string, nat>, n: Name): nat {
    match n
    case Text(s) => Lookup(m, s)
    case NonText => 0
  }

  /** The positions holding a 1. */
  function Ones(b: Vector): set<nat> {
    set j | 0 <= j < |b| && b[j] == 1.0
  }

  /** Every slot is 0 or 1. */
  predicate Binary(b: Vector) {
    forall j :: 0 <= j < |b| ==> b[j] == 0.0 || b[j] == 1.0
  }

  /** `[0] * n`. */
  function Zeros(n: nat): (z: Vector)
    ensures |z| == n && Binary(z) && Ones(z) == {}
  {
    seq(n, _ => 0.0)
  }

  /**
   * The serving-time block: `[0] * n`, then position `idx` set to 1 only when
   * the guard `idx < n` holds.
   */
  function OneHot(n: nat, idx: nat): (b: Vector)
    ensures |b| == n && Binary(b)
    ensures Ones(b) == if idx < n then {idx} else {}
  {
    if idx < n then
      var b := Zeros(n)[idx := 1.0];
      assert Ones(b) == {idx} by {
        forall j | j in Ones(b) ensures j == idx { }
        assert idx in Ones(b);
      }
      b
    else Zeros(n)
  }

  /** The vector before scaling. */
  function RawFeatures(o: Offer, vs: Vocabs, ms: IndexMaps): (x: Vector)
    ensures |x| == Width(vs) && x[0] == o.value
  {
    [o.value]
      + (OneHot(|vs.caeNames|, Resolve(ms.cae, o.caeName))
         + OneHot(|vs.nutsCodes|, Resolve(ms.nuts, o.nuts))
         + OneHot(|vs.contractTypes|, Resolve(ms.contract, o.contractType)))
  }

  /** `X[:, 0:1] = scaler.transform(X[:, 0:1])` on one row. */
  function ScaleValue(x: Vector, scale: real -> real): (y: Vector)
    requires |x| >= 1
    ensures |y| == |x| && y[0] == scale(x[0])
    ensures forall j :: 1 <= j < |x| ==> y[j] == x[j]
  {
    [scale(x[0])] + x[1..]
  }

  /** `prepare_features` once the request values have been read. */
  function Encode(o: Offer, vs: Vocabs, ms: IndexMaps, scale: real -> real): (x: Vector)
    ensures |x| == Width(vs) && x[0] == scale(o.value)
  {
    ScaleValue(RawFeatures(o, vs, ms), scale)
  }

  /** The slots of the CAE_NAME block. */
  function CaeBlock(x: Vector, vs: Vocabs): Vector
    requires |x| == Width(vs)
  {
    x[1..1 + |vs.caeNames|]
  }

  function NutsBlock(x: Vector, vs: Vocabs): Vector
    requires |x| == Width(vs)
  {
    x[1 + |vs.caeNames|..1 + |vs.caeNames| + |vs.nutsCodes|]
  }

  function ContractBlock(x: Vector, vs: Vocabs): Vector
    requires |x| == Width(vs)
  {
    x[1 + |vs.caeNames| + |vs.nutsCodes|..]
  }

  /**
   * What one block says about the name it encodes: a known name lights a
   * position holding it; an unknown one lights position 0; an empty
   * vocabulary gives an empty block.
   */
  predicate BlockEncodes(b: Vector, v: seq<string>, n: Name) {
    && |b| == |v|
    && Binary(b)
    && (Known(v, n) ==> exists i :: 0 <= i < |v| && v[i] == n.s && Ones(b) == {i})
    && (!Known(v, n) && |v| > 0 ==> Ones(b) == {0})
    && (|v| == 0 ==> Ones(b) == {})
  }

  lemma BlockOfName(v: seq<string>, n: Name)
    ensures BlockEncodes(OneHot(|v|, Resolve(IndexMap(v), n)), v, n)
  {
    if Known(v, n) {
      var i := IndexMap(v)[n.s];
      assert v[i] == n.s;
    }
  }

  lemma EncodeIsConcat(o: Offer, vs: Vocabs, ms: IndexMaps, scale: real -> real)
    ensures Encode(o, vs, ms, scale)
         == [scale(o.value)]
            + OneHot(|vs.caeNames|, Resolve(ms.cae, o.caeName))
            + OneHot(|vs.nutsCodes|, Resolve(ms.nuts, o.nuts))
            + OneHot(|vs.contractTypes|, Resolve(ms.contract, o.contractType))
  {
    var a := OneHot(|vs.caeNames|, Resolve(ms.cae, o.caeName));
    var b := OneHot(|vs.nutsCodes|, Resolve(ms.nuts, o.nuts));
    var c := OneHot(|vs.contractTypes|, Resolve(ms.contract, o.contractType));
    var raw := RawFeatures(o, vs, ms);
    assert raw[1..] == a + b + c;
  }

  lemma SplitBlocks(x: Vector, vs: Vocabs, s: real, a: Vector, b: Vector, c: Vector)
    requires |a| == |vs.caeNames| && |b| == |vs.nutsCodes| && |c| == |vs.contractTypes|
    requires x == [s] + a + b + c
    ensures |x| == Width(vs) && x[0] == s
    ensures CaeBlock(x, vs) == a && NutsBlock(x, vs) == b && ContractBlock(x, vs) == c
  {
    assert x[1..] == a + b + c;
    assert x[1..][..|a|] == a;
    assert x[1..][|a|..] == b + c;
  }

  /**
   * The shape of an encoded offer: the declared width, the scaled value in
   * slot 0, and three blocks each lighting the position of its name (or of
   * the fallback entry 0).
   */
  lemma EncodeShape(o: Offer, vs: Vocabs, scale: real -> real)
    ensures var x := Encode(o, vs, MapsOf(vs), scale);
      && |x| == Width(vs)
      && x[0] == scale(o.value)
      && BlockEncodes(CaeBlock(x, vs), vs.caeNames, o.caeName)
      && BlockEncodes(NutsBlock(x, vs), vs.nutsCodes, o.nuts)
      && BlockEncodes(ContractBlock(x, vs), vs.contractTypes, o.contractType)
  {
    var ms := MapsOf(vs);
    var a := OneHot(|vs.caeNames|, Resolve(ms.cae, o.caeName));
    var b := OneHot(|vs.nutsCodes|, Resolve(ms.nuts, o.nuts));
    var c := OneHot(|vs.contractTypes|, Resolve(ms.contract, o.contractType));
    var x := Encode(o, vs, ms, scale);
    EncodeIsConcat(o, vs, ms, scale);
    SplitBlocks(x, vs, scale(o.value), a, b, c);
    BlockOfName(vs.caeNames, o.caeName);
    BlockOfName(vs.nutsCodes, o.nuts);
    BlockOfName(vs.contractTypes, o.contractType);
  }

  /** The name an unknown value is silently taken for: entry 0 of its vocabulary. */
  function Fallback(v: seq<string>, n: Name): Name {
    if Known(v, n) || |v| == 0 then n else Text(v[0])
  }

  /**
   * Unknown names raise no error: the offer encodes exactly as the offer whose
   * unknown names are replaced by entry 0 of their vocabularies.
   */
  lemma UnknownEncodesAsFirst(o: Offer, vs: Vocabs, scale: real -> real)
    requires WellFormed(vs)
    ensures Encode(o, vs, MapsOf(vs), scale)
         == Encode(Offer(o.value, Fallback(vs.caeNames, o.caeName), Fallback(vs.nutsCodes, o.nuts),
                         Fallback(vs.contractTypes, o.contractType)), vs, MapsOf(vs), scale)
  {
  }

  /** Slot 0 is the only slot scaling changes. */
  lemma ScalingKeepsBlocks(o: Offer, vs: Vocabs, ms: IndexMaps, scale: real -> real)
    ensures var raw := RawFeatures(o, vs, ms);
      var x := Encode(o, vs, ms, scale);
      |x| == |raw| == Width(vs) && x[0] == scale(raw[0]) && x[1..] == raw[1..]
  {
  }

  /**
   * A worked instance: with two entries per table, an offer naming the second
   * entry of each encodes as `[scaled value, 0, 1, 0, 1, 0, 1]`.
   */
  lemma SecondEntriesExample(scale: real -> real)
    ensures Encode(Offer(1000.0, Text("B"), Text("R2"), Text("WORKS")),
                   Vocabs(["A", "B"], ["R1", "R2"], ["SERVICES", "WORKS"]),
                   MapsOf(Vocabs(["A", "B"], ["R1", "R2"], ["SERVICES", "WORKS"])), scale)
         == [scale(1000.0), 0.0, 1.0, 0.0, 1.0, 0.0, 1.0]
  {
    var vs := Vocabs(["A", "B"], ["R1", "R2"], ["SERVICES", "WORKS"]);
    assert IndexMap(vs.caeNames)["B"] == 1;
    assert IndexMap(vs.nutsCodes)["R2"] == 1;
    assert IndexMap(vs.contractTypes)["WORKS"] == 1;
    EncodeIsConcat(Offer(1000.0, Text("B"), Text("R2"), Text("WORKS")), vs, MapsOf(vs), scale);
  }
}

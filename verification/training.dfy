/**
 * Training-time feature preparation: vocabularies from the data, one encoded
 * row and one label per data row, scaling of column 0, and the names of the
 * feature columns.
 */
module Training {
  import opened Wrappers
  import opened Errors
  import opened Sequences
  import opened Vocabulary
  import opened Encoder

  /** One data row after `float(row['VALUE_EURO'])` and `int(row['CPV'])`. */
  datatype Row = Row(value: real, caeName: string, nuts: string, contractType: string, cpv: int)

  /**
   * What `prepare_features` returns: the scaled matrix, the labels, the fitted
   * scaler's transform and the three vocabularies.
   */
  datatype Prepared = Prepared(x: seq<Vector>, y: seq<int>, scaler: real -> real, vocabs: Vocabs)

  function CaeColumn(data: seq<Row>): (c: seq<string>)
    ensures |c| == |data| && forall i :: 0 <= i < |data| ==> c[i] == data[i].caeName
  {
    seq(|data|, i requires 0 <= i < |data| => data[i].caeName)
  }

  function NutsColumn(data: seq<Row>): (c: seq<string>)
    ensures |c| == |data| && forall i :: 0 <= i < |data| ==> c[i] == data[i].nuts
  {
    seq(|data|, i requires 0 <= i < |data| => data[i].nuts)
  }

  function ContractColumn(data: seq<Row>): (c: seq<string>)
    ensures |c| == |data| && forall i :: 0 <= i < |data| ==> c[i] == data[i].contractType
  {
    seq(|data|, i requires 0 <= i < |data| => data[i].contractType)
  }

  function ValueColumn(data: seq<Row>): (c: seq<real>)
    ensures |c| == |data| && forall i :: 0 <= i < |data| ==> c[i] == data[i].value
  {
    seq(|data|, i requires 0 <= i < |data| => data[i].value)
  }

  /**
   * `sorted(set(row[...] for row in data))` for the three columns: each table
   * strictly ascending and holding exactly the values of its column.
   */
  function TrainingVocabs(data: seq<Row>): (vs: Vocabs)
    ensures StrictlySorted(vs.caeNames) && StrictlySorted(vs.nutsCodes) && StrictlySorted(vs.contractTypes)
    ensures forall s :: s in vs.caeNames <==> s in CaeColumn(data)
    ensures forall s :: s in vs.nutsCodes <==> s in NutsColumn(data)
    ensures forall s :: s in vs.contractTypes <==> s in ContractColumn(data)
    ensures WellFormed(vs)
  {
    var vs := Vocabs(BuildVocabulary(CaeColumn(data)), BuildVocabulary(NutsColumn(data)),
                     BuildVocabulary(ContractColumn(data)));
    SortedIsDistinct(vs.caeNames);
    SortedIsDistinct(vs.nutsCodes);
    SortedIsDistinct(vs.contractTypes);
    vs
  }

  /** A CAE_NAME table entry is exactly a value some row carries. */
  lemma CaeNamesExact(data: seq<Row>, s: string)
    ensures s in TrainingVocabs(data).caeNames <==> exists i :: 0 <= i < |data| && data[i].caeName == s
  {
    var c := CaeColumn(data);
    if s in c {
      var i :| 0 <= i < |c| && c[i] == s;
    }
    if exists i :: 0 <= i < |data| && data[i].caeName == s {
      var i :| 0 <= i < |data| && data[i].caeName == s;
      assert c[i] == s;
    }
  }

  /** A NUTS table entry is exactly a value some row carries. */
  lemma NutsCodesExact(data: seq<Row>, s: string)
    ensures s in TrainingVocabs(data).nutsCodes <==> exists i :: 0 <= i < |data| && data[i].nuts == s
  {
    var c := NutsColumn(data);
    if s in c {
      var i :| 0 <= i < |c| && c[i] == s;
    }
    if exists i :: 0 <= i < |data| && data[i].nuts == s {
      var i :| 0 <= i < |data| && data[i].nuts == s;
      assert c[i] == s;
    }
  }

  /** A TYPE_OF_CONTRACT table entry is exactly a value some row carries. */
  lemma ContractTypesExact(data: seq<Row>, s: string)
    ensures s in TrainingVocabs(data).contractTypes <==> exists i :: 0 <= i < |data| && data[i].contractType == s
  {
    var c := ContractColumn(data);
    if s in c {
      var i :| 0 <= i < |c| && c[i] == s;
    }
    if exists i :: 0 <= i < |data| && data[i].contractType == s {
      var i :| 0 <= i < |data| && data[i].contractType == s;
      assert c[i] == s;
    }
  }

  /** Every row's values are entries of the tables built from the data, so `cae_map[...]` never fails. */
  lemma CoversRow(data: seq<Row>, i: nat)
    requires i < |data|
    ensures Covers(TrainingVocabs(data), data[i])
  {
    assert CaeColumn(data)[i] == data[i].caeName;
    assert NutsColumn(data)[i] == data[i].nuts;
    assert ContractColumn(data)[i] == data[i].contractType;
  }

  /** The three names of a row are entries of the respective vocabularies. */
  predicate Covers(vs: Vocabs, row: Row) {
    row.caeName in vs.caeNames && row.nuts in vs.nutsCodes && row.contractType in vs.contractTypes
  }

  /** `cae_onehot[cae_idx] = 1` with no guard: training indices always fit. */
  function TrainingOneHot(n: nat, idx: nat): (b: Vector)
    requires idx < n
    ensures b == OneHot(n, idx)
  {
    Zeros(n)[idx := 1.0]
  }

  /**
   * The loop body for one row: `cae_map[row['CAE_NAME']]` (a KeyError for a
   * name outside the table, which cannot happen here) and the three blocks.
   */
  function RowFeatures(row: Row, vs: Vocabs): (x: Vector)
    requires Covers(vs, row)
    ensures |x| == Width(vs) && x[0] == row.value
  {
    var ms := MapsOf(vs);
    [row.value]
      + (TrainingOneHot(|vs.caeNames|, ms.cae[row.caeName])
         + TrainingOneHot(|vs.nutsCodes|, ms.nuts[row.nuts])
         + TrainingOneHot(|vs.contractTypes|, ms.contract[row.contractType]))
  }

  /** The serving-time request that carries the same fields as a data row. */
  function OfferOf(row: Row): Offer {
    Offer(row.value, Text(row.caeName), Text(row.nuts), Text(row.contractType))
  }

  /** Every row is covered by the tables built from the whole data. */
  lemma CoversAll(data: seq<Row>)
    ensures forall i :: 0 <= i < |data| ==> Covers(TrainingVocabs(data), data[i])
  {
    forall i | 0 <= i < |data|
      ensures Covers(TrainingVocabs(data), data[i])
    {
      CoversRow(data, i);
    }
  }

  /** The unscaled matrix: one encoded row per data row. */
  function RawMatrix(data: seq<Row>, vs: Vocabs): (m: seq<Vector>)
    requires forall i :: 0 <= i < |data| ==> Covers(vs, data[i])
    ensures |m| == |data|
    ensures forall i :: 0 <= i < |data| ==> m[i] == RowFeatures(data[i], vs) && |m[i]| >= 1
  {
    seq(|data|, i requires 0 <= i < |data| => RowFeatures(data[i], vs))
  }

  /** `X[:, 0:1] = scaler.transform(X[:, 0:1])` over the whole matrix. */
  function ScaleColumn(m: seq<Vector>, scaler: real -> real): (x: seq<Vector>)
    requires forall i :: 0 <= i < |m| ==> |m[i]| >= 1
    ensures |x| == |m|
    ensures forall i :: 0 <= i < |m| ==> x[i] == ScaleValue(m[i], scaler)
  {
    seq(|m|, i requires 0 <= i < |m| => ScaleValue(m[i], scaler))
  }

  /** `y = [int(row['CPV']) for row in data]`. */
  function Labels(data: seq<Row>): (y: seq<int>)
    ensures |y| == |data| && forall i :: 0 <= i < |data| ==> y[i] == data[i].cpv
  {
    seq(|data|, i requires 0 <= i < |data| => data[i].cpv)
  }

  /**
   * `prepare_features(data)`. On zero rows `X[:, 0:1]` indexes a
   * one-dimensional empty array and raises; otherwise the scaler is fitted on
   * the value column (`fit` stands for `StandardScaler().fit`) and applied to
   * slot 0 of every row.
   */
  function PrepareFeatures(data: seq<Row>, fit: seq<real> -> (real -> real)): (r: Result<Prepared, Raised>)
    ensures r.Err? <==> |data| == 0
    ensures r.Ok? ==> |r.value.x| == |r.value.y| == |data|
    ensures r.Ok? ==> forall i :: 0 <= i < |data| ==> r.value.y[i] == data[i].cpv
    ensures r.Ok? ==> r.value.vocabs == TrainingVocabs(data)
    ensures r.Ok? ==> r.value.scaler == fit(ValueColumn(data))
  {
    if |data| == 0 then Err(EmptyTrainingData)
    else
      var vs := TrainingVocabs(data);
      CoversAll(data);
      var scaler := fit(ValueColumn(data));
      Ok(Prepared(ScaleColumn(RawMatrix(data, vs), scaler), Labels(data), scaler, vs))
  }

  /**
   * The central invariant: for names present in the vocabularies, the
   * training-time row (no guard, plain indexing) and the serving-time
   * vector (guarded, `get(..., 0)`) are the same vector before scaling.
   */
  lemma TrainServeAgreeUnscaled(row: Row, vs: Vocabs)
    requires Covers(vs, row)
    ensures RowFeatures(row, vs) == RawFeatures(OfferOf(row), vs, MapsOf(vs))
  {
  }

  /**
   * Every prepared training row equals what the serving side computes for the
   * same fields with the stored vocabularies and scaler.
   */
  lemma TrainServeAgree(data: seq<Row>, fit: seq<real> -> (real -> real), i: nat)
    requires |data| > 0 && i < |data|
    ensures var p := PrepareFeatures(data, fit).value;
      p.x[i] == Encode(OfferOf(data[i]), p.vocabs, MapsOf(p.vocabs), p.scaler)
  {
    var p := PrepareFeatures(data, fit).value;
    CoversRow(data, i);
    TrainServeAgreeUnscaled(data[i], p.vocabs);
  }

  /**
   * Every prepared row has the full width and its three blocks each hold a
   * single 1, at the position of that row's own value in the table.
   */
  lemma TrainingRowShape(data: seq<Row>, fit: seq<real> -> (real -> real), i: nat)
    requires |data| > 0 && i < |data|
    ensures var p := PrepareFeatures(data, fit).value;
      && |p.x[i]| == Width(p.vocabs)
      && p.x[i][0] == p.scaler(data[i].value)
      && (exists k :: 0 <= k < |p.vocabs.caeNames| && p.vocabs.caeNames[k] == data[i].caeName
                      && Ones(CaeBlock(p.x[i], p.vocabs)) == {k})
      && (exists k :: 0 <= k < |p.vocabs.nutsCodes| && p.vocabs.nutsCodes[k] == data[i].nuts
                      && Ones(NutsBlock(p.x[i], p.vocabs)) == {k})
      && (exists k :: 0 <= k < |p.vocabs.contractTypes| && p.vocabs.contractTypes[k] == data[i].contractType
                      && Ones(ContractBlock(p.x[i], p.vocabs)) == {k})
  {
    var p := PrepareFeatures(data, fit).value;
    TrainServeAgree(data, fit, i);
    CoversRow(data, i);
    RowShape(data[i], p.vocabs, p.scaler, p.x[i]);
  }

  /** The shape of the serving-side encoding of a row whose names are all in the tables. */
  lemma RowShape(row: Row, vs: Vocabs, scale: real -> real, x: Vector)
    requires Covers(vs, row)
    requires x == Encode(OfferOf(row), vs, MapsOf(vs), scale)
    ensures && |x| == Width(vs)
            && x[0] == scale(row.value)
            && (exists k :: 0 <= k < |vs.caeNames| && vs.caeNames[k] == row.caeName
                            && Ones(CaeBlock(x, vs)) == {k})
            && (exists k :: 0 <= k < |vs.nutsCodes| && vs.nutsCodes[k] == row.nuts
                            && Ones(NutsBlock(x, vs)) == {k})
            && (exists k :: 0 <= k < |vs.contractTypes| && vs.contractTypes[k] == row.contractType
                            && Ones(ContractBlock(x, vs)) == {k})
  {
    EncodeShape(OfferOf(row), vs, scale);
  }

  /**
   * `feature_names`: `VALUE_EURO`, then `CAE_NAME_<name>`, `NUTS_<code>` and
   * `TYPE_<type>` for each vocabulary entry in table order.
   */
  function FeatureNames(vs: Vocabs): (names: seq<string>)
    ensures |names| == Width(vs)
  {
    ["VALUE_EURO"]
      + seq(|vs.caeNames|, i requires 0 <= i < |vs.caeNames| => "CAE_NAME_" + vs.caeNames[i])
      + seq(|vs.nutsCodes|, i requires 0 <= i < |vs.nutsCodes| => "NUTS_" + vs.nutsCodes[i])
      + seq(|vs.contractTypes|, i requires 0 <= i < |vs.contractTypes| => "TYPE_" + vs.contractTypes[i])
  }

  /** `feature_names` has one entry per slot, each block's entries prefixed and in table order. */
  lemma FeatureNamesLayout(vs: Vocabs)
    ensures var names := FeatureNames(vs);
      && |names| == Width(vs)
      && names[0] == "VALUE_EURO"
      && (forall k :: 0 <= k < |vs.caeNames| ==> names[1 + k] == "CAE_NAME_" + vs.caeNames[k])
      && (forall k :: 0 <= k < |vs.nutsCodes| ==> names[1 + |vs.caeNames| + k] == "NUTS_" + vs.nutsCodes[k])
      && (forall k :: 0 <= k < |vs.contractTypes| ==>
            names[1 + |vs.caeNames| + |vs.nutsCodes| + k] == "TYPE_" + vs.contractTypes[k])
  {
  }

  /**
   * Slot `off + k` of a vector whose block at `off` encodes `n` holds a 1
   * exactly when `n` is entry `k`, or `n` is unknown and `k` is 0.
   */
  lemma BlockSlots(x: Vector, v: seq<string>, n: Name, off: nat)
    requires Distinct(v) && off + |v| <= |x|
    requires BlockEncodes(x[off..off + |v|], v, n)
    ensures SlotsMatch(x, v, n, off)
  {
    var b := x[off..off + |v|];
    forall k | 0 <= k < |v|
      ensures x[off + k] == 1.0 <==> n == Text(v[k]) || (!Known(v, n) && k == 0)
    {
      assert x[off + k] == b[k];
      assert b[k] == 1.0 <==> k in Ones(b);
    }
  }

  /**
   * Position `j` of `feature_names` names the feature stored in slot `j` of an
   * encoded vector: a one-hot slot is set exactly when the offer's value is
   * the entry that slot is named after (or, for an unknown value, when the
   * slot is the block's first).
   */
  lemma FeatureNamesMatchSlots(o: Offer, vs: Vocabs, scale: real -> real)
    requires WellFormed(vs)
    ensures var x := Encode(o, vs, MapsOf(vs), scale);
      && |FeatureNames(vs)| == |x|
      && SlotsMatch(x, vs.caeNames, o.caeName, 1)
      && SlotsMatch(x, vs.nutsCodes, o.nuts, 1 + |vs.caeNames|)
      && SlotsMatch(x, vs.contractTypes, o.contractType, 1 + |vs.caeNames| + |vs.nutsCodes|)
  {
    var x := Encode(o, vs, MapsOf(vs), scale);
    EncodeShape(o, vs, scale);
    FeatureNamesLayout(vs);
    ShapeGivesSlots(x, vs, o);
  }

  /** Slot `off + k` is set exactly when `n` is entry `k`, or `n` is unknown and `k` is 0. */
  predicate SlotsMatch(x: Vector, v: seq<string>, n: Name, off: nat)
    requires off + |v| <= |x|
  {
    forall k :: 0 <= k < |v| ==> (x[off + k] == 1.0 <==> n == Text(v[k]) || (!Known(v, n) && k == 0))
  }

  lemma ShapeGivesSlots(x: Vector, vs: Vocabs, o: Offer)
    requires WellFormed(vs) && |x| == Width(vs)
    requires BlockEncodes(CaeBlock(x, vs), vs.caeNames, o.caeName)
    requires BlockEncodes(NutsBlock(x, vs), vs.nutsCodes, o.nuts)
    requires BlockEncodes(ContractBlock(x, vs), vs.contractTypes, o.contractType)
    ensures SlotsMatch(x, vs.caeNames, o.caeName, 1)
    ensures SlotsMatch(x, vs.nutsCodes, o.nuts, 1 + |vs.caeNames|)
    ensures SlotsMatch(x, vs.contractTypes, o.contractType, 1 + |vs.caeNames| + |vs.nutsCodes|)
  {
    BlockSlots(x, vs.caeNames, o.caeName, 1);
    BlockSlots(x, vs.nutsCodes, o.nuts, 1 + |vs.caeNames|);
    var off := 1 + |vs.caeNames| + |vs.nutsCodes|;
    assert ContractBlock(x, vs) == x[off..off + |vs.contractTypes|];
    BlockSlots(x, vs.contractTypes, o.contractType, off);
  }
}

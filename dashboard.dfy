/** The serving side of the dashboard: the 30 sliders that collect one
    measurement each, the positional feature row handed to the stored scaler
    and model, and the decoding of the model's prediction into the label shown.
    The scaler and the model are opaque functions supplied by the caller. */
module Dashboard {
  import Pipeline

  /** The keys of the sidebar's sliders, in the order the sidebar builds them. */
  const SliderKeys: seq<string> := [
    "radius_mean", "texture_mean", "perimeter_mean", "area_mean", "smoothness_mean",
    "compactness_mean", "concavity_mean", "concave_points_mean", "symmetry_mean", "fractal_dimension_mean",
    "radius_se", "texture_se", "perimeter_se", "area_se", "smoothness_se",
    "compactness_se", "concavity_se", "concave_points_se", "symmetry_se", "fractal_dimension_se",
    "radius_worst", "texture_worst", "perimeter_worst", "area_worst", "smoothness_worst",
    "compactness_worst", "concavity_worst", "concave_points_worst", "symmetry_worst", "fractal_dimension_worst"
  ]

  const SliderMin: real := 0.0
  const SliderMax: real := 100.0
  const SliderDefault: real := 50.0

  /** The value one slider yields: its default until the user moves it, else the
      chosen position, which the widget keeps within the slider's range. */
  function SliderValue(moved: Pipeline.Option<real>): (v: real)
    ensures SliderMin <= v <= SliderMax
    ensures moved.None? ==> v == SliderDefault
    ensures moved.Some? && SliderMin <= moved.value <= SliderMax ==> v == moved.value
  {
    match moved
    case None => SliderDefault
    case Some(p) => if p < SliderMin then SliderMin else if p > SliderMax then SliderMax else p
  }

  /** Where the user left the slider with the given key, if they moved it. */
  function Position(moved: map<string, real>, key: string): (p: Pipeline.Option<real>)
    ensures p.Some? <==> key in moved
    ensures p.Some? ==> p.value == moved[key]
  {
    if key in moved then Pipeline.Some(moved[key]) else Pipeline.None
  }

  // ---------------------------------------------------------------------------
  // The input dictionary

  /** One key of the input dictionary and its value. */
  datatype Entry = Entry(key: string, value: real)

  /** An insertion-ordered dictionary. */
  type InputDict = seq<Entry>

  function Keys(d: InputDict): (r: seq<string>)
    ensures |r| == |d| && forall i :: 0 <= i < |d| ==> r[i] == d[i].key
  {
    seq(|d|, i requires 0 <= i < |d| => d[i].key)
  }

  /** d[key] = value: an existing key keeps its place and takes the new value, a
      new key goes at the end. */
  function Store(d: InputDict, key: string, value: real): (r: InputDict)
    ensures key !in Keys(d) ==> r == d + [Entry(key, value)]
    ensures key in Keys(d) ==> Keys(r) == Keys(d)
    ensures Entry(key, value) in r
    ensures Pipeline.Distinct(Keys(d)) && key in Keys(d) ==>
              && |r| == |d|
              && forall i :: 0 <= i < |d| ==> r[i] == (if d[i].key == key then Entry(key, value) else d[i])
  {
    if d == [] then [Entry(key, value)]
    else if d[0].key == key then
      DistinctHead(d);
      [Entry(key, value)] + d[1..]
    else
      var rest := Store(d[1..], key, value);
      assert key !in Keys(d[1..]) ==> rest == d[1..] + [Entry(key, value)];
      assert key in Keys(d) && key != d[0].key ==> key in Keys(d[1..]) by {
        if key in Keys(d) && key != d[0].key {
          var i :| 0 <= i < |d| && Keys(d)[i] == key;
          assert Keys(d[1..])[i - 1] == key;
        }
      }
      assert key in Keys(d[1..]) ==> Keys([d[0]] + rest) == [d[0].key] + Keys(rest);
      DistinctTail(d);
      [d[0]] + rest
  }

  /** With distinct keys, no later entry has the first entry's key. */
  lemma DistinctHead(d: InputDict)
    requires d != []
    ensures Pipeline.Distinct(Keys(d)) ==> forall i :: 0 < i < |d| ==> d[i].key != d[0].key
  {
    assert forall i :: 0 < i < |d| ==> Keys(d)[i] == d[i].key;
  }

  /** Distinct keys stay distinct without the first entry. */
  lemma DistinctTail(d: InputDict)
    requires d != []
    ensures Pipeline.Distinct(Keys(d)) ==> Pipeline.Distinct(Keys(d[1..]))
  {
    assert forall i :: 0 <= i < |d| - 1 ==> Keys(d[1..])[i] == Keys(d)[i + 1];
  }

  /** No two sliders share a key. */
  lemma SliderKeysDistinct()
    ensures Pipeline.Distinct(SliderKeys)
  {
    KeysDistinctFrom0();
    KeysDistinctFrom4();
    KeysDistinctFrom9();
    KeysDistinctFrom15();
  }

  // The four KeysDistinctFrom lemmas split the pairs of positions into chunks
  // for the same reason.

  lemma KeysDistinctFrom0()
    ensures forall i, j :: 0 <= i < 4 && i < j < 30 ==> SliderKeys[i] != SliderKeys[j]
  {
  }

  lemma KeysDistinctFrom4()
    ensures forall i, j :: 4 <= i < 9 && i < j < 30 ==> SliderKeys[i] != SliderKeys[j]
  {
  }

  lemma KeysDistinctFrom9()
    ensures forall i, j :: 9 <= i < 15 && i < j < 30 ==> SliderKeys[i] != SliderKeys[j]
  {
  }

  lemma KeysDistinctFrom15()
    ensures forall i, j :: 15 <= i < 30 && i < j < 30 ==> SliderKeys[i] != SliderKeys[j]
  {
  }

  /** A slider's key is not yet in a dictionary holding the keys of the sliders before it. */
  lemma KeyIsNew(inputs: InputDict, i: nat)
    requires i < |SliderKeys| && |inputs| == i
    requires forall k :: 0 <= k < i ==> inputs[k].key == SliderKeys[k]
    ensures SliderKeys[i] !in Keys(inputs)
  {
    SliderKeysDistinct();
    assert forall k :: 0 <= k < i ==> Keys(inputs)[k] != SliderKeys[i];
  }

  /** add_sidebar: one slider per key, in order, each stored into the input
      dictionary. The dictionary ends with exactly the 30 keys, in slider order,
      each holding a value in [0, 100]: the default 50 for an untouched slider
      and the chosen position for a moved one. */
  method AddSidebar(moved: map<string, real>) returns (inputs: InputDict)
    ensures |inputs| == |SliderKeys| == 30
    ensures forall i :: 0 <= i < |inputs| ==> inputs[i].key == SliderKeys[i]
    ensures forall i :: 0 <= i < |inputs| ==> inputs[i].value == SliderValue(Position(moved, inputs[i].key))
    ensures forall i :: 0 <= i < |inputs| ==> SliderMin <= inputs[i].value <= SliderMax
  {
    inputs := [];
    for i := 0 to |SliderKeys|
      invariant |inputs| == i
      invariant forall k :: 0 <= k < i ==> inputs[k].key == SliderKeys[k]
      invariant forall k :: 0 <= k < i ==> inputs[k].value == SliderValue(Position(moved, inputs[k].key))
    {
      var key := SliderKeys[i];
      KeyIsNew(inputs, i);
      inputs := Store(inputs, key, SliderValue(Position(moved, key)));
    }
  }

  /** The dictionary as a one-row table, flattened to a positional array. */
  function Flatten(d: InputDict): (row: seq<real>)
    ensures |row| == |d| && forall i :: 0 <= i < |d| ==> row[i] == d[i].value
  {
    seq(|d|, i requires 0 <= i < |d| => d[i].value)
  }

  // ---------------------------------------------------------------------------
  // Agreement with the training schema

  /** A column name with every space written as an underscore. */
  function Underscored(name: string): (r: string)
    ensures |r| == |name|
    ensures ' ' !in r
    ensures forall i :: 0 <= i < |name| && name[i] != ' ' ==> r[i] == name[i]
    ensures forall i :: 0 <= i < |name| && name[i] == ' ' ==> r[i] == '_'
  {
    seq(|name|, i requires 0 <= i < |name| => if name[i] == ' ' then '_' else name[i])
  }

  /** The i-th slider key is the i-th training feature with its space written as
      an underscore, and it differs from the training name exactly for the three
      "concave points" features. */
  lemma SliderKeysFollowSchema()
    ensures |SliderKeys| == |Pipeline.FeatureNames()| == 30
    ensures forall i :: 0 <= i < 30 ==> SliderKeys[i] == Underscored(Pipeline.FeatureNames()[i])
    ensures forall i :: 0 <= i < 30 ==> (SliderKeys[i] != Pipeline.FeatureNames()[i] <==> i % 10 == 7)
  {
    forall i | 0 <= i < 30
      ensures SliderKeys[i] == Underscored(Pipeline.FeatureNames()[i])
      ensures SliderKeys[i] != Pipeline.FeatureNames()[i] <==> i % 10 == 7
    {
      if i < 3 { KeysFrom0(i); } else if i < 6 { KeysFrom3(i); } else if i < 9 { KeysFrom6(i); }
      else if i < 12 { KeysFrom9(i); } else if i < 15 { KeysFrom12(i); } else if i < 18 { KeysFrom15(i); }
      else if i < 21 { KeysFrom18(i); } else if i < 24 { KeysFrom21(i); } else if i < 27 { KeysFrom24(i); }
      else { KeysFrom27(i); }
    }
  }

  // KeysFrom0 .. KeysFrom27 split the 30 positions into ranges of three, which
  // SliderKeysFollowSchema dispatches over; inside each, the case chain makes
  // the solver take one index at a time, without which some of these proofs
  // fail on some solver seeds.

  lemma KeysFrom0(i: nat)
    requires 0 <= i < 3
    ensures SliderKeys[i] == Underscored(Pipeline.FeatureNames()[i])
    ensures SliderKeys[i] != Pipeline.FeatureNames()[i] <==> false
  {
    if i == 0 {
    } else if i == 1 {
    } else {
    }
  }

  lemma KeysFrom3(i: nat)
    requires 3 <= i < 6
    ensures SliderKeys[i] == Underscored(Pipeline.FeatureNames()[i])
    ensures SliderKeys[i] != Pipeline.FeatureNames()[i] <==> false
  {
    if i == 3 {
    } else if i == 4 {
    } else {
    }
  }

  lemma KeysFrom6(i: nat)
    requires 6 <= i < 9
    ensures SliderKeys[i] == Underscored(Pipeline.FeatureNames()[i])
    ensures SliderKeys[i] != Pipeline.FeatureNames()[i] <==> i == 7
  {
    if i == 6 {
    } else if i == 7 {
    } else {
    }
  }

  lemma KeysFrom9(i: nat)
    requires 9 <= i < 12
    ensures SliderKeys[i] == Underscored(Pipeline.FeatureNames()[i])
    ensures SliderKeys[i] != Pipeline.FeatureNames()[i] <==> false
  {
    if i == 9 {
    } else if i == 10 {
    } else {
    }
  }

  lemma KeysFrom12(i: nat)
    requires 12 <= i < 15
    ensures SliderKeys[i] == Underscored(Pipeline.FeatureNames()[i])
    ensures SliderKeys[i] != Pipeline.FeatureNames()[i] <==> false
  {
    if i == 12 {
    } else if i == 13 {
    } else {
    }
  }

  lemma KeysFrom15(i: nat)
    requires 15 <= i < 18
    ensures SliderKeys[i] == Underscored(Pipeline.FeatureNames()[i])
    ensures SliderKeys[i] != Pipeline.FeatureNames()[i] <==> i == 17
  {
    if i == 15 {
    } else if i == 16 {
    } else {
    }
  }

  lemma KeysFrom18(i: nat)
    requires 18 <= i < 21
    ensures SliderKeys[i] == Underscored(Pipeline.FeatureNames()[i])
    ensures SliderKeys[i] != Pipeline.FeatureNames()[i] <==> false
  {
    if i == 18 {
    } else if i == 19 {
    } else {
    }
  }

  lemma KeysFrom21(i: nat)
    requires 21 <= i < 24
    ensures SliderKeys[i] == Underscored(Pipeline.FeatureNames()[i])
    ensures SliderKeys[i] != Pipeline.FeatureNames()[i] <==> false
  {
    if i == 21 {
    } else if i == 22 {
    } else {
    }
  }

  lemma KeysFrom24(i: nat)
    requires 24 <= i < 27
    ensures SliderKeys[i] == Underscored(Pipeline.FeatureNames()[i])
    ensures SliderKeys[i] != Pipeline.FeatureNames()[i] <==> false
  {
    if i == 24 {
    } else if i == 25 {
    } else {
    }
  }

  lemma KeysFrom27(i: nat)
    requires 27 <= i < 30
    ensures SliderKeys[i] == Underscored(Pipeline.FeatureNames()[i])
    ensures SliderKeys[i] != Pipeline.FeatureNames()[i] <==> i == 27
  {
    if i == 27 {
    } else if i == 28 {
    } else {
    }
  }

  /** Train/serve layout: the positional row built from the sidebar has one
      value per feature column the model was trained on, and its i-th value is
      the slider for the i-th training feature. */
  lemma ServingRowMatchesTraining(records: seq<seq<string>>, inputs: InputDict)
    requires |inputs| == |SliderKeys|
    requires forall i :: 0 <= i < |inputs| ==> inputs[i].key == SliderKeys[i]
    ensures var split := Pipeline.SplitFeaturesTarget(Pipeline.CleanedColumns(records));
      && split.Some?
      && |Flatten(inputs)| == |split.value.0|
      && forall i :: 0 <= i < |Flatten(inputs)| ==>
           inputs[i].key == Underscored(split.value.0[i].name) && Flatten(inputs)[i] == inputs[i].value
  {
    Pipeline.CleanedSplit(records);
    SliderKeysFollowSchema();
  }

  // ---------------------------------------------------------------------------
  // Prediction

  /** The label shown for a prediction: "Benign" for 0, "Malignant" otherwise. */
  function DiagnosisLabel(prediction: int): (shown: string)
    ensures shown == "Benign" <==> prediction == 0
    ensures shown == "Malignant" <==> prediction != 0
  {
    if prediction == 0 then "Benign" else "Malignant"
  }

  /** Decoding undoes the training-side label encoding: a sample labelled "M"
      is shown as Malignant and one labelled "B" as Benign. */
  lemma LabelRoundTrip(raw: string)
    requires raw == "M" || raw == "B"
    ensures var code := Pipeline.EncodeLabel(Pipeline.Token(raw));
      && code.Code?
      && DiagnosisLabel(code.n) == (if raw == "M" then "Malignant" else "Benign")
  {
  }

  /** What the prediction panel shows. */
  datatype Report = Report(diagnosis: string, pBenign: real, pMalignant: real)

  /** add_predictions: scale the positional row with the stored scaler, ask the
      stored model for its class and class probabilities, and decode the class. */
  function AddPredictions(
    transform: seq<real> -> seq<real>, predict: seq<real> -> int,
    probabilities: seq<real> -> (real, real), inputs: InputDict): (r: Report)
    ensures r.diagnosis == "Benign" <==> predict(transform(Flatten(inputs))) == 0
    ensures r.diagnosis == "Benign" || r.diagnosis == "Malignant"
    ensures (r.pBenign, r.pMalignant) == probabilities(transform(Flatten(inputs)))
  {
    var scaled := transform(Flatten(inputs));
    var (pBenign, pMalignant) := probabilities(scaled);
    Report(DiagnosisLabel(predict(scaled)), pBenign, pMalignant)
  }

  /** The page: build the sidebar, then predict from it. The model is asked
      about the slider values in slider order, which is training-column order. */
  method PredictFromSidebar(
    moved: map<string, real>, transform: seq<real> -> seq<real>, predict: seq<real> -> int,
    probabilities: seq<real> -> (real, real)) returns (r: Report)
    ensures var row := seq(30, i requires 0 <= i < 30 => SliderValue(Position(moved, SliderKeys[i])));
      && r.diagnosis == DiagnosisLabel(predict(transform(row)))
      && (r.pBenign, r.pMalignant) == probabilities(transform(row))
  {
    var inputs := AddSidebar(moved);
    r := AddPredictions(transform, predict, probabilities, inputs);
    assert Flatten(inputs) == seq(30, i requires 0 <= i < 30 => SliderValue(Position(moved, SliderKeys[i])));
  }
}

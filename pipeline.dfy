/** The training script: the imposed column schema, the cleaning of the raw
    table, the split into features and target, and the decision to write the
    model artifacts. Tables are column-major; feature readings stay opaque
    tokens, so no floating-point arithmetic is involved. */
module Pipeline {

  datatype Option<T> = None | Some(value: T)

  /** One table cell: a token as read from the file, an integer code written by
      the label encoding, or a missing value (pandas' NaN). */
  datatype Cell = Token(text: string) | Code(n: int) | Missing

  datatype Column = Column(name: string, values: seq<Cell>)

  /** A data frame, column by column, in column order. */
  type Frame = seq<Column>

  function Names(f: Frame): (r: seq<string>)
    ensures |r| == |f|
    ensures forall j :: 0 <= j < |f| ==> r[j] == f[j].name
  {
    seq(|f|, j requires 0 <= j < |f| => f[j].name)
  }

  // ---------------------------------------------------------------------------
  // The schema

  /** The ten measured quantities, in schema order. */
  const Quantities: seq<string> :=
    ["radius", "texture", "perimeter", "area", "smoothness",
     "compactness", "concavity", "concave points", "symmetry", "fractal_dimension"]

  /** The three measurement groups, in schema order. */
  const Groups: seq<string> := ["mean", "se", "worst"]

  /** The 32 names imposed on the header-less input file. */
  const ColumnNames: seq<string> := [
    "id", "diagnosis", "radius_mean", "texture_mean", "perimeter_mean", "area_mean", "smoothness_mean",
    "compactness_mean", "concavity_mean", "concave points_mean", "symmetry_mean", "fractal_dimension_mean",
    "radius_se", "texture_se", "perimeter_se", "area_se", "smoothness_se", "compactness_se", "concavity_se",
    "concave points_se", "symmetry_se", "fractal_dimension_se", "radius_worst", "texture_worst",
    "perimeter_worst", "area_worst", "smoothness_worst", "compactness_worst", "concavity_worst",
    "concave points_worst", "symmetry_worst", "fractal_dimension_worst"
  ]

  /** The name of quantity q in group g. */
  function FeatureName(g: nat, q: nat): string
    requires g < |Groups| && q < |Quantities|
  {
    Quantities[q] + "_" + Groups[g]
  }

  /** The 30 feature columns: everything after the identifier and the label. */
  function FeatureNames(): (r: seq<string>)
    ensures |r| == 30
  {
    ColumnNames[2..]
  }

  /** The schema is the identifier, then the label, then the 30 features as three
      groups of ten (mean, standard error, worst), each in the same quantity order. */
  lemma ColumnNamesLayout()
    ensures |ColumnNames| == 32
    ensures ColumnNames[0] == "id" && ColumnNames[1] == "diagnosis"
    ensures forall g: nat, q: nat :: g < 3 && q < 10 ==> ColumnNames[2 + 10 * g + q] == FeatureName(g, q)
  {
    forall g: nat, q: nat | g < 3 && q < 10
      ensures ColumnNames[2 + 10 * g + q] == FeatureName(g, q)
    {
      FeatureNameAt(g, q);
    }
  }

  lemma FeatureNameAt(g: nat, q: nat)
    requires g < 3 && q < 10
    ensures ColumnNames[2 + 10 * g + q] == FeatureName(g, q)
  {
    var k := 10 * g + q;
    assert k / 10 == g && k % 10 == q;
    if k < 5 { NamesFrom0(k); } else if k < 10 { NamesFrom5(k); } else if k < 15 { NamesFrom10(k); }
    else if k < 20 { NamesFrom15(k); } else if k < 25 { NamesFrom20(k); } else { NamesFrom25(k); }
  }

  // NamesFrom0 .. NamesFrom25 split the 30 positions into ranges of five; the
  // dispatch over them in FeatureNameAt is what keeps each proof about the
  // literal schema small.

  lemma NamesFrom0(k: nat)
    requires 0 <= k < 5
    ensures ColumnNames[2 + k] == FeatureName(k / 10, k % 10)
  {
  }

  lemma NamesFrom5(k: nat)
    requires 5 <= k < 10
    ensures ColumnNames[2 + k] == FeatureName(k / 10, k % 10)
  {
  }

  lemma NamesFrom10(k: nat)
    requires 10 <= k < 15
    ensures ColumnNames[2 + k] == FeatureName(k / 10, k % 10)
  {
  }

  lemma NamesFrom15(k: nat)
    requires 15 <= k < 20
    ensures ColumnNames[2 + k] == FeatureName(k / 10, k % 10)
  {
  }

  lemma NamesFrom20(k: nat)
    requires 20 <= k < 25
    ensures ColumnNames[2 + k] == FeatureName(k / 10, k % 10)
  {
  }

  lemma NamesFrom25(k: nat)
    requires 25 <= k < 30
    ensures ColumnNames[2 + k] == FeatureName(k / 10, k % 10)
  {
  }

  predicate Distinct(s: seq<string>)
  {
    forall i, j :: 0 <= i < j < |s| ==> s[i] != s[j]
  }

  /** No two columns of the schema share a name. */
  lemma ColumnNamesDistinct()
    ensures Distinct(ColumnNames)
  {
    NamesDistinctFrom0();
    NamesDistinctFrom4();
    NamesDistinctFrom9();
    NamesDistinctFrom15();
  }

  // The four NamesDistinctFrom lemmas split the pairs of positions into chunks
  // for the same reason.

  lemma NamesDistinctFrom0()
    ensures forall i, j :: 0 <= i < 4 && i < j < 32 ==> ColumnNames[i] != ColumnNames[j]
  {
  }

  lemma NamesDistinctFrom4()
    ensures forall i, j :: 4 <= i < 9 && i < j < 32 ==> ColumnNames[i] != ColumnNames[j]
  {
  }

  lemma NamesDistinctFrom9()
    ensures forall i, j :: 9 <= i < 15 && i < j < 32 ==> ColumnNames[i] != ColumnNames[j]
  {
  }

  lemma NamesDistinctFrom15()
    ensures forall i, j :: 15 <= i < 32 && i < j < 32 ==> ColumnNames[i] != ColumnNames[j]
  {
  }

  // ---------------------------------------------------------------------------
  // Reading

  /** The field texts read_csv turns into a missing value by default
      (keep_default_na): the empty field and pandas' NA markers. */
  const NaMarkers: set<string> := {
    "", "#N/A", "#N/A N/A", "#NA", "-1.#IND", "-1.#QNAN", "-NaN", "-nan", "1.#IND", "1.#QNAN",
    "<NA>", "N/A", "NA", "NULL", "NaN", "None", "n/a", "nan", "null"
  }

  /** Field j of one parsed record: missing when the record is too short to
      reach it (read_csv pads with NaN) or when its text is an NA marker. */
  function FieldAt(record: seq<string>, j: nat): (c: Cell)
    ensures c.Missing? <==> j >= |record| || record[j] in NaMarkers
    ensures c.Token? ==> c.text == record[j] && c.text !in NaMarkers
    ensures !c.Code?
  {
    if j < |record| && record[j] !in NaMarkers then Token(record[j]) else Missing
  }

  /** Field j of every record, top to bottom. */
  function FieldColumn(records: seq<seq<string>>, j: nat): (vs: seq<Cell>)
    ensures |vs| == |records|
    ensures forall r :: 0 <= r < |records| ==>
              (vs[r].Missing? <==> j >= |records[r]| || records[r][j] in NaMarkers)
    ensures forall r :: 0 <= r < |records| && vs[r].Token? ==> vs[r].text == records[r][j]
  {
    seq(|records|, r requires 0 <= r < |records| => FieldAt(records[r], j))
  }

  /** The frame that reading the records under the imposed names yields:
      column j is named names[j] and holds field j of every record. */
  function ReadWithNames(names: seq<string>, records: seq<seq<string>>): (f: Frame)
    ensures Names(f) == names
    ensures forall j :: 0 <= j < |f| ==> f[j] == Column(names[j], FieldColumn(records, j))
  {
    seq(|names|, j requires 0 <= j < |names| => Column(names[j], FieldColumn(records, j)))
  }

  // ---------------------------------------------------------------------------
  // Dropping columns

  /** The columns the cleaning step drops when present. */
  const ColumnsToDrop: seq<string> := ["Unnamed: 32", "id"]

  /** Those of the candidates that name a column of f, in the candidates' order. */
  function ExistingColumns(f: Frame, candidates: seq<string>): (r: seq<string>)
    ensures forall c :: c in r <==> c in candidates && c in Names(f)
    ensures |r| <= |candidates|
  {
    if candidates == [] then []
    else (if candidates[0] in Names(f) then [candidates[0]] else []) + ExistingColumns(f, candidates[1..])
  }

  /** Removes every column whose name is one of labels; the rest keep their order. */
  function DropColumns(f: Frame, labels: seq<string>): (r: Frame)
    ensures |r| <= |f|
    ensures forall c :: c in r <==> c in f && c.name !in labels
  {
    if f == [] then []
    else (if f[0].name in labels then [] else [f[0]]) + DropColumns(f[1..], labels)
  }

  /** Dropping distributes over concatenation: together with the one-column case
      this says the kept columns stay in their original relative order. */
  lemma {:induction false} DropColumnsAppend(f1: Frame, f2: Frame, labels: seq<string>)
    ensures DropColumns(f1 + f2, labels) == DropColumns(f1, labels) + DropColumns(f2, labels)
  {
    if f1 == [] {
      assert f1 + f2 == f2;
    } else {
      assert (f1 + f2)[1..] == f1[1..] + f2;
      DropColumnsAppend(f1[1..], f2, labels);
    }
  }

  /** For the removal alone, a second pass with the same labels removes nothing
      more (pandas' drop itself raises the second time: DropTwiceRaises). */
  lemma {:induction false} DropColumnsIdempotent(f: Frame, labels: seq<string>)
    ensures DropColumns(DropColumns(f, labels), labels) == DropColumns(f, labels)
  {
    if f != [] {
      var rest := DropColumns(f[1..], labels);
      DropColumnsIdempotent(f[1..], labels);
      if f[0].name !in labels {
        var d := DropColumns(f, labels);
        assert d == [f[0]] + rest;
        assert d[0] == f[0] && d[1..] == rest;
      } else {
        assert DropColumns(f, labels) == [] + rest == rest;
      }
    }
  }

  /** For the removal alone, a label that names no column changes nothing; the
      pandas drop raises on one instead (Drop), which is why the cleaning
      passes only the labels that exist. */
  lemma {:induction false} DropAbsentLabels(f: Frame, labels: seq<string>, present: seq<string>)
    requires forall c :: c in present <==> c in labels && c in Names(f)
    ensures DropColumns(f, present) == DropColumns(f, labels)
  {
    if f != [] {
      assert f[0].name in Names(f);
      forall c | c in present ensures c in Names(f) { }
      DropAbsentLabelsTail(f, labels, present);
    }
  }

  lemma {:induction false} DropAbsentLabelsTail(f: Frame, labels: seq<string>, present: seq<string>)
    requires f != []
    requires forall c :: c in present ==> c in labels
    requires forall c :: c in labels && c in Names(f) ==> c in present
    ensures DropColumns(f, present) == DropColumns(f, labels)
  {
    assert f[0].name in Names(f);
    if |f| > 1 {
      forall c | c in labels && c in Names(f[1..]) ensures c in present {
        var j :| 0 <= j < |f[1..]| && Names(f[1..])[j] == c;
        assert Names(f)[j + 1] == c;
      }
      DropAbsentLabelsTail(f[1..], labels, present);
    }
  }

  /** DataFrame.drop(labels, axis=1) with its default errors='raise': it raises
      (None) when one of the labels names no column, and otherwise removes every
      column named by a label. DropColumns is the removal alone. */
  function Drop(f: Frame, labels: seq<string>): (r: Option<Frame>)
    ensures r.Some? <==> forall l :: l in labels ==> l in Names(f)
    ensures r.Some? ==> r.value == DropColumns(f, labels)
  {
    if forall l :: l in labels ==> l in Names(f) then Some(DropColumns(f, labels)) else None
  }

  /** After a successful drop no column carries a dropped label, so repeating the
      same drop raises. */
  lemma DropTwiceRaises(f: Frame, labels: seq<string>)
    requires labels != [] && Drop(f, labels).Some?
    ensures Drop(Drop(f, labels).value, labels).None?
  {
    var d := Drop(f, labels).value;
    assert labels[0] in labels;
    forall j | 0 <= j < |d| ensures Names(d)[j] != labels[0] {
      assert d[j] in d;
    }
  }

  /** The drop step of the cleaning: only the listed columns that exist are
      dropped, so the drop never raises; the survivors are the columns named
      neither "Unnamed: 32" nor "id". */
  function DropPresent(f: Frame): (r: Frame)
    ensures Drop(f, ExistingColumns(f, ColumnsToDrop)) == Some(r)
    ensures r == DropColumns(f, ColumnsToDrop)
    ensures forall c :: c in r <==> c in f && c.name != "Unnamed: 32" && c.name != "id"
  {
    var existing := ExistingColumns(f, ColumnsToDrop);
    DropAbsentLabels(f, ColumnsToDrop, existing);
    DropColumns(f, existing)
  }

  /** Without the filter the drop would raise on every table read under the
      imposed names, since none of them is "Unnamed: 32". */
  lemma UnfilteredDropRaises(records: seq<seq<string>>)
    ensures Drop(ReadWithNames(ColumnNames, records), ColumnsToDrop).None?
  {
    SchemaFacts();
    assert ColumnsToDrop[0] == "Unnamed: 32";
    assert "Unnamed: 32" !in ColumnNames;
  }

  /** Applying the drop step twice equals applying it once. */
  lemma DropPresentIdempotent(f: Frame)
    ensures DropPresent(DropPresent(f)) == DropPresent(f)
  {
    DropColumnsIdempotent(f, ColumnsToDrop);
  }

  // ---------------------------------------------------------------------------
  // Label encoding

  /** The label map: "M" to 1, "B" to 0; any other value has no mapping and
      becomes missing, it is not rejected. */
  function EncodeLabel(c: Cell): (r: Cell)
    ensures r == Code(1) <==> c == Token("M")
    ensures r == Code(0) <==> c == Token("B")
    ensures r == Missing <==> c != Token("M") && c != Token("B")
  {
    if c == Token("M") then Code(1)
    else if c == Token("B") then Code(0)
    else Missing
  }

  function EncodeValues(vs: seq<Cell>): (r: seq<Cell>)
    ensures |r| == |vs| && forall k :: 0 <= k < |vs| ==> r[k] == EncodeLabel(vs[k])
  {
    seq(|vs|, k requires 0 <= k < |vs| => EncodeLabel(vs[k]))
  }

  /** Overwrites the label column with its encoding; every other column is untouched. */
  function EncodeDiagnosis(f: Frame): (r: Frame)
    ensures Names(r) == Names(f)
    ensures forall j :: 0 <= j < |f| && f[j].name != "diagnosis" ==> r[j] == f[j]
    ensures forall j :: 0 <= j < |f| && f[j].name == "diagnosis" ==> r[j].values == EncodeValues(f[j].values)
  {
    seq(|f|, j requires 0 <= j < |f| =>
      if f[j].name == "diagnosis" then Column("diagnosis", EncodeValues(f[j].values)) else f[j])
  }

  // ---------------------------------------------------------------------------
  // Cleaning

  /** The body of the cleaning once the table is read: drop, then encode the
      label, or give up when there is no label column. */
  function CleanFrame(f: Frame): (r: Option<Frame>)
    ensures r.Some? <==> "diagnosis" in Names(f)
    ensures r.Some? ==> r.value == EncodeDiagnosis(DropPresent(f))
    ensures r.Some? ==> forall c :: c in r.value && c.name != "diagnosis" <==>
                          c in f && c.name !in ["Unnamed: 32", "id", "diagnosis"]
  {
    var d := DropPresent(f);
    if "diagnosis" in Names(d) then Some(EncodeDiagnosis(d)) else None
  }

  /** The cleaning entry point. The file's presence and the outcome of parsing are
      inputs: parsed is None when reading raised. */
  function GetCleanData(fileExists: bool, parsed: Option<seq<seq<string>>>): (r: Option<Frame>)
    ensures r.Some? <==> fileExists && parsed.Some?
    ensures r.Some? ==> r.value == CleanedColumns(parsed.value)
  {
    if !fileExists then None
    else match parsed
      case None => None
      case Some(records) =>
        CleanRead(records);
        CleanFrame(ReadWithNames(ColumnNames, records))
  }

  /** What the schema makes of the cleaned table: the label column, holding the
      encoded label of every record, followed by the 30 feature columns, each
      holding its field of every record unchanged. */
  function CleanedColumns(records: seq<seq<string>>): (f: Frame)
    ensures |f| == 31 && f[0].name == "diagnosis"
    ensures forall j :: 1 <= j < 31 ==> f[j].name == FeatureNames()[j - 1]
    ensures forall j :: 0 <= j < 31 ==> |f[j].values| == |records|
  {
    [Column("diagnosis", EncodeValues(FieldColumn(records, 1)))] +
    seq(30, j requires 0 <= j < 30 => Column(FeatureNames()[j], FieldColumn(records, j + 2)))
  }

  /** The facts about the imposed names that the cleaning relies on. */
  lemma SchemaFacts()
    ensures |ColumnNames| == 32
    ensures ColumnNames[0] == "id" && ColumnNames[1] == "diagnosis"
    ensures forall j :: 1 <= j < 32 ==> ColumnNames[j] !in ColumnsToDrop
    ensures forall j :: 2 <= j < 32 ==> ColumnNames[j] != "diagnosis"
  {
  }

  /** Under the imposed names the drop step removes exactly the identifier. */
  lemma ReadThenDrop(records: seq<seq<string>>)
    ensures var f := ReadWithNames(ColumnNames, records);
      DropPresent(f) == f[1..]
  {
    var f := ReadWithNames(ColumnNames, records);
    SchemaFacts();
    assert f == [f[0]] + f[1..];
    DropColumnsAppend([f[0]], f[1..], ColumnsToDrop);
    assert DropColumns([f[0]], ColumnsToDrop) == [];
    forall j | 0 <= j < |f[1..]| ensures f[1..][j].name !in ColumnsToDrop {
      assert f[1..][j].name == ColumnNames[j + 1];
    }
    DropNothing(f[1..], ColumnsToDrop);
  }

  /** Cleaning what was read under the imposed names yields the cleaned table. */
  lemma CleanRead(records: seq<seq<string>>)
    ensures CleanFrame(ReadWithNames(ColumnNames, records)) == Some(CleanedColumns(records))
  {
    var f := ReadWithNames(ColumnNames, records);
    ReadThenDrop(records);
    var d := f[1..];
    SchemaFacts();
    assert Names(d)[0] == "diagnosis";
    EncodeSchemaTail(records, d);
  }

  lemma EncodeSchemaTail(records: seq<seq<string>>, d: Frame)
    requires d == ReadWithNames(ColumnNames, records)[1..]
    ensures EncodeDiagnosis(d) == CleanedColumns(records)
  {
    var f := ReadWithNames(ColumnNames, records);
    SchemaFacts();
    var e := EncodeDiagnosis(d);
    var want := CleanedColumns(records);
    assert |e| == |want| == 31;
    forall j | 0 <= j < 31 ensures e[j] == want[j] {
      if j > 0 {
        assert d[j] == f[j + 1];
        assert FeatureNames()[j - 1] == ColumnNames[j + 1];
      }
    }
  }

  lemma {:induction false} DropNothing(f: Frame, labels: seq<string>)
    requires forall j :: 0 <= j < |f| ==> f[j].name !in labels
    ensures DropColumns(f, labels) == f
  {
    if f != [] {
      DropNothing(f[1..], labels);
    }
  }

  // ---------------------------------------------------------------------------
  // Training

  /** The values of the first column named name. */
  function ColumnValues(f: Frame, name: string): (vs: seq<Cell>)
    requires name in Names(f)
    ensures exists j :: 0 <= j < |f| && f[j].name == name && f[j].values == vs
  {
    if f[0].name == name then f[0].values else ColumnValues(f[1..], name)
  }

  /** The features are every column except the label, in order; the target is
      the label column. Nothing when the label column is absent. */
  function SplitFeaturesTarget(data: Frame): (r: Option<(Frame, seq<Cell>)>)
    ensures r.Some? <==> "diagnosis" in Names(data)
    ensures r.Some? ==> Drop(data, ["diagnosis"]) == Some(r.value.0)
    ensures r.Some? ==> r.value.0 == DropColumns(data, ["diagnosis"])
    ensures r.Some? ==> exists j :: 0 <= j < |data| && data[j].name == "diagnosis" && data[j].values == r.value.1
  {
    if "diagnosis" !in Names(data) then None
    else Some((Drop(data, ["diagnosis"]).value, ColumnValues(data, "diagnosis")))
  }

  /** How a call ends: with a value, or by raising an exception nobody catches. */
  datatype Outcome<T> = Returned(value: T) | Raised

  /** create_model: neither a model nor a scaler when there is no label column;
      otherwise the fitted model and scaler, unless fitting raises. Scaling,
      splitting and fitting are the opaque fit, which gives None where
      scikit-learn raises (missing or non-numeric values, say). */
  function CreateModel<M, S>(data: Frame, fit: (Frame, seq<Cell>) -> Option<(M, S)>): (r: Outcome<(Option<M>, Option<S>)>)
    ensures r == Returned((None, None)) <==> "diagnosis" !in Names(data)
    ensures r.Raised? <==> "diagnosis" in Names(data) && fit(DropColumns(data, ["diagnosis"]), ColumnValues(data, "diagnosis")).None?
    ensures r.Returned? && "diagnosis" in Names(data) ==>
              && r.value.0.Some? && r.value.1.Some?
              && fit(DropColumns(data, ["diagnosis"]), ColumnValues(data, "diagnosis")) == Some((r.value.0.value, r.value.1.value))
  {
    match SplitFeaturesTarget(data)
    case None => Returned((None, None))
    case Some(xy) =>
      match fit(xy.0, xy.1)
      case None => Raised
      case Some((model, scaler)) => Returned((Some(model), Some(scaler)))
  }

  /** On the cleaned table the features are the 30 schema features in schema
      order, and the target is the encoded label of every record. */
  lemma CleanedSplit(records: seq<seq<string>>)
    ensures var split := SplitFeaturesTarget(CleanedColumns(records));
      && split.Some?
      && split.value.0 == CleanedColumns(records)[1..]
      && Names(split.value.0) == FeatureNames()
      && split.value.1 == EncodeValues(FieldColumn(records, 1))
  {
    var f := CleanedColumns(records);
    FeaturesAfterLabel(records);
    assert Names(f)[0] == "diagnosis";
    assert ColumnValues(f, "diagnosis") == f[0].values;
  }

  /** Dropping the label from the cleaned table leaves the 30 feature columns. */
  lemma FeaturesAfterLabel(records: seq<seq<string>>)
    ensures DropColumns(CleanedColumns(records), ["diagnosis"]) == CleanedColumns(records)[1..]
    ensures Names(CleanedColumns(records)[1..]) == FeatureNames()
  {
    var f := CleanedColumns(records);
    NoFeatureIsLabel();
    assert forall j :: 0 <= j < |f[1..]| ==> f[1..][j].name == FeatureNames()[j];
    assert f == [f[0]] + f[1..];
    DropLeadingLabel(f[0], f[1..]);
  }

  /** Dropping the label from a frame whose only label column is its first
      leaves the rest. */
  lemma DropLeadingLabel(head: Column, rest: Frame)
    requires head.name == "diagnosis"
    requires forall j :: 0 <= j < |rest| ==> rest[j].name !in ["diagnosis"]
    ensures DropColumns([head] + rest, ["diagnosis"]) == rest
  {
    assert ([head] + rest)[1..] == rest;
    DropNothing(rest, ["diagnosis"]);
  }

  /** No feature column carries the label's name. */
  lemma NoFeatureIsLabel()
    ensures forall j :: 0 <= j < 30 ==> FeatureNames()[j] !in ["diagnosis"]
  {
    SchemaFacts();
    assert forall j :: 0 <= j < 30 ==> FeatureNames()[j] == ColumnNames[j + 2];
  }

  // ---------------------------------------------------------------------------
  // The training entry point

  /** The side effects of the training run, in order. */
  datatype Effect<M, S> =
    | MakeDirs(path: string)
    | DumpModel(path: string, model: M)
    | DumpScaler(path: string, scaler: S)

  /** main: clean, train, and only when the data loaded, training returned and
      both the model and the scaler exist, create the model directory and write
      the model, then the scaler. An exception from training ends the run
      before anything is written. */
  method TrainAndSave<M, S>(fileExists: bool, parsed: Option<seq<seq<string>>>, fit: (Frame, seq<Cell>) -> Option<(M, S)>)
    returns (effects: seq<Effect<M, S>>)
    ensures match GetCleanData(fileExists, parsed)
      case None => effects == []
      case Some(data) =>
        match CreateModel(data, fit)
        case Returned((Some(model), Some(scaler))) =>
          effects == [MakeDirs("model"), DumpModel("model/model.pkl", model), DumpScaler("model/scaler.pkl", scaler)]
        case _ => effects == []
    ensures effects != [] <==>
              && fileExists && parsed.Some?
              && fit(CleanedColumns(parsed.value)[1..], EncodeValues(FieldColumn(parsed.value, 1))).Some?
  {
    effects := [];
    var data := GetCleanData(fileExists, parsed);
    if data.Some? {
      var outcome := CreateModel(data.value, fit);
      if outcome.Returned? && outcome.value.0.Some? && outcome.value.1.Some? {
        // the directory first, then the model, then the scaler
        effects := [MakeDirs("model"), DumpModel("model/model.pkl", outcome.value.0.value), DumpScaler("model/scaler.pkl", outcome.value.1.value)];
      }
    }
    LoadedDataTrains(fileExists, parsed, fit);
  }

  /** Whenever the data loads, create_model is never in its no-label branch: it
      either raises or returns both a model and a scaler, fitted on the 30
      feature columns and the encoded labels. */
  lemma LoadedDataTrains<M, S>(fileExists: bool, parsed: Option<seq<seq<string>>>, fit: (Frame, seq<Cell>) -> Option<(M, S)>)
    ensures fileExists && parsed.Some? ==>
              var r := CreateModel(GetCleanData(fileExists, parsed).value, fit);
              var trained := fit(CleanedColumns(parsed.value)[1..], EncodeValues(FieldColumn(parsed.value, 1)));
              && (r.Raised? <==> trained.None?)
              && (r.Returned? ==> r.value.0.Some? && r.value.1.Some? && trained == Some((r.value.0.value, r.value.1.value)))
  {
    if fileExists && parsed.Some? {
      var data := CleanedColumns(parsed.value);
      CleanedSplit(parsed.value);
      assert Names(data)[0] == "diagnosis";
    }
  }
}

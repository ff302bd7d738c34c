/**
 * The intrusion detector: the column logic of its preprocessing step
 * (drop the label columns, map unseen categories to the encoder's first
 * class, encode, reorder to the training feature order, scale), the shaping
 * of one prediction (probabilities per class, description of the class) and
 * the output table of a batch prediction. The fitted encoders' transform,
 * the scaler and the classifier stay opaque: they are function-valued
 * fields of `Detector`.
 */
module Predictor {
  import opened Wrappers
  import opened Records
  import opened DataFrames

  // ---------------------------------------------------------------------
  // Class descriptions
  // ---------------------------------------------------------------------

  datatype Description = Description(caption: string, color: string, desc: string, action: string)

  /** The description shown for each class, with "other" as the catch-all. */
  const ClassDescriptions: map<string, Description> := map[
    "normal" := Description(
      "\U{2705} Traffico Normale", "green",
      "La connessione analizzata risulta legittima. Nessuna anomalia rilevata nel pattern di traffico.",
      "Nessuna azione richiesta."),
    "DoS" := Description(
      "\U{1F534} Attacco DoS (Denial of Service)", "red",
      "Rilevato un tentativo di saturare le risorse del sistema con un volume anomalo di richieste. "
      + "Attacchi tipici: neptune, smurf, teardrop, back.",
      "Bloccare immediatamente l'IP sorgente e notificare il team di sicurezza."),
    "Probe" := Description(
      "\U{1F7E0} Attacco Probe (Scansione)", "orange",
      "Rilevata una scansione della rete volta a raccogliere informazioni su host e servizi attivi. "
      + "Attacchi tipici: nmap, ipsweep, portsweep, satan.",
      "Monitorare l'IP sorgente e valutare il blocco preventivo. Verificare le porte esposte."),
    "R2L" := Description(
      "\U{1F7E1} Attacco R2L (Remote to Local)", "yellow",
      "Rilevato un tentativo di accesso non autorizzato da un host remoto, sfruttando vulnerabilit\U{E0} "
      + "per ottenere privilegi locali. Attacchi tipici: guess_passwd, ftp_write, httptunnel.",
      "Verificare le credenziali compromesse, revocare gli accessi sospetti e aggiornare le policy."),
    "U2R" := Description(
      "\U{1F534} Attacco U2R (User to Root)", "red",
      "Rilevato un tentativo di privilege escalation: un utente locale tenta di ottenere "
      + "privilegi di root. Attacchi tipici: buffer_overflow, rootkit, sqlattack.",
      "Isolare immediatamente il sistema, avviare un'analisi forense e ripristinare da backup."),
    "other" := Description(
      "\U{26A0}\U{FE0F} Attacco Sconosciuto", "gray",
      "Rilevata un'anomalia che non rientra nelle categorie note. Potrebbe trattarsi di un attacco "
      + "non catalogato o di una variante inedita.",
      "Analisi manuale consigliata. Segnalare al team di sicurezza per classificazione.")
  ]

  /**
   * The description of a predicted class: its own entry when the class is
   * listed, the "other" entry otherwise. The "other" entry is returned
   * exactly for unlisted classes and for "other" itself.
   */
  function Describe(pred: string): (d: Description)
    ensures d in ClassDescriptions.Values
    ensures pred in ClassDescriptions ==> d == ClassDescriptions[pred]
    ensures d == ClassDescriptions["other"] <==> pred !in ClassDescriptions || pred == "other"
  {
    if pred in ClassDescriptions then ClassDescriptions[pred] else ClassDescriptions["other"]
  }

  // ---------------------------------------------------------------------
  // The detector and its artifacts
  // ---------------------------------------------------------------------

  /** A fitted LabelEncoder: its known classes and its (opaque) transform. */
  datatype LabelEncoder = LabelEncoder(classes: seq<Value>, transform: Value -> Value)

  /** The loaded artifacts: encoders in dictionary order, training feature order, class labels, scaler and model. */
  datatype Detector = Detector(
    encoders: seq<(string, LabelEncoder)>,
    featureCols: seq<string>,
    classes: seq<string>,
    scale: seq<seq<Value>> -> seq<seq<real>>,
    predict: seq<seq<real>> -> seq<string>,
    predictProba: seq<seq<real>> -> seq<seq<real>>)

  /** The exceptions the detector's own code can raise. */
  datatype PredictError =
    | MissingColumns(columns: seq<string>)   // KeyError from selecting the feature columns
    | NoKnownClass(column: string)           // IndexError from `classes_[0]` of an encoder with no classes
    | EmptyPrediction                        // IndexError from `[0]` on an empty model output
    | LengthMismatch(column: string)         // ValueError from assigning a column of the wrong length
    | ProbaColumnMissing(cls: string)        // IndexError from `probas[:, i]`

  /** One prediction: the class, its probability per class and its description. */
  datatype Prediction = Prediction(prediction: string, probabilities: map<string, real>, description: Description)

  function EncoderColumns(encs: seq<(string, LabelEncoder)>): seq<string>
  {
    seq(|encs|, k requires 0 <= k < |encs| => encs[k].0)
  }

  // ---------------------------------------------------------------------
  // Preprocessing
  // ---------------------------------------------------------------------

  /** Columns of a training CSV that are not features. */
  const Unused: seq<string> := ["label", "label_multi", "difficulty"]

  /** Each unused column dropped if present, in order. */
  function DropAll(t: Table, cols: seq<string>): (r: Table)
    requires WellFormed(t)
    ensures WellFormed(r) && |r.rows| == |t.rows|
    ensures Elems(r.columns) == Elems(t.columns) - Elems(cols)
    ensures forall i, c :: 0 <= i < |t.rows| && c in t.rows[i] && c !in cols ==> c in r.rows[i] && r.rows[i][c] == t.rows[i][c]
    decreases |cols|
  {
    if cols == [] then t
    else
      ElemsConcat([cols[0]], cols[1..]);
      assert cols == [cols[0]] + cols[1..];
      assert Elems([cols[0]]) == {cols[0]} by { assert [cols[0]][0] == cols[0]; }
      DropAll(DropIfPresent(t, cols[0]), cols[1..])
  }

  /** The columns left after the drops keep their original order. */
  lemma {:induction false} DropAllOrder(t: Table, cols: seq<string>)
    requires WellFormed(t)
    ensures DropAll(t, cols).columns == Kept(t.columns, Elems(cols))
    decreases |cols|
  {
    if cols == [] {
      assert Elems(t.columns) !! Elems(cols);
    } else {
      ElemsConcat([cols[0]], cols[1..]);
      assert cols == [cols[0]] + cols[1..];
      assert Elems([cols[0]]) == {cols[0]} by { assert [cols[0]][0] == cols[0]; }
      DropIfPresentOrder(t, cols[0]);
      DropAllOrder(DropIfPresent(t, cols[0]), cols[1..]);
      KeptTwice(t.columns, {cols[0]}, Elems(cols[1..]));
    }
  }

  /** A known value is kept; an unseen one becomes the encoder's first class. */
  function Fallback(le: LabelEncoder, v: Value): (r: Value)
    requires |le.classes| > 0
    ensures r in le.classes
    ensures v in le.classes ==> r == v
    ensures v !in le.classes ==> r == le.classes[0]
  {
    if v in le.classes then v else le.classes[0]
  }

  /**
   * A column after the fallback and the encoder's transform: a known value is
   * encoded as itself, an unseen one as the encoder's first class.
   */
  function EncodedValues(le: LabelEncoder, vals: seq<Value>): (r: seq<Value>)
    requires |le.classes| > 0 || vals == []
    ensures |r| == |vals|
    ensures forall i :: 0 <= i < |vals| && vals[i] in le.classes ==> r[i] == le.transform(vals[i])
    ensures forall i :: 0 <= i < |vals| && vals[i] !in le.classes ==> r[i] == le.transform(le.classes[0])
  {
    var r := seq(|vals|, i requires 0 <= i < |vals| => le.transform(Fallback(le, vals[i])));
    assert forall i :: 0 <= i < |vals| ==> r[i] == le.transform(Fallback(le, vals[i]));
    r
  }

  /** One encoder applied: skipped when its column is absent. */
  function EncodeColumn(t: Table, col: string, le: LabelEncoder): (r: Result<Table, PredictError>)
    requires WellFormed(t)
    ensures r.Err? ==> r.error.NoKnownClass?
    ensures r.Ok? ==> WellFormed(r.value) && r.value.columns == t.columns && |r.value.rows| == |t.rows|
  {
    if col !in t.columns then Ok(t)
    else if |le.classes| == 0 && |t.rows| > 0 then Err(NoKnownClass(col))
    else Ok(WithColumn(t, col, EncodedValues(le, ColumnValues(t, col))))
  }

  /** The encoders applied in dictionary order; the first failure stops the pass. */
  function EncodeAll(t: Table, encs: seq<(string, LabelEncoder)>): (r: Result<Table, PredictError>)
    requires WellFormed(t)
    ensures r.Err? ==> r.error.NoKnownClass?
    ensures r.Ok? ==> WellFormed(r.value) && r.value.columns == t.columns && |r.value.rows| == |t.rows|
    decreases |encs|
  {
    if encs == [] then Ok(t)
    else match EncodeColumn(t, encs[0].0, encs[0].1)
      case Err(e) => Err(e)
      case Ok(t1) => EncodeAll(t1, encs[1..])
  }

  /** The columns of `cols` that the table lacks, in the order of `cols`. */
  function MissingFrom(t: Table, cols: seq<string>): (m: seq<string>)
    ensures m == [] <==> forall j :: 0 <= j < |cols| ==> cols[j] in t.columns
  {
    if cols == [] then []
    else if cols[0] in t.columns then
      var m := MissingFrom(t, cols[1..]);
      assert forall j :: 1 <= j < |cols| ==> cols[j] == cols[1..][j - 1];
      m
    else [cols[0]] + MissingFrom(t, cols[1..])
  }

  /** `df[cols]` as a matrix: row i, column j holds row i's value for `cols[j]`; a missing column fails. */
  function Project(t: Table, cols: seq<string>): (r: Result<seq<seq<Value>>, PredictError>)
    requires WellFormed(t)
    ensures r.Err? <==> exists j :: 0 <= j < |cols| && cols[j] !in t.columns
    ensures r.Ok? ==> |r.value| == |t.rows|
    ensures r.Ok? ==> forall i :: 0 <= i < |t.rows| ==> |r.value[i]| == |cols|
    ensures r.Ok? ==> forall i, j :: 0 <= i < |t.rows| && 0 <= j < |cols| ==> r.value[i][j] == t.rows[i][cols[j]]
  {
    var missing := MissingFrom(t, cols);
    if missing != [] then Err(MissingColumns(missing))
    else
      Ok(seq(|t.rows|, i requires 0 <= i < |t.rows| =>
        seq(|cols|, j requires 0 <= j < |cols| => t.rows[i][cols[j]])))
  }

  /** Drop, encode and reorder: the matrix handed to the scaler. */
  function Prepared(det: Detector, t: Table): (r: Result<seq<seq<Value>>, PredictError>)
    requires WellFormed(t)
    ensures r.Err? ==> r.error.MissingColumns? || r.error.NoKnownClass?
    ensures r.Ok? ==> |r.value| == |t.rows| && forall i :: 0 <= i < |t.rows| ==> |r.value[i]| == |det.featureCols|
  {
    match EncodeAll(DropAll(t, Unused), det.encoders)
    case Err(e) => Err(e)
    case Ok(enc) => Project(enc, det.featureCols)
  }

  /** What `_preprocess` returns or raises. */
  function Preprocessed(det: Detector, t: Table): (r: Result<seq<seq<real>>, PredictError>)
    requires WellFormed(t)
    ensures r.Ok? <==> Prepared(det, t).Ok?
    ensures r.Err? ==> r.error.MissingColumns? || r.error.NoKnownClass?
  {
    match Prepared(det, t)
    case Err(e) => Err(e)
    case Ok(x) => Ok(det.scale(x))
  }

  /**
   * `_preprocess` on a copy of the caller's frame. It has no `modifies`
   * clause: the caller's frame cannot change.
   */
  method Preprocess(det: Detector, df: Frame) returns (r: Result<seq<seq<real>>, PredictError>)
    requires df.Valid()
    ensures r == Preprocessed(det, df.Contents())
  {
    var d := df.Copy();
    var k := 0;
    while k < |Unused|
      invariant 0 <= k <= |Unused|
      invariant fresh(d) && d.Valid()
      invariant DropAll(d.Contents(), Unused[k..]) == DropAll(df.Contents(), Unused)
    {
      assert Unused[k..][1..] == Unused[k + 1..];
      if Unused[k] in d.columns {
        d.Drop(Unused[k]);
      }
      k := k + 1;
    }
    ghost var dropped := d.Contents();
    var e := 0;
    while e < |det.encoders|
      invariant 0 <= e <= |det.encoders|
      invariant fresh(d) && d.Valid()
      invariant EncodeAll(d.Contents(), det.encoders[e..]) == EncodeAll(dropped, det.encoders)
    {
      assert det.encoders[e..][1..] == det.encoders[e + 1..];
      var col, le := det.encoders[e].0, det.encoders[e].1;
      if col in d.columns {
        if |le.classes| == 0 && |d.rows| > 0 {
          return Err(NoKnownClass(col));
        }
        d.Assign(col, EncodedValues(le, ColumnValues(d.Contents(), col)));
      }
      e := e + 1;
    }
    match Project(d.Contents(), det.featureCols)
    case Err(err) => r := Err(err);
    case Ok(x) => r := Ok(det.scale(x));
  }

  // ---------------------------------------------------------------------
  // Properties of preprocessing
  // ---------------------------------------------------------------------

  /** The first encoder registered for a column, if any. */
  function EncoderFor(encs: seq<(string, LabelEncoder)>, c: string): (r: Option<LabelEncoder>)
    ensures r.None? <==> c !in EncoderColumns(encs)
  {
    if encs == [] then None
    else if encs[0].0 == c then
      assert EncoderColumns(encs)[0] == c;
      Some(encs[0].1)
    else
      assert EncoderColumns(encs) == [encs[0].0] + EncoderColumns(encs[1..]);
      EncoderFor(encs[1..], c)
  }

  /**
   * What the encoding pass does to one cell: a column with an encoder gets
   * the transform of the fallback value, any other column is untouched.
   */
  lemma {:induction false} EncodeAllCell(t: Table, encs: seq<(string, LabelEncoder)>, i: nat, c: string)
    requires WellFormed(t) && Distinct(EncoderColumns(encs))
    requires EncodeAll(t, encs).Ok?
    requires i < |t.rows| && c in t.columns
    ensures EncoderFor(encs, c).None? ==> EncodeAll(t, encs).value.rows[i][c] == t.rows[i][c]
    ensures EncoderFor(encs, c).Some? ==>
              var le := EncoderFor(encs, c).value;
              |le.classes| > 0 && EncodeAll(t, encs).value.rows[i][c] == le.transform(Fallback(le, t.rows[i][c]))
    decreases |encs|
  {
    if encs != [] {
      var col, le := encs[0].0, encs[0].1;
      var t1 := EncodeColumn(t, col, le).value;
      var rest := encs[1..];
      assert EncoderColumns(encs) == [col] + EncoderColumns(rest);
      assert Distinct(EncoderColumns(rest)) by {
        forall a, b | 0 <= a < b < |rest| ensures rest[a].0 != rest[b].0 {
          assert EncoderColumns(encs)[a + 1] != EncoderColumns(encs)[b + 1];
        }
      }
      EncodeAllCell(t1, rest, i, c);
      if col == c {
        assert c !in EncoderColumns(rest) by {
          forall b | 0 <= b < |rest| ensures EncoderColumns(rest)[b] != c {
            assert EncoderColumns(encs)[0] != EncoderColumns(encs)[b + 1];
          }
        }
      }
    }
  }

  /** The encoding pass fails exactly when an encoder with no classes meets its column in a non-empty table. */
  lemma {:induction false} EncodeAllFails(t: Table, encs: seq<(string, LabelEncoder)>)
    requires WellFormed(t)
    ensures EncodeAll(t, encs).Err? <==>
              |t.rows| > 0 && exists k :: 0 <= k < |encs| && encs[k].0 in t.columns && |encs[k].1.classes| == 0
    decreases |encs|
  {
    if encs != [] {
      var col, le := encs[0].0, encs[0].1;
      if EncodeColumn(t, col, le).Ok? {
        var t1 := EncodeColumn(t, col, le).value;
        EncodeAllFails(t1, encs[1..]);
        assert forall k :: 1 <= k < |encs| ==> encs[k] == encs[1..][k - 1];
      }
    }
  }

  /** The value a feature cell has after preprocessing, before scaling. */
  function EncodedCell(encs: seq<(string, LabelEncoder)>, c: string, v: Value): Value
  {
    match EncoderFor(encs, c)
    case None => v
    case Some(le) => if |le.classes| == 0 then v else le.transform(Fallback(le, v))
  }

  /**
   * The column contract of `_preprocess`, for fitted encoders (each knows at
   * least one class) over distinct columns: it succeeds exactly when every
   * feature column is present and is not one of the dropped label columns;
   * then its matrix has one row per input row and one column per feature,
   * in feature order, holding the encoded value of that feature.
   */
  lemma PreparedColumns(det: Detector, t: Table)
    requires WellFormed(t) && Distinct(EncoderColumns(det.encoders))
    requires forall k :: 0 <= k < |det.encoders| ==> |det.encoders[k].1.classes| > 0
    ensures Prepared(det, t).Ok? <==>
              forall j :: 0 <= j < |det.featureCols| ==> det.featureCols[j] in t.columns && det.featureCols[j] !in Unused
    ensures Prepared(det, t).Ok? ==>
              var m := Prepared(det, t).value;
              && |m| == |t.rows|
              && forall i, j :: 0 <= i < |t.rows| && 0 <= j < |det.featureCols| ==>
                   |m[i]| == |det.featureCols| &&
                   m[i][j] == EncodedCell(det.encoders, det.featureCols[j], t.rows[i][det.featureCols[j]])
  {
    var dropped := DropAll(t, Unused);
    EncodeAllFails(dropped, det.encoders);
    var enc := EncodeAll(dropped, det.encoders).value;
    assert Elems(dropped.columns) == Elems(t.columns) - Elems(Unused);
    assert forall c :: c in dropped.columns <==> c in Elems(dropped.columns);
    assert forall c :: c in t.columns <==> c in Elems(t.columns);
    assert forall c :: c in Unused <==> c in Elems(Unused);
    if Prepared(det, t).Ok? {
      var m := Prepared(det, t).value;
      forall i, j | 0 <= i < |t.rows| && 0 <= j < |det.featureCols|
        ensures m[i][j] == EncodedCell(det.encoders, det.featureCols[j], t.rows[i][det.featureCols[j]])
      {
        var c := det.featureCols[j];
        EncodeAllCell(dropped, det.encoders, i, c);
      }
    }
  }

  // ---------------------------------------------------------------------
  // predict_single
  // ---------------------------------------------------------------------

  /** The class-to-probability dictionary, paired position by position as far as both lists reach; a later duplicate class overwrites an earlier one. */
  function ProbabilityMap(classes: seq<string>, proba: seq<real>): (m: map<string, real>)
    ensures m.Keys == Elems(classes[..Min(|classes|, |proba|)])
    decreases |classes|
  {
    var n := Min(|classes|, |proba|);
    if n == 0 then map[]
    else
      ElemsConcat(classes[..n - 1], [classes[n - 1]]);
      assert classes[..n - 1] + [classes[n - 1]] == classes[..n];
      assert Elems([classes[n - 1]]) == {classes[n - 1]} by { assert [classes[n - 1]][0] == classes[n - 1]; }
      assert classes[..n - 1][..Min(n - 1, |proba[..n - 1]|)] == classes[..n - 1];
      ProbabilityMap(classes[..n - 1], proba[..n - 1])[classes[n - 1] := proba[n - 1]]
  }

  /** With distinct classes, class i is paired with probability i (as far as both lists reach). */
  lemma {:induction false} ProbabilityPairing(classes: seq<string>, proba: seq<real>, i: nat)
    requires Distinct(classes) && i < |classes| && i < |proba|
    ensures classes[i] in ProbabilityMap(classes, proba)
    ensures ProbabilityMap(classes, proba)[classes[i]] == proba[i]
    decreases |classes|
  {
    var n := Min(|classes|, |proba|);
    if i < n - 1 {
      ProbabilityPairing(classes[..n - 1], proba[..n - 1], i);
    }
  }

  lemma {:induction false} DistinctCardinality(s: seq<string>)
    requires Distinct(s)
    ensures |Elems(s)| == |s|
    decreases |s|
  {
    if s != [] {
      var front := s[..|s| - 1];
      DistinctCardinality(front);
      ElemsConcat(front, [s[|s| - 1]]);
      assert front + [s[|s| - 1]] == s;
      assert Elems([s[|s| - 1]]) == {s[|s| - 1]} by { assert [s[|s| - 1]][0] == s[|s| - 1]; }
      assert s[|s| - 1] !in Elems(front);
    }
  }

  /** With distinct classes and a full probability row, there is one entry per class. */
  lemma OneEntryPerClass(classes: seq<string>, proba: seq<real>)
    requires Distinct(classes) && |proba| >= |classes|
    ensures ProbabilityMap(classes, proba).Keys == Elems(classes)
    ensures |ProbabilityMap(classes, proba)| == |classes|
  {
    assert classes[..|classes|] == classes;
    DistinctCardinality(classes);
  }

  /** The one-row table built from a single input record. */
  function SingleRowTable(input: Record): (t: Table)
    requires DistinctKeys(input)
    ensures WellFormed(t)
    ensures t.columns == Keys(input) && t.rows == [RowOf(input)]
  {
    assert RowOf(input).Keys == Elems(Keys(input));
    Table(Keys(input), [RowOf(input)])
  }

  /** What `predict_single` returns or raises. */
  function SinglePrediction(det: Detector, input: Record): (r: Result<Prediction, PredictError>)
    requires DistinctKeys(input)
    ensures r.Ok? ==> Preprocessed(det, SingleRowTable(input)).Ok? && r.value.description == Describe(r.value.prediction)
    ensures r.Err? ==> r.error.MissingColumns? || r.error.NoKnownClass? || r.error.EmptyPrediction?
  {
    match Preprocessed(det, SingleRowTable(input))
    case Err(e) => Err(e)
    case Ok(x) =>
      var preds := det.predict(x);
      var probas := det.predictProba(x);
      if |preds| == 0 || |probas| == 0 then Err(EmptyPrediction)
      else Ok(Prediction(preds[0], ProbabilityMap(det.classes, probas[0]), Describe(preds[0])))
  }

  method PredictSingle(det: Detector, input: Record) returns (r: Result<Prediction, PredictError>)
    requires DistinctKeys(input)
    ensures r == SinglePrediction(det, input)
  {
    var df := new Frame(SingleRowTable(input));
    var x := Preprocess(det, df);
    match x
    case Err(e) => r := Err(e);
    case Ok(m) =>
      var preds := det.predict(m);
      if |preds| == 0 {
        return Err(EmptyPrediction);
      }
      var probas := det.predictProba(m);
      if |probas| == 0 {
        return Err(EmptyPrediction);
      }
      r := Ok(Prediction(preds[0], ProbabilityMap(det.classes, probas[0]), Describe(preds[0])));
  }

  /**
   * A successful single prediction carries the description of its own class
   * and pairs every class with the model's probability at the class's position.
   */
  lemma SinglePredictionShape(det: Detector, input: Record)
    requires DistinctKeys(input) && Distinct(det.classes)
    requires SinglePrediction(det, input).Ok?
    ensures var p := SinglePrediction(det, input).value;
            var probas := det.predictProba(Preprocessed(det, SingleRowTable(input)).value);
            && p.description == Describe(p.prediction)
            && p.prediction == det.predict(Preprocessed(det, SingleRowTable(input)).value)[0]
            && forall i :: 0 <= i < |det.classes| && i < |probas[0]| ==>
                 det.classes[i] in p.probabilities && p.probabilities[det.classes[i]] == probas[0][i]
  {
    var probas := det.predictProba(Preprocessed(det, SingleRowTable(input)).value);
    forall i | 0 <= i < |det.classes| && i < |probas[0]|
      ensures det.classes[i] in ProbabilityMap(det.classes, probas[0])
      ensures ProbabilityMap(det.classes, probas[0])[det.classes[i]] == probas[0][i]
    {
      ProbabilityPairing(det.classes, probas[0], i);
    }
  }

  // ---------------------------------------------------------------------
  // predict_batch
  // ---------------------------------------------------------------------

  function ProbColumn(cls: string): string
  {
    "prob_" + cls
  }

  function ProbColumns(classes: seq<string>): (cols: seq<string>)
    ensures |cols| == |classes|
    ensures forall j :: 0 <= j < |classes| ==> cols[j] == ProbColumn(classes[j])
  {
    seq(|classes|, j requires 0 <= j < |classes| => ProbColumn(classes[j]))
  }

  /** Whether every row of the probability matrix has a column i. */
  predicate HasProbaColumn(probas: seq<seq<real>>, i: nat)
  {
    forall r :: 0 <= r < |probas| ==> i < |probas[r]|
  }

  /** Column i of the probability matrix as the cells of a frame column. */
  function ProbaColumn(probas: seq<seq<real>>, i: nat): (vals: seq<Value>)
    requires HasProbaColumn(probas, i)
    ensures |vals| == |probas|
    ensures forall r :: 0 <= r < |probas| ==> vals[r] == FloatV(probas[r][i])
  {
    seq(|probas|, r requires 0 <= r < |probas| => FloatV(probas[r][i]))
  }

  /** Adding one `prob_<cls>` column per class, in class order, holding that class's column of the probability matrix. */
  function AddProbColumns(t: Table, classes: seq<string>, probas: seq<seq<real>>): (r: Result<Table, PredictError>)
    requires WellFormed(t)
    ensures r.Err? ==> r.error.ProbaColumnMissing? || r.error.LengthMismatch?
    ensures r.Ok? ==> WellFormed(r.value) && |r.value.rows| == |t.rows|
    decreases |classes|
  {
    if classes == [] then Ok(t)
    else
      var i := |classes| - 1;
      match AddProbColumns(t, classes[..i], probas)
      case Err(e) => Err(e)
      case Ok(t1) =>
        if !HasProbaColumn(probas, i) then Err(ProbaColumnMissing(classes[i]))
        else if |probas| != |t1.rows| then Err(LengthMismatch(ProbColumn(classes[i])))
        else Ok(WithColumn(t1, ProbColumn(classes[i]), ProbaColumn(probas, i)))
  }

  /** Once adding the probability columns has failed, the remaining classes do not change the outcome. */
  lemma {:induction false} AddProbColumnsErrorSticks(t: Table, classes: seq<string>, probas: seq<seq<real>>, k: nat)
    requires WellFormed(t) && k <= |classes|
    requires AddProbColumns(t, classes[..k], probas).Err?
    ensures AddProbColumns(t, classes, probas) == AddProbColumns(t, classes[..k], probas)
    decreases |classes| - k
  {
    if k < |classes| {
      var n := |classes| - 1;
      assert classes[..n][..k] == classes[..k];
      AddProbColumnsErrorSticks(t, classes[..n], probas, k);
      assert classes == classes[..n] + [classes[n]];
    } else {
      assert classes[..k] == classes;
    }
  }

  function PredictionColumn(preds: seq<string>): (vals: seq<Value>)
    ensures |vals| == |preds|
    ensures forall i :: 0 <= i < |preds| ==> vals[i] == StrV(preds[i])
  {
    seq(|preds|, i requires 0 <= i < |preds| => StrV(preds[i]))
  }

  lemma ProbColumnInjective(a: string, b: string)
    requires ProbColumn(a) == ProbColumn(b)
    ensures a == b
  {
    assert a == ProbColumn(a)[5..] && b == ProbColumn(b)[5..];
  }

  /** A probability matrix with one row per table row and a column per class lets every class column be added. */
  lemma {:induction false} AddProbColumnsOk(t: Table, classes: seq<string>, probas: seq<seq<real>>)
    requires WellFormed(t)
    requires |probas| == |t.rows| && forall j :: 0 <= j < |classes| ==> HasProbaColumn(probas, j)
    ensures AddProbColumns(t, classes, probas).Ok?
    decreases |classes|
  {
    if classes != [] {
      AddProbColumnsOk(t, classes[..|classes| - 1], probas);
    }
  }

  /** With distinct classes whose `prob_` columns are new, one column per class is appended, in class order. */
  lemma {:induction false} AddProbColumnsNames(t: Table, classes: seq<string>, probas: seq<seq<real>>)
    requires WellFormed(t) && Distinct(classes)
    requires forall j :: 0 <= j < |classes| ==> ProbColumn(classes[j]) !in t.columns
    requires AddProbColumns(t, classes, probas).Ok?
    ensures AddProbColumns(t, classes, probas).value.columns == t.columns + ProbColumns(classes)
    decreases |classes|
  {
    if classes == [] {
      assert t.columns + ProbColumns(classes) == t.columns;
    } else {
      var n := |classes| - 1;
      var front := classes[..n];
      AddProbColumnsNames(t, front, probas);
      var r1 := AddProbColumns(t, front, probas).value;
      var pc := ProbColumn(classes[n]);
      assert pc !in r1.columns by {
        forall j | 0 <= j < n ensures ProbColumns(front)[j] != pc {
          if ProbColumns(front)[j] == pc { ProbColumnInjective(front[j], classes[n]); }
        }
      }
      assert ProbColumns(classes) == ProbColumns(front) + [pc];
    }
  }

  /** Adding the class columns keeps every cell of any other column. */
  lemma {:induction false} AddProbColumnsKeepsCells(t: Table, classes: seq<string>, probas: seq<seq<real>>, i: nat, c: string)
    requires WellFormed(t) && AddProbColumns(t, classes, probas).Ok?
    requires i < |t.rows| && c in t.rows[i] && c !in ProbColumns(classes)
    ensures c in AddProbColumns(t, classes, probas).value.rows[i]
    ensures AddProbColumns(t, classes, probas).value.rows[i][c] == t.rows[i][c]
    decreases |classes|
  {
    if classes != [] {
      var n := |classes| - 1;
      assert ProbColumns(classes) == ProbColumns(classes[..n]) + [ProbColumn(classes[n])];
      AddProbColumnsKeepsCells(t, classes[..n], probas, i, c);
    }
  }

  /** With distinct classes, row i's `prob_<cls>` cell holds the probability of class j in row i. */
  lemma {:induction false} AddProbColumnsCell(t: Table, classes: seq<string>, probas: seq<seq<real>>, i: nat, j: nat)
    requires WellFormed(t) && Distinct(classes) && AddProbColumns(t, classes, probas).Ok?
    requires i < |t.rows| && j < |classes|
    ensures ProbColumn(classes[j]) in AddProbColumns(t, classes, probas).value.rows[i]
    ensures AddProbColumns(t, classes, probas).value.rows[i][ProbColumn(classes[j])] == FloatV(probas[i][j])
    decreases |classes|
  {
    var n := |classes| - 1;
    var front := classes[..n];
    if j < n {
      assert front[j] == classes[j];
      AddProbColumnsCell(t, front, probas, i, j);
      if ProbColumn(classes[j]) == ProbColumn(classes[n]) { ProbColumnInjective(classes[j], classes[n]); }
    }
  }

  /** What `predict_batch` returns or raises. */
  function BatchPredictionTable(det: Detector, t: Table): (r: Result<Table, PredictError>)
    requires WellFormed(t)
    ensures r.Ok? ==> Preprocessed(det, t).Ok? && |det.predict(Preprocessed(det, t).value)| == |t.rows|
    ensures r.Ok? ==> WellFormed(r.value) && |r.value.rows| == |t.rows|
    ensures r.Err? ==> !r.error.EmptyPrediction?
  {
    match Preprocessed(det, t)
    case Err(e) => Err(e)
    case Ok(x) =>
      var preds := det.predict(x);
      var probas := det.predictProba(x);
      if |preds| != |t.rows| then Err(LengthMismatch("prediction"))
      else AddProbColumns(WithColumn(t, "prediction", PredictionColumn(preds)), det.classes, probas)
  }

  /**
   * The shape of the `predict_batch` output when the model's outputs have one
   * row per input row and a probability column per class, and the added
   * column names are new: the input's rows and columns, then `prediction`,
   * then `prob_<cls>` for each class in class order.
   */
  lemma BatchOutputColumns(det: Detector, t: Table)
    requires WellFormed(t) && Preprocessed(det, t).Ok?
    requires |det.predict(Preprocessed(det, t).value)| == |t.rows|
    requires |det.predictProba(Preprocessed(det, t).value)| == |t.rows|
    requires forall j :: 0 <= j < |det.classes| ==> HasProbaColumn(det.predictProba(Preprocessed(det, t).value), j)
    requires Distinct(det.classes)
    requires "prediction" !in t.columns
    requires forall j :: 0 <= j < |det.classes| ==> ProbColumn(det.classes[j]) !in t.columns
    ensures BatchPredictionTable(det, t).Ok?
    ensures var r := BatchPredictionTable(det, t).value;
            var preds := det.predict(Preprocessed(det, t).value);
            var probas := det.predictProba(Preprocessed(det, t).value);
            && r.columns == t.columns + ["prediction"] + ProbColumns(det.classes)
            && |r.rows| == |t.rows|
            && forall i :: 0 <= i < |t.rows| ==>
                 && (forall c :: c in t.rows[i] ==> c in r.rows[i] && r.rows[i][c] == t.rows[i][c])
                 && "prediction" in r.rows[i] && r.rows[i]["prediction"] == StrV(preds[i])
                 && (forall j :: 0 <= j < |det.classes| ==>
                       ProbColumn(det.classes[j]) in r.rows[i]
                       && r.rows[i][ProbColumn(det.classes[j])] == FloatV(probas[i][j]))
  {
    var x := Preprocessed(det, t).value;
    var probas := det.predictProba(x);
    var t1 := WithColumn(t, "prediction", PredictionColumn(det.predict(x)));
    forall j | 0 <= j < |det.classes| ensures ProbColumn(det.classes[j]) !in t1.columns {
      assert ProbColumn(det.classes[j])[2] == 'o';
    }
    AddProbColumnsOk(t1, det.classes, probas);
    AddProbColumnsNames(t1, det.classes, probas);
    var r := AddProbColumns(t1, det.classes, probas).value;
    forall i | 0 <= i < |t.rows|
      ensures forall c :: c in t.rows[i] ==> c in r.rows[i] && r.rows[i][c] == t.rows[i][c]
      ensures "prediction" in r.rows[i] && r.rows[i]["prediction"] == StrV(det.predict(x)[i])
      ensures forall j :: 0 <= j < |det.classes| ==>
                ProbColumn(det.classes[j]) in r.rows[i] && r.rows[i][ProbColumn(det.classes[j])] == FloatV(probas[i][j])
    {
      forall c | c in t.rows[i] ensures c in r.rows[i] && r.rows[i][c] == t.rows[i][c] {
        assert c in t.columns;
        AddProbColumnsKeepsCells(t1, det.classes, probas, i, c);
      }
      assert "prediction" !in ProbColumns(det.classes);
      AddProbColumnsKeepsCells(t1, det.classes, probas, i, "prediction");
      forall j | 0 <= j < |det.classes|
        ensures ProbColumn(det.classes[j]) in r.rows[i] && r.rows[i][ProbColumn(det.classes[j])] == FloatV(probas[i][j])
      {
        AddProbColumnsCell(t1, det.classes, probas, i, j);
      }
    }
  }

  /** The loop over the classes that assigns one `prob_<cls>` column per class to the result frame, in place. */
  method AssignProbColumns(result: Frame, classes: seq<string>, probas: seq<seq<real>>) returns (err: Option<PredictError>)
    requires result.Valid()
    modifies result
    ensures result.Valid()
    ensures err.None? <==> AddProbColumns(old(result.Contents()), classes, probas).Ok?
    ensures err.None? ==> result.Contents() == AddProbColumns(old(result.Contents()), classes, probas).value
    ensures err.Some? ==> err.value == AddProbColumns(old(result.Contents()), classes, probas).error
  {
    ghost var start := result.Contents();
    var i := 0;
    while i < |classes|
      invariant 0 <= i <= |classes|
      invariant result.Valid()
      invariant AddProbColumns(start, classes[..i], probas) == Ok(result.Contents())
    {
      assert classes[..i + 1][..i] == classes[..i];
      if !HasProbaColumn(probas, i) {
        AddProbColumnsErrorSticks(start, classes, probas, i + 1);
        return Some(ProbaColumnMissing(classes[i]));
      }
      if |probas| != |result.rows| {
        AddProbColumnsErrorSticks(start, classes, probas, i + 1);
        return Some(LengthMismatch(ProbColumn(classes[i])));
      }
      result.Assign(ProbColumn(classes[i]), ProbaColumn(probas, i));
      i := i + 1;
    }
    assert classes[..i] == classes;
    err := None;
  }

  /** `predict_batch`: the result is a new frame; the caller's frame is left as it was. */
  method PredictBatch(det: Detector, df: Frame) returns (r: Result<Frame, PredictError>)
    requires df.Valid()
    ensures unchanged(df)
    ensures r.Ok? <==> BatchPredictionTable(det, df.Contents()).Ok?
    ensures r.Err? ==> r.error == BatchPredictionTable(det, df.Contents()).error
    ensures r.Ok? ==> fresh(r.value) && r.value.Valid() && r.value.Contents() == BatchPredictionTable(det, df.Contents()).value
  {
    var x := Preprocess(det, df);
    if x.Err? {
      return Err(x.error);
    }
    var preds := det.predict(x.value);
    var probas := det.predictProba(x.value);
    var result := df.Copy();
    if |preds| != |result.rows| {
      return Err(LengthMismatch("prediction"));
    }
    result.Assign("prediction", PredictionColumn(preds));
    var err := AssignProbColumns(result, det.classes, probas);
    if err.Some? {
      return Err(err.value);
    }
    r := Ok(result);
  }
}

/**
 * The request schema of one network connection (the NSL-KDD features a
 * client posts to /predict and /predict/batch) with the bounds declared on
 * each field, read as a validity predicate over the dumped record.
 */
module Features {
  import opened Wrappers
  import opened Records

  /** What a field accepts: an integer in [lo, hi] (no upper bound when hi is None), a string, or a float. */
  datatype Kind = Int(lo: int, hi: Option<int>) | Str | Float

  /** One declared field: its name, what it accepts and its default. */
  datatype FieldSpec = FieldSpec(name: string, kind: Kind, default: Value)

  /** The fields of ConnectionFeatures, in declaration order. */
  const Schema: seq<FieldSpec> := [
    FieldSpec("duration", Int(0, None), IntV(0)),
    FieldSpec("protocol_type", Str, StrV("tcp")),
    FieldSpec("service", Str, StrV("http")),
    FieldSpec("flag", Str, StrV("SF")),
    FieldSpec("src_bytes", Int(0, None), IntV(0)),
    FieldSpec("dst_bytes", Int(0, None), IntV(0)),
    FieldSpec("land", Int(0, Some(1)), IntV(0)),
    FieldSpec("wrong_fragment", Int(0, None), IntV(0)),
    FieldSpec("urgent", Int(0, None), IntV(0)),
    FieldSpec("hot", Int(0, None), IntV(0)),
    FieldSpec("num_failed_logins", Int(0, None), IntV(0)),
    FieldSpec("logged_in", Int(0, Some(1)), IntV(0)),
    FieldSpec("num_compromised", Int(0, None), IntV(0)),
    FieldSpec("root_shell", Int(0, Some(1)), IntV(0)),
    FieldSpec("su_attempted", Int(0, Some(1)), IntV(0)),
    FieldSpec("num_root", Int(0, None), IntV(0)),
    FieldSpec("num_file_creations", Int(0, None), IntV(0)),
    FieldSpec("num_shells", Int(0, None), IntV(0)),
    FieldSpec("num_access_files", Int(0, None), IntV(0)),
    FieldSpec("num_outbound_cmds", Int(0, None), IntV(0)),
    FieldSpec("is_host_login", Int(0, Some(1)), IntV(0)),
    FieldSpec("is_guest_login", Int(0, Some(1)), IntV(0)),
    FieldSpec("count", Int(0, Some(512)), IntV(1)),
    FieldSpec("srv_count", Int(0, Some(512)), IntV(1)),
    FieldSpec("serror_rate", Float, FloatV(0.0)),
    FieldSpec("srv_serror_rate", Float, FloatV(0.0)),
    FieldSpec("rerror_rate", Float, FloatV(0.0)),
    FieldSpec("srv_rerror_rate", Float, FloatV(0.0)),
    FieldSpec("same_srv_rate", Float, FloatV(1.0)),
    FieldSpec("diff_srv_rate", Float, FloatV(0.0)),
    FieldSpec("srv_diff_host_rate", Float, FloatV(0.0)),
    FieldSpec("dst_host_count", Int(0, Some(255)), IntV(1)),
    FieldSpec("dst_host_srv_count", Int(0, Some(255)), IntV(1)),
    FieldSpec("dst_host_same_srv_rate", Float, FloatV(1.0)),
    FieldSpec("dst_host_diff_srv_rate", Float, FloatV(0.0)),
    FieldSpec("dst_host_same_src_port_rate", Float, FloatV(0.0)),
    FieldSpec("dst_host_srv_diff_host_rate", Float, FloatV(0.0)),
    FieldSpec("dst_host_serror_rate", Float, FloatV(0.0)),
    FieldSpec("dst_host_srv_serror_rate", Float, FloatV(0.0)),
    FieldSpec("dst_host_rerror_rate", Float, FloatV(0.0)),
    FieldSpec("dst_host_srv_rerror_rate", Float, FloatV(0.0))
  ]

  /** The 0/1 flags. */
  const BinaryFlags: seq<string> :=
    ["land", "logged_in", "root_shell", "su_attempted", "is_host_login", "is_guest_login"]

  predicate Admits(kind: Kind, v: Value)
  {
    match kind
    case Int(lo, hi) => v.IntV? && lo <= v.i && (hi.None? || v.i <= hi.value)
    case Str => v.StrV?
    case Float => v.FloatV?
  }

  predicate FieldOk(f: FieldSpec, row: Row)
  {
    f.name in row && Admits(f.kind, row[f.name])
  }

  /** A dumped ConnectionFeatures: every declared field is present and within its declared bounds. */
  predicate Valid(row: Row)
  {
    forall i :: 0 <= i < |Schema| ==> FieldOk(Schema[i], row)
  }

  predicate IntWithin(row: Row, name: string, lo: int, hi: int)
  {
    name in row && row[name].IntV? && lo <= row[name].i <= hi
  }

  /**
   * The field the validation of a request body reports first, if any:
   * it is None exactly when every field is acceptable, and otherwise names
   * the earliest field (in declaration order) that is missing or out of bounds.
   */
  function FirstInvalidField(fields: seq<FieldSpec>, row: Row): (r: Option<string>)
    ensures r.None? <==> forall i :: 0 <= i < |fields| ==> FieldOk(fields[i], row)
    ensures r.Some? ==> exists i :: 0 <= i < |fields| && fields[i].name == r.value && !FieldOk(fields[i], row)
                                    && forall j :: 0 <= j < i ==> FieldOk(fields[j], row)
  {
    if fields == [] then None
    else if !FieldOk(fields[0], row) then Some(fields[0].name)
    else
      var r := FirstInvalidField(fields[1..], row);
      if r.Some? then
        assert forall j :: 1 <= j < |fields| ==> fields[j] == fields[1..][j - 1];
        Some(r.value)
      else r
  }

  /** The six flags lie in [0, 1]. */
  lemma {:induction false} FlagsAreBinary(row: Row)
    requires Valid(row)
    ensures forall k :: 0 <= k < |BinaryFlags| ==> IntWithin(row, BinaryFlags[k], 0, 1)
  {
    assert FieldOk(Schema[6], row) && FieldOk(Schema[11], row) && FieldOk(Schema[13], row);
    assert FieldOk(Schema[14], row) && FieldOk(Schema[20], row) && FieldOk(Schema[21], row);
  }

  /** count and srv_count lie in [0, 512]; dst_host_count and dst_host_srv_count in [0, 255]. */
  lemma {:induction false} CountsAreBounded(row: Row)
    requires Valid(row)
    ensures IntWithin(row, "count", 0, 512) && IntWithin(row, "srv_count", 0, 512)
    ensures IntWithin(row, "dst_host_count", 0, 255) && IntWithin(row, "dst_host_srv_count", 0, 255)
  {
    assert FieldOk(Schema[22], row) && FieldOk(Schema[23], row);
    assert FieldOk(Schema[31], row) && FieldOk(Schema[32], row);
  }

  /** Every integer field, bounded above or not, is at least 0. */
  lemma {:induction false} IntegersNonNegative(row: Row, i: nat)
    requires Valid(row)
    requires i < |Schema| && Schema[i].kind.Int?
    ensures Schema[i].name in row && row[Schema[i].name].IntV? && row[Schema[i].name].i >= 0
  {
  }

  /** Every declared default lies within its field's own bounds. */
  lemma DefaultsAdmitted(i: nat)
    requires i < |Schema|
    ensures Admits(Schema[i].kind, Schema[i].default)
  {
  }

  // ---------------------------------------------------------------------
  // Defaults: what an omitted field becomes
  // ---------------------------------------------------------------------

  /** The declared field names as a literal list, so that the verifier can compare them one by one. */
  const FieldNames: seq<string> := [
    "duration",
    "protocol_type",
    "service",
    "flag",
    "src_bytes",
    "dst_bytes",
    "land",
    "wrong_fragment",
    "urgent",
    "hot",
    "num_failed_logins",
    "logged_in",
    "num_compromised",
    "root_shell",
    "su_attempted",
    "num_root",
    "num_file_creations",
    "num_shells",
    "num_access_files",
    "num_outbound_cmds",
    "is_host_login",
    "is_guest_login",
    "count",
    "srv_count",
    "serror_rate",
    "srv_serror_rate",
    "rerror_rate",
    "srv_rerror_rate",
    "same_srv_rate",
    "diff_srv_rate",
    "srv_diff_host_rate",
    "dst_host_count",
    "dst_host_srv_count",
    "dst_host_same_srv_rate",
    "dst_host_diff_srv_rate",
    "dst_host_same_src_port_rate",
    "dst_host_srv_diff_host_rate",
    "dst_host_serror_rate",
    "dst_host_srv_serror_rate",
    "dst_host_rerror_rate",
    "dst_host_srv_rerror_rate"
  ]

  lemma FieldNamesOfSchema()
    ensures |FieldNames| == |Schema|
    ensures forall i :: 0 <= i < |Schema| ==> Schema[i].name == FieldNames[i]
  {
  }

  lemma NameUnique0()
    ensures forall j :: 0 < j < |FieldNames| ==> FieldNames[0] != FieldNames[j]
  {
  }

  lemma NameUnique1()
    ensures forall j :: 1 < j < |FieldNames| ==> FieldNames[1] != FieldNames[j]
  {
  }

  lemma NameUnique2()
    ensures forall j :: 2 < j < |FieldNames| ==> FieldNames[2] != FieldNames[j]
  {
  }

  lemma NameUnique3()
    ensures forall j :: 3 < j < |FieldNames| ==> FieldNames[3] != FieldNames[j]
  {
  }

  lemma NameUnique4()
    ensures forall j :: 4 < j < |FieldNames| ==> FieldNames[4] != FieldNames[j]
  {
  }

  lemma NameUnique5()
    ensures forall j :: 5 < j < |FieldNames| ==> FieldNames[5] != FieldNames[j]
  {
  }

  lemma NameUnique6()
    ensures forall j :: 6 < j < |FieldNames| ==> FieldNames[6] != FieldNames[j]
  {
  }

  lemma NameUnique7()
    ensures forall j :: 7 < j < |FieldNames| ==> FieldNames[7] != FieldNames[j]
  {
  }

  lemma NameUnique8()
    ensures forall j :: 8 < j < |FieldNames| ==> FieldNames[8] != FieldNames[j]
  {
  }

  lemma NameUnique9()
    ensures forall j :: 9 < j < |FieldNames| ==> FieldNames[9] != FieldNames[j]
  {
  }

  lemma NameUnique10()
    ensures forall j :: 10 < j < |FieldNames| ==> FieldNames[10] != FieldNames[j]
  {
  }

  lemma NameUnique11()
    ensures forall j :: 11 < j < |FieldNames| ==> FieldNames[11] != FieldNames[j]
  {
  }

  lemma NameUnique12()
    ensures forall j :: 12 < j < |FieldNames| ==> FieldNames[12] != FieldNames[j]
  {
  }

  lemma NameUnique13()
    ensures forall j :: 13 < j < |FieldNames| ==> FieldNames[13] != FieldNames[j]
  {
  }

  lemma NameUnique14()
    ensures forall j :: 14 < j < |FieldNames| ==> FieldNames[14] != FieldNames[j]
  {
  }

  lemma NameUnique15()
    ensures forall j :: 15 < j < |FieldNames| ==> FieldNames[15] != FieldNames[j]
  {
  }

  lemma NameUnique16()
    ensures forall j :: 16 < j < |FieldNames| ==> FieldNames[16] != FieldNames[j]
  {
  }

  lemma NameUnique17()
    ensures forall j :: 17 < j < |FieldNames| ==> FieldNames[17] != FieldNames[j]
  {
  }

  lemma NameUnique18()
    ensures forall j :: 18 < j < |FieldNames| ==> FieldNames[18] != FieldNames[j]
  {
  }

  lemma NameUnique19()
    ensures forall j :: 19 < j < |FieldNames| ==> FieldNames[19] != FieldNames[j]
  {
  }

  lemma NameUnique20()
    ensures forall j :: 20 < j < |FieldNames| ==> FieldNames[20] != FieldNames[j]
  {
  }

  lemma NameUnique21()
    ensures forall j :: 21 < j < |FieldNames| ==> FieldNames[21] != FieldNames[j]
  {
  }

  lemma NameUnique22()
    ensures forall j :: 22 < j < |FieldNames| ==> FieldNames[22] != FieldNames[j]
  {
  }

  lemma NameUnique23()
    ensures forall j :: 23 < j < |FieldNames| ==> FieldNames[23] != FieldNames[j]
  {
  }

  lemma NameUnique24()
    ensures forall j :: 24 < j < |FieldNames| ==> FieldNames[24] != FieldNames[j]
  {
  }

  lemma NameUnique25()
    ensures forall j :: 25 < j < |FieldNames| ==> FieldNames[25] != FieldNames[j]
  {
  }

  lemma NameUnique26()
    ensures forall j :: 26 < j < |FieldNames| ==> FieldNames[26] != FieldNames[j]
  {
  }

  lemma NameUnique27()
    ensures forall j :: 27 < j < |FieldNames| ==> FieldNames[27] != FieldNames[j]
  {
  }

  lemma NameUnique28()
    ensures forall j :: 28 < j < |FieldNames| ==> FieldNames[28] != FieldNames[j]
  {
  }

  lemma NameUnique29()
    ensures forall j :: 29 < j < |FieldNames| ==> FieldNames[29] != FieldNames[j]
  {
  }

  lemma NameUnique30()
    ensures forall j :: 30 < j < |FieldNames| ==> FieldNames[30] != FieldNames[j]
  {
  }

  lemma NameUnique31()
    ensures forall j :: 31 < j < |FieldNames| ==> FieldNames[31] != FieldNames[j]
  {
  }

  lemma NameUnique32()
    ensures forall j :: 32 < j < |FieldNames| ==> FieldNames[32] != FieldNames[j]
  {
  }

  lemma NameUnique33()
    ensures forall j :: 33 < j < |FieldNames| ==> FieldNames[33] != FieldNames[j]
  {
  }

  lemma NameUnique34()
    ensures forall j :: 34 < j < |FieldNames| ==> FieldNames[34] != FieldNames[j]
  {
  }

  lemma NameUnique35()
    ensures forall j :: 35 < j < |FieldNames| ==> FieldNames[35] != FieldNames[j]
  {
  }

  lemma NameUnique36()
    ensures forall j :: 36 < j < |FieldNames| ==> FieldNames[36] != FieldNames[j]
  {
  }

  lemma NameUnique37()
    ensures forall j :: 37 < j < |FieldNames| ==> FieldNames[37] != FieldNames[j]
  {
  }

  lemma NameUnique38()
    ensures forall j :: 38 < j < |FieldNames| ==> FieldNames[38] != FieldNames[j]
  {
  }

  lemma NameUnique39()
    ensures forall j :: 39 < j < |FieldNames| ==> FieldNames[39] != FieldNames[j]
  {
  }

  /** Name i differs from every later name. */
  lemma NameUnique(i: nat)
    requires i < |FieldNames|
    ensures forall j :: i < j < |FieldNames| ==> FieldNames[i] != FieldNames[j]
  {
    if i == 0 { NameUnique0(); }
    else if i == 1 { NameUnique1(); }
    else if i == 2 { NameUnique2(); }
    else if i == 3 { NameUnique3(); }
    else if i == 4 { NameUnique4(); }
    else if i == 5 { NameUnique5(); }
    else if i == 6 { NameUnique6(); }
    else if i == 7 { NameUnique7(); }
    else if i == 8 { NameUnique8(); }
    else if i == 9 { NameUnique9(); }
    else if i == 10 { NameUnique10(); }
    else if i == 11 { NameUnique11(); }
    else if i == 12 { NameUnique12(); }
    else if i == 13 { NameUnique13(); }
    else if i == 14 { NameUnique14(); }
    else if i == 15 { NameUnique15(); }
    else if i == 16 { NameUnique16(); }
    else if i == 17 { NameUnique17(); }
    else if i == 18 { NameUnique18(); }
    else if i == 19 { NameUnique19(); }
    else if i == 20 { NameUnique20(); }
    else if i == 21 { NameUnique21(); }
    else if i == 22 { NameUnique22(); }
    else if i == 23 { NameUnique23(); }
    else if i == 24 { NameUnique24(); }
    else if i == 25 { NameUnique25(); }
    else if i == 26 { NameUnique26(); }
    else if i == 27 { NameUnique27(); }
    else if i == 28 { NameUnique28(); }
    else if i == 29 { NameUnique29(); }
    else if i == 30 { NameUnique30(); }
    else if i == 31 { NameUnique31(); }
    else if i == 32 { NameUnique32(); }
    else if i == 33 { NameUnique33(); }
    else if i == 34 { NameUnique34(); }
    else if i == 35 { NameUnique35(); }
    else if i == 36 { NameUnique36(); }
    else if i == 37 { NameUnique37(); }
    else if i == 38 { NameUnique38(); }
    else if i == 39 { NameUnique39(); }
  }

  /** No two declared fields share a name. */
  lemma FieldNamesDistinct()
    ensures Distinct(FieldNames)
  {
    forall i, j | 0 <= i < j < |FieldNames| ensures FieldNames[i] != FieldNames[j] {
      NameUnique(i);
    }
  }

  /**
   * The record a validated body dumps, in declaration order: each field the
   * body gave keeps its value, and each omitted field takes its default.
   */
  function Dumped(given: Row): (rec: Record)
    ensures |rec| == |Schema| && DistinctKeys(rec)
    ensures Keys(rec) == FieldNames
  {
    FieldNamesOfSchema();
    FieldNamesDistinct();
    var rec := seq(|Schema|, i requires 0 <= i < |Schema| =>
      (Schema[i].name, if Schema[i].name in given then given[Schema[i].name] else Schema[i].default));
    rec
  }

  /** Field i of the dumped body is the given value, or the default when the body omitted it. */
  lemma DumpedField(given: Row, i: nat)
    requires i < |Schema|
    ensures Schema[i].name in RowOf(Dumped(given))
    ensures RowOf(Dumped(given))[Schema[i].name] ==
              if Schema[i].name in given then given[Schema[i].name] else Schema[i].default
  {
    RowOfLookup(Dumped(given), i);
  }

  /** With the defaults filled in, a body is valid exactly when every field it gives is within its field's bounds. */
  lemma DumpedValidIff(given: Row)
    ensures Valid(RowOf(Dumped(given))) <==>
              forall i :: 0 <= i < |Schema| && Schema[i].name in given ==> Admits(Schema[i].kind, given[Schema[i].name])
  {
    var row := RowOf(Dumped(given));
    forall i | 0 <= i < |Schema|
      ensures FieldOk(Schema[i], row) <==> (Schema[i].name in given ==> Admits(Schema[i].kind, given[Schema[i].name]))
    {
      DumpedField(given, i);
      DefaultsAdmitted(i);
    }
  }

  /** An empty request body passes validation: every field takes its default. */
  lemma EmptyBodyValid()
    ensures Valid(RowOf(Dumped(map[])))
  {
    DumpedValidIff(map[]);
  }
}

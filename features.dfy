/**
 * Input normalisation (app.py, preprocess_input and the form reading in
 * predict): a request record becomes the seven-column feature row the
 * classifier was trained on, the six structured fields followed by `all_text`.
 */
module Features {
  import opened Wrappers
  import opened TextFields
  import opened Frames

  /** A request record: field name to value, where None is Python's None. */
  type Record = map<string, Option<string>>

  /** The structured fields, passed to the classifier unchanged and in this order. */
  const STRUCTURED_COLS: seq<string> :=
    ["job_title", "location", "industry", "salary_range", "company_profile", "employment_type"]

  /** The free-text fields, which reach the classifier only through `all_text`. */
  const TEXT_COLS: seq<string> := ["job_desc", "skills_desc", "text"]

  /** The synthesised column. */
  const ALL_TEXT: string := "all_text"

  /** The columns of the feature row, in order. */
  const FEATURE_COLS: seq<string> := STRUCTURED_COLS + [ALL_TEXT]

  /** The nine fields predict reads from the submitted form, in the order it reads them. */
  const FORM_FIELDS: seq<string> := STRUCTURED_COLS + TEXT_COLS

  /** `data.get(key, "")`: the value under `key`, or the empty string when the key is absent. */
  function Get(data: Record, key: string): (v: Option<string>)
    ensures key in data ==> v == data[key]
    ensures key !in data ==> v == Some("")
  {
    if key in data then data[key] else Some("")
  }

  /** The `all_text` cell of a record. */
  function AllTextOf(data: Record): string
  {
    AllText(Get(data, "job_desc"), Get(data, "skills_desc"), Get(data, "text"))
  }

  /**
   * The feature row of a record, defined directly: the six structured cells as
   * they are and the `all_text` cell; the structured fields that are absent
   * make the selection fail.
   */
  function FeatureVector(data: Record): (r: Result<seq<Column>, KeyError>)
    ensures r.Success? <==> forall c :: c in STRUCTURED_COLS ==> c in data
    ensures r.Success? ==>
      && |r.value| == |FEATURE_COLS|
      && (forall i :: 0 <= i < |FEATURE_COLS| ==> r.value[i].name == FEATURE_COLS[i])
      && (forall i :: 0 <= i < |STRUCTURED_COLS| ==>
            STRUCTURED_COLS[i] in data && r.value[i].cell == data[STRUCTURED_COLS[i]])
      && r.value[|STRUCTURED_COLS|].cell == Some(AllTextOf(data))
    ensures r.Failure? ==>
      && r.error.missing != []
      && forall c :: c in r.error.missing <==> c in STRUCTURED_COLS && c !in data
  {
    var missing := Missing(STRUCTURED_COLS, data.Keys);
    if missing == [] then
      assert forall i :: 0 <= i < |STRUCTURED_COLS| ==> STRUCTURED_COLS[i] in data by {
        forall i | 0 <= i < |STRUCTURED_COLS| ensures STRUCTURED_COLS[i] in data {
          assert STRUCTURED_COLS[i] !in missing;
        }
      }
      Success(Project(STRUCTURED_COLS, data) + [Column(ALL_TEXT, Some(AllTextOf(data)))])
    else
      assert missing[0] in STRUCTURED_COLS && missing[0] !in data;
      Failure(KeyError(missing))
  }

  /**
   * preprocess_input: makes a one-row frame of the record, sets its `all_text`
   * column in place (overwriting one the record may carry), then keeps exactly
   * the feature columns.
   */
  method PreprocessInput(data: Record) returns (r: Result<seq<Column>, KeyError>)
    ensures r == FeatureVector(data)
  {
    var df := new DataFrame(data);
    var allText := BuildAllText(Get(data, "job_desc"), Get(data, "skills_desc"), Get(data, "text"));
    df.SetColumn(ALL_TEXT, Some(allText));
    var featureCols := STRUCTURED_COLS + [ALL_TEXT];
    r := df.Select(featureCols);
    SelectFeatureCols(data, Some(allText));
  }

  /** Selecting the feature columns after setting `all_text` is the reference feature row. */
  lemma SelectFeatureCols(data: Record, allText: Option<string>)
    requires allText == Some(AllTextOf(data))
    ensures Missing(FEATURE_COLS, data[ALL_TEXT := allText].Keys) == Missing(STRUCTURED_COLS, data.Keys)
    ensures Missing(STRUCTURED_COLS, data.Keys) == [] ==>
      Project(FEATURE_COLS, data[ALL_TEXT := allText]) == FeatureVector(data).value
  {
    var row := data[ALL_TEXT := allText];
    assert ALL_TEXT !in STRUCTURED_COLS;
    forall i | 0 <= i < |STRUCTURED_COLS|
      ensures STRUCTURED_COLS[i] in row <==> STRUCTURED_COLS[i] in data
    {
      assert STRUCTURED_COLS[i] != ALL_TEXT;
    }
    MissingAgree(STRUCTURED_COLS, row.Keys, data.Keys);
    MissingAppend(STRUCTURED_COLS, [ALL_TEXT], row.Keys);
    if Missing(STRUCTURED_COLS, data.Keys) == [] {
      var expected := FeatureVector(data).value;
      var got := Project(FEATURE_COLS, row);
      forall i | 0 <= i < |got| ensures got[i] == expected[i] {
        if i < |STRUCTURED_COLS| {
          assert STRUCTURED_COLS[i] != ALL_TEXT;
        }
      }
    }
  }

  /** `request.form.get(name, '')`: the submitted value, or the empty string when it was not sent. */
  function FormValue(form: map<string, string>, name: string): (v: string)
    ensures name in form ==> v == form[name]
    ensures name !in form ==> v == ""
  {
    if name in form then form[name] else ""
  }

  /**
   * The record predict builds from the form: exactly the nine form fields, each
   * present, the submitted value or the empty string; other form fields are dropped.
   */
  function FormRecord(form: map<string, string>): (data: Record)
    ensures forall k :: k in data <==> k in FORM_FIELDS
    ensures forall k :: k in data ==> data[k] == Some(FormValue(form, k))
  {
    map k | k in FORM_FIELDS :: Some(FormValue(form, k))
  }

  /**
   * The feature row predict hands to the classifier: selection never fails,
   * every structured cell is the submitted value or "", and `all_text` joins the
   * three submitted text values, with "" for each one not sent.
   */
  function FormFeatures(form: map<string, string>): (f: seq<Column>)
    ensures |f| == |FEATURE_COLS|
    ensures forall i :: 0 <= i < |FEATURE_COLS| ==> f[i].name == FEATURE_COLS[i]
    ensures forall i :: 0 <= i < |STRUCTURED_COLS| ==>
      f[i].cell == Some(FormValue(form, STRUCTURED_COLS[i]))
    ensures f[|STRUCTURED_COLS|].cell == Some(
      FormValue(form, "job_desc") + " " + FormValue(form, "skills_desc") + " " + FormValue(form, "text"))
  {
    var data := FormRecord(form);
    assert forall c :: c in STRUCTURED_COLS ==> c in data;
    FeatureVector(data).value
  }

  /** The record predict builds always has all its fields, so preprocessing it never raises. */
  lemma FormRecordPreprocesses(form: map<string, string>)
    ensures FeatureVector(FormRecord(form)) == Success(FormFeatures(form))
  {
  }

  /**
   * Only the nine known fields matter: records that agree on them (presence
   * and value) give the same feature row, whatever other keys they carry.
   */
  lemma FeatureVectorIgnoresOtherKeys(d1: Record, d2: Record)
    requires forall k :: k in FORM_FIELDS ==> (k in d1 <==> k in d2)
    requires forall k :: k in FORM_FIELDS && k in d1 ==> d1[k] == d2[k]
    ensures FeatureVector(d1) == FeatureVector(d2)
  {
    AgreeOnStructured(d1, d2);
    MissingAgree(STRUCTURED_COLS, d1.Keys, d2.Keys);
    AgreeOnAllText(d1, d2);
    if Missing(STRUCTURED_COLS, d1.Keys) == [] {
      ProjectAgree(STRUCTURED_COLS, d1, d2);
    }
  }

  /** Records that agree on the form fields agree on every structured column. */
  lemma AgreeOnStructured(d1: Record, d2: Record)
    requires forall k :: k in FORM_FIELDS ==> (k in d1 <==> k in d2)
    requires forall k :: k in FORM_FIELDS && k in d1 ==> d1[k] == d2[k]
    ensures forall i :: 0 <= i < |STRUCTURED_COLS| ==> (STRUCTURED_COLS[i] in d1 <==> STRUCTURED_COLS[i] in d2)
    ensures forall i :: 0 <= i < |STRUCTURED_COLS| && STRUCTURED_COLS[i] in d1 ==>
      d1[STRUCTURED_COLS[i]] == d2[STRUCTURED_COLS[i]]
  {
    forall i | 0 <= i < |STRUCTURED_COLS|
      ensures STRUCTURED_COLS[i] in FORM_FIELDS
    {
      assert STRUCTURED_COLS[i] == FORM_FIELDS[i];
    }
  }

  /** Records that agree on the form fields have the same `all_text`. */
  lemma AgreeOnAllText(d1: Record, d2: Record)
    requires forall k :: k in FORM_FIELDS ==> (k in d1 <==> k in d2)
    requires forall k :: k in FORM_FIELDS && k in d1 ==> d1[k] == d2[k]
    ensures AllTextOf(d1) == AllTextOf(d2)
  {
    assert "job_desc" == FORM_FIELDS[6];
    assert "skills_desc" == FORM_FIELDS[7];
    assert "text" == FORM_FIELDS[8];
    assert Get(d1, "job_desc") == Get(d2, "job_desc");
    assert Get(d1, "skills_desc") == Get(d2, "skills_desc");
    assert Get(d1, "text") == Get(d2, "text");
  }

  /** Projections of rows that agree on the selected labels are equal. */
  lemma {:induction false} ProjectAgree(labels: seq<string>, m1: Record, m2: Record)
    requires forall i :: 0 <= i < |labels| ==> labels[i] in m1 && labels[i] in m2
    requires forall i :: 0 <= i < |labels| ==> m1[labels[i]] == m2[labels[i]]
    ensures Project(labels, m1) == Project(labels, m2)
  {
    if |labels| > 0 {
      ProjectAgree(labels[1..], m1, m2);
    }
  }
}

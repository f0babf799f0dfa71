/**
 * The slice of a pandas DataFrame that preprocess_input uses: a frame of one
 * row built from a record, a column set in place, and a selection of columns
 * by label that yields exactly those columns in the order asked for.
 */
module Frames {
  import opened Wrappers

  /** One column of a one-row frame: its label and its single cell (None is Python's None). */
  datatype Column = Column(name: string, cell: Option<string>)

  /** What selecting absent labels raises: the requested labels that are not columns. */
  datatype KeyError = KeyError(missing: seq<string>)

  /** The labels of `labels` that are not in `keys`, in the order they were asked for. */
  function Missing(labels: seq<string>, keys: set<string>): (m: seq<string>)
    ensures forall x :: x in m <==> x in labels && x !in keys
    ensures |m| <= |labels|
  {
    if |labels| == 0 then []
    else (if labels[0] in keys then [] else [labels[0]]) + Missing(labels[1..], keys)
  }

  /** Missing distributes over concatenated label lists. */
  lemma {:induction false} MissingAppend(xs: seq<string>, ys: seq<string>, keys: set<string>)
    ensures Missing(xs + ys, keys) == Missing(xs, keys) + Missing(ys, keys)
  {
    if |xs| > 0 {
      assert (xs + ys)[1..] == xs[1..] + ys;
      MissingAppend(xs[1..], ys, keys);
    } else {
      assert xs + ys == ys;
    }
  }

  /** Missing only looks at whether each requested label is a key. */
  lemma {:induction false} MissingAgree(labels: seq<string>, k1: set<string>, k2: set<string>)
    requires forall i :: 0 <= i < |labels| ==> (labels[i] in k1 <==> labels[i] in k2)
    ensures Missing(labels, k1) == Missing(labels, k2)
  {
    if |labels| > 0 {
      MissingAgree(labels[1..], k1, k2);
    }
  }

  /** The cells of `row` under `labels`, in the order of `labels`. */
  function Project(labels: seq<string>, row: map<string, Option<string>>): (cols: seq<Column>)
    requires forall i :: 0 <= i < |labels| ==> labels[i] in row
    ensures |cols| == |labels|
    ensures forall i :: 0 <= i < |labels| ==> cols[i] == Column(labels[i], row[labels[i]])
  {
    if |labels| == 0 then []
    else [Column(labels[0], row[labels[0]])] + Project(labels[1..], row)
  }

  /** A DataFrame of one row. Column order of this frame is not kept: only selections are ordered. */
  class DataFrame {
    var row: map<string, Option<string>>

    /** `pd.DataFrame([record])`: one column per key of the record. */
    constructor (record: map<string, Option<string>>)
      ensures row == record
    {
      row := record;
    }

    /** `df[name] = value`: adds the column, or overwrites it when the label exists. */
    method SetColumn(name: string, value: Option<string>)
      modifies this
      ensures row == old(row)[name := value]
    {
      row := row[name := value];
    }

    /**
     * `df[labels]`: a frame with exactly the columns `labels`, in that order;
     * when some labels are not columns it raises, naming those labels.
     */
    function Select(labels: seq<string>): (r: Result<seq<Column>, KeyError>)
      reads this
      ensures r.Success? <==> forall i :: 0 <= i < |labels| ==> labels[i] in row
      ensures r.Success? ==>
        && |r.value| == |labels|
        && forall i :: 0 <= i < |labels| ==> labels[i] in row && r.value[i] == Column(labels[i], row[labels[i]])
      ensures r.Failure? ==>
        forall x :: x in r.error.missing <==> x in labels && x !in row
    {
      var missing := Missing(labels, row.Keys);
      if missing == [] then
        assert forall i :: 0 <= i < |labels| ==> labels[i] in row by {
          forall i | 0 <= i < |labels| ensures labels[i] in row {
            assert labels[i] !in missing;
          }
        }
        Success(Project(labels, row))
      else
        assert missing[0] in labels && missing[0] !in row;
        Failure(KeyError(missing))
    }
  }
}

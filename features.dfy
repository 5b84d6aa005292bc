/** Telemetry rows and the append-only row log (`AnomalyFeatures`). */
module Features {
  import opened Wrappers

  /** One field of a row: the source mixes Python ints (codes, 0/1 flags) and floats. */
  datatype Value = Int(i: int) | Float(x: real)

  /** One sampled feature vector. */
  type Row = seq<Value>

  /** The argument handed to `append_row`: a Python list, or any object that is not one. */
  datatype RowArg = ListArg(items: Row) | NonList

  /** What `append_row` did: appended, or raised `BadRowException` with its message. */
  datatype AppendOutcome = Appended | BadRow(message: string)

  const BadRowMessage: string := "row must be of type <list> and size=26"

  /** Python `s[idx]` for an integer index: negative indices count from the end,
      None stands for the IndexError raised outside `-|s| <= idx < |s|`. */
  function PyIndex<T>(s: seq<T>, idx: int): (r: Option<T>)
    ensures r.Some? <==> -|s| <= idx < |s|
    ensures r.Some? ==> r.value in s
  {
    if 0 <= idx < |s| then Some(s[idx])
    else if -|s| <= idx < 0 then Some(s[|s| + idx])
    else None
  }

  /** Index -1 (the default of `retrieve_row`) is the row appended last. */
  lemma LastIsNewest<T>(s: seq<T>, x: T)
    ensures PyIndex(s + [x], -1) == Some(x)
  {
  }

  /** A negative index names the same element as its non-negative counterpart. */
  lemma NegativeIndex<T>(s: seq<T>, k: int)
    requires 0 <= k < |s|
    ensures PyIndex(s, k - |s|) == PyIndex(s, k) == Some(s[k])
  {
  }

  /** The row log: rows in capture order, only ever appended to. */
  class AnomalyFeatures {
    var rows: seq<Row>

    constructor ()
      ensures rows == []
    {
      rows := [];
    }

    /** `append_row`: a list is appended as the newest row; anything else raises
        `BadRowException` and leaves the log as it was. */
    method AppendRow(arg: RowArg) returns (outcome: AppendOutcome)
      modifies this
      ensures arg.ListArg? ==> outcome == Appended && rows == old(rows) + [arg.items]
      ensures arg.ListArg? ==> |rows| == |old(rows)| + 1 && rows[..|old(rows)|] == old(rows)
      ensures arg.ListArg? ==> RetrieveRow() == Some(arg.items)
      ensures arg.NonList? ==> outcome == BadRow(BadRowMessage) && rows == old(rows)
    {
      match arg
      case ListArg(items) =>
        rows := rows + [items];
        outcome := Appended;
        LastIsNewest(old(rows), items);
      case NonList =>
        outcome := BadRow(BadRowMessage);
    }

    /** `retrieve_row(idx)`: the row at a Python index, by default the newest; None for an
        index out of range. */
    function RetrieveRow(idx: int := -1): (r: Option<Row>)
      reads this
      ensures r.Some? <==> -|rows| <= idx < |rows|
      ensures r.Some? ==> r.value in rows
    {
      PyIndex(rows, idx)
    }

    /** `retrieve_all_data`: the whole log, oldest row first. */
    function RetrieveAllData(): (r: seq<Row>)
      reads this
      ensures |r| == |rows| && forall i :: 0 <= i < |r| ==> r[i] == rows[i]
    {
      rows
    }
  }

  /** `retrieve_row(k)` and `retrieve_all_data()[k]` name the same row, for the index
      counted from the front and from the back. */
  lemma RetrieveAgrees(log: AnomalyFeatures, k: int)
    requires 0 <= k < |log.rows|
    ensures log.RetrieveRow(k) == Some(log.RetrieveAllData()[k])
    ensures log.RetrieveRow(k - |log.rows|) == Some(log.RetrieveAllData()[k])
  {
    NegativeIndex(log.rows, k);
  }
}

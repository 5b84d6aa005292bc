/** The text written for each row when the log is flushed:
    `str(row).replace('[', '').replace(']', '')`. How Python renders a float is left to a
    parameter `floatRepr`. */
module Serialise {
  import opened Features
  import Text

  /** `repr` of one field. */
  function Repr(v: Value, floatRepr: real -> string): string {
    match v
    case Int(i) => Text.IntToString(i)
    case Float(x) => floatRepr(x)
  }

  function Reprs(row: Row, floatRepr: real -> string): (r: seq<string>)
    ensures |r| == |row|
    ensures forall i :: 0 <= i < |row| ==> r[i] == Repr(row[i], floatRepr)
  {
    seq(|row|, i requires 0 <= i < |row| => Repr(row[i], floatRepr))
  }

  /** Python `str(list)`. */
  function ListText(row: Row, floatRepr: real -> string): string {
    "[" + Text.Join(Reprs(row, floatRepr), ", ") + "]"
  }

  /** One line of the output file, without its newline. */
  function Line(row: Row, floatRepr: real -> string): (r: string)
    ensures '[' !in r && ']' !in r
  {
    Text.RemoveChar(Text.RemoveChar(ListText(row, floatRepr), '['), ']')
  }

  /** The lines of the whole log, one per row, in log order. */
  function Lines(rows: seq<Row>, floatRepr: real -> string): (r: seq<string>)
    ensures |r| == |rows|
    decreases |rows|
  {
    if |rows| == 0 then [] else Lines(rows[..|rows| - 1], floatRepr) + [Line(rows[|rows| - 1], floatRepr)]
  }

  /** Float renderings contain no square bracket (true of every Python float repr). */
  ghost predicate BracketFree(floatRepr: real -> string) {
    forall x: real :: '[' !in floatRepr(x) && ']' !in floatRepr(x)
  }

  /** A line is the fields' renderings joined with ", ": stripping removes exactly the two
      brackets `str(list)` adds. */
  lemma {:induction false} LineIsJoin(row: Row, floatRepr: real -> string)
    requires BracketFree(floatRepr)
    ensures Line(row, floatRepr) == Text.Join(Reprs(row, floatRepr), ", ")
  {
    var parts := Reprs(row, floatRepr);
    var joined := Text.Join(parts, ", ");
    forall i | 0 <= i < |parts|
      ensures '[' !in parts[i] && ']' !in parts[i]
    {
      match row[i]
      case Int(n) =>
      case Float(x) =>
    }
    Text.JoinAvoids(parts, ", ", '[');
    Text.JoinAvoids(parts, ", ", ']');
    Text.RemoveCharConcat("[" + joined, "]", '[');
    Text.RemoveCharConcat("[", joined, '[');
    Text.RemoveCharAbsent(joined, '[');
    assert Text.RemoveChar("[", '[') == "";
    assert Text.RemoveChar("]", '[') == "]";
    assert Text.RemoveChar(ListText(row, floatRepr), '[') == joined + "]";
    Text.RemoveCharConcat(joined, "]", ']');
    Text.RemoveCharAbsent(joined, ']');
    assert Text.RemoveChar("]", ']') == "";
  }

  /** The flushed output has one line per row of the log, line i rendering row i. */
  lemma {:induction false} LinesAt(rows: seq<Row>, floatRepr: real -> string)
    ensures |Lines(rows, floatRepr)| == |rows|
    ensures forall i :: 0 <= i < |rows| ==> Lines(rows, floatRepr)[i] == Line(rows[i], floatRepr)
    decreases |rows|
  {
    if |rows| > 0 {
      var init := rows[..|rows| - 1];
      LinesAt(init, floatRepr);
      forall i | 0 <= i < |rows| - 1
        ensures Lines(rows, floatRepr)[i] == Line(rows[i], floatRepr)
      {
        assert rows[i] == init[i];
      }
    }
  }

  /** Writing the rows one after another yields the lines of the log. */
  lemma LinesSnoc(rows: seq<Row>, i: nat, floatRepr: real -> string)
    requires i < |rows|
    ensures Lines(rows[..i + 1], floatRepr) == Lines(rows[..i], floatRepr) + [Line(rows[i], floatRepr)]
  {
    assert rows[..i + 1][..i] == rows[..i];
  }
}

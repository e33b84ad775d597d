/** `joinColumns` of internal/model/migrate.go, which renders an index's
    column list for a CREATE INDEX statement. */
module Migrate {

  /** The column names separated by ", ", defined from the front. */
  function Join(columns: seq<string>): string
  {
    if |columns| == 0 then ""
    else if |columns| == 1 then columns[0]
    else columns[0] + ", " + Join(columns[1..])
  }

  /** Total length of the column names. */
  function TotalLength(columns: seq<string>): nat
  {
    if |columns| == 0 then 0 else |columns[0]| + TotalLength(columns[1..])
  }

  lemma JoinEmptyAndSingle(c: string)
    ensures Join([]) == ""
    ensures Join([c]) == c
  {
  }

  /** Appending a column to a non-empty list appends ", " and the column. */
  lemma {:induction false} JoinSnoc(columns: seq<string>, c: string)
    requires |columns| >= 1
    ensures Join(columns + [c]) == Join(columns) + ", " + c
  {
    if |columns| == 1 {
      assert columns + [c] == [columns[0], c];
    } else {
      calc {
        Join(columns + [c]);
        { assert (columns + [c])[1..] == columns[1..] + [c]; }
        columns[0] + ", " + Join(columns[1..] + [c]);
        { JoinSnoc(columns[1..], c); }
        columns[0] + ", " + (Join(columns[1..]) + ", " + c);
        Join(columns) + ", " + c;
      }
    }
  }

  /** The result is the names plus one two-character separator between
      each pair of neighbours. */
  lemma {:induction false} JoinLength(columns: seq<string>)
    requires |columns| >= 1
    ensures |Join(columns)| == TotalLength(columns) + 2 * (|columns| - 1)
  {
    if |columns| == 1 {
      assert TotalLength(columns) == |columns[0]| + TotalLength(columns[1..]);
      assert columns[1..] == [];
    } else {
      JoinLength(columns[1..]);
    }
  }

  /** The source's loop: a separator before every column but the first. */
  method JoinColumns(columns: seq<string>) returns (result: string)
    ensures result == Join(columns)
  {
    result := "";
    var i := 0;
    while i < |columns|
      invariant 0 <= i <= |columns|
      invariant result == Join(columns[..i])
    {
      if i > 0 {
        JoinSnoc(columns[..i], columns[i]);
        assert columns[..i + 1] == columns[..i] + [columns[i]];
        result := result + ", ";
      } else {
        assert columns[..1] == [columns[0]];
      }
      result := result + columns[i];
      i := i + 1;
    }
    assert columns[..i] == columns;
  }
}

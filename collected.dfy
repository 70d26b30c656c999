/** Values returned by the platform's data collector, Python truthiness, and the
    per-record parameter builder shared by lock_device_1, get_user_attributes_1,
    reset_password_1 and reset_password_2. */
module Collected {

  /** A value read through a datapath: absent, a string, or a number. */
  datatype Datum = Null | Str(s: string) | Int(i: int)

  /** Python's truthiness of a collected value: None, "" and 0 are false. */
  predicate Truthy(d: Datum) {
    match d
    case Null => false
    case Str(s) => s != ""
    case Int(i) => i != 0
  }

  /** One tuple of a two-path collection: the business value (item[0]) and the
      identifier of the artifact it came from (item[1]). */
  datatype Row = Row(value: Datum, artifactId: Datum)

  /** Indices of the rows whose first element is truthy, in increasing order. */
  function TruthyIndices(rows: seq<Row>): (idx: seq<nat>)
    ensures |idx| <= |rows|
  {
    if rows == [] then []
    else
      var n := |rows| - 1;
      TruthyIndices(rows[..n]) + (if Truthy(rows[n].value) then [n] else [])
  }

  /** The parameter list a builder loop produces: one parameter set, made by
      `make`, per row whose first element is truthy, in row order. */
  function Build<P>(rows: seq<Row>, make: Row -> P): seq<P>
  {
    if rows == [] then []
    else
      var n := |rows| - 1;
      Build(rows[..n], make) + (if Truthy(rows[n].value) then [make(rows[n])] else [])
  }

  /** TruthyIndices lists exactly the rows with a truthy first element, each
      once, in strictly increasing order. */
  lemma {:induction false} TruthyIndicesExact(rows: seq<Row>)
    ensures forall k :: 0 <= k < |TruthyIndices(rows)| ==> TruthyIndices(rows)[k] < |rows|
    ensures forall k :: 0 <= k < |TruthyIndices(rows)| ==> Truthy(rows[TruthyIndices(rows)[k]].value)
    ensures forall j, k :: 0 <= j < k < |TruthyIndices(rows)| ==> TruthyIndices(rows)[j] < TruthyIndices(rows)[k]
    ensures forall i :: 0 <= i < |rows| && Truthy(rows[i].value) ==> i in TruthyIndices(rows)
  {
    if rows != [] {
      var n := |rows| - 1;
      var front := rows[..n];
      TruthyIndicesExact(front);
      assert forall i :: 0 <= i < n ==> front[i] == rows[i];
    }
  }

  /** The k-th built parameter set is made from the k-th kept row. */
  lemma {:induction false} BuildSelects<P>(rows: seq<Row>, make: Row -> P)
    ensures |Build(rows, make)| == |TruthyIndices(rows)|
    ensures forall k :: 0 <= k < |Build(rows, make)| ==>
      TruthyIndices(rows)[k] < |rows| && Build(rows, make)[k] == make(rows[TruthyIndices(rows)[k]])
  {
    if rows != [] {
      var n := |rows| - 1;
      var front := rows[..n];
      BuildSelects(front, make);
      TruthyIndicesExact(front);
      assert forall i :: 0 <= i < n ==> front[i] == rows[i];
    }
  }

  /** A builder drops nothing but falsy rows: the output is exactly as long as
      the input iff every row's first element is truthy. */
  lemma {:induction false} BuildKeepsAllIffAllTruthy<P>(rows: seq<Row>, make: Row -> P)
    ensures |Build(rows, make)| <= |rows|
    ensures |Build(rows, make)| == |rows| <==> forall i :: 0 <= i < |rows| ==> Truthy(rows[i].value)
  {
    if rows != [] {
      var n := |rows| - 1;
      var front := rows[..n];
      BuildKeepsAllIffAllTruthy(front, make);
      assert forall i :: 0 <= i < n ==> front[i] == rows[i];
    }
  }

  /** The loop of the four per-record blocks: start from an empty list and
      append one parameter set per tuple whose first element is truthy. */
  method BuildParameters<P>(rows: seq<Row>, make: Row -> P) returns (parameters: seq<P>)
    ensures parameters == Build(rows, make)
  {
    parameters := [];
    var i := 0;
    while i < |rows|
      invariant 0 <= i <= |rows|
      invariant parameters == Build(rows[..i], make)
    {
      var item := rows[i];
      if Truthy(item.value) {
        parameters := parameters + [make(item)];
      }
      assert rows[..i + 1][..i] == rows[..i];
      i := i + 1;
    }
    assert rows[..i] == rows;
  }
}

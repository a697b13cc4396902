/**
 * Building the training data from the records of the input file: every record's
 * feature cells become a sample with a bias term 1 in front, and its last cell
 * becomes the label -1 or +1.
 */
module Dataset {
  import opened Linear

  /** One record of the input, its feature cells already read as numbers. */
  datatype Record = Record(fields: seq<real>, labelCell: string)

  /** The label of a record: -1 for the exact text "-1", +1 for any other text. */
  function Label(s: string): (r: real)
    ensures r == 1.0 || r == -1.0
    ensures r == -1.0 <==> s == "-1"
  {
    if s == "-1" then -1.0 else 1.0
  }

  /** A sample with the bias input 1 put in front of its features. */
  function WithBias(fields: seq<real>): (x: seq<real>)
    ensures |x| == |fields| + 1 && x[0] == 1.0 && x[1..] == fields
  {
    [1.0] + fields
  }

  /**
   * The samples and labels of the records, in order: every sample is one longer
   * than its record's features and starts with the bias 1, every label is -1 or +1.
   */
  method BuildDataset(records: seq<Record>) returns (X: seq<seq<real>>, Y: seq<real>)
    ensures |X| == |Y| == |records|
    ensures forall i :: 0 <= i < |records| ==> X[i] == WithBias(records[i].fields) && Y[i] == Label(records[i].labelCell)
    ensures forall i :: 0 <= i < |Y| ==> Y[i] == 1.0 || Y[i] == -1.0
    ensures forall i :: 0 <= i < |X| ==> |X[i]| == |records[i].fields| + 1 && X[i][0] == 1.0
  {
    X, Y := [], [];
    var j := 0;
    while j < |records|
      invariant 0 <= j <= |records|
      invariant |X| == |Y| == j
      invariant forall i :: 0 <= i < j ==> X[i] == WithBias(records[i].fields) && Y[i] == Label(records[i].labelCell)
    {
      var temp := records[j].fields;
      temp := [1.0] + temp;
      X := X + [temp];
      if records[j].labelCell == "-1" {
        Y := Y + [-1.0];
      } else {
        Y := Y + [1.0];
      }
      j := j + 1;
    }
  }

  /**
   * With the bias input in front, the score of a sample is the first weight (the
   * intercept) plus the inner product of the remaining weights with the features.
   */
  lemma BiasIntercept(w: seq<real>, fields: seq<real>)
    requires |w| == |fields| + 1
    ensures Dot(w, WithBias(fields)) == w[0] + Dot(w[1..], fields)
  {
    assert w == [w[0]] + w[1..];
    DotAppend([w[0]], w[1..], [1.0], fields);
    assert Products([w[0]], [1.0]) == [w[0]];
    assert Sum([w[0]]) == w[0] + Sum([]);
  }
}

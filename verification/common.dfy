/** Values shared by every part of the classifier: optional text, the labelled
    row of the input table, and the error outcomes of the pipeline. */
module Common {

  datatype Option<+T> = None | Some(value: T)

  /** The ways a step of the pipeline can stop instead of producing a value:
      a failed `percent > 0` assertion, a length mismatch between the test set
      and the predictions, and a metric whose denominator is zero. */
  datatype Error = InvalidArgument | LengthMismatch | ZeroDivision

  datatype Result<+T> = Success(value: T) | Failure(error: Error)

  /** One row of the two-column table: the tweet (absent when the cell is not
      a string) and its sentiment label (1 positive, 0 negative, anything else neither). */
  datatype Row = Row(text: Option<string>, sentiment: int)

  /** Column 0 of a table of rows. */
  function Texts(rows: seq<Row>): (r: seq<Option<string>>)
    ensures |r| == |rows|
    ensures forall i :: 0 <= i < |rows| ==> r[i] == rows[i].text
  {
    seq(|rows|, i requires 0 <= i < |rows| => rows[i].text)
  }

  /** The last column of a table of rows. */
  function Labels(rows: seq<Row>): (r: seq<int>)
    ensures |r| == |rows|
    ensures forall i :: 0 <= i < |rows| ==> r[i] == rows[i].sentiment
  {
    seq(|rows|, i requires 0 <= i < |rows| => rows[i].sentiment)
  }
}

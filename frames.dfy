/** A pandas data frame, reduced to what the application relies on: an
    ordered list of distinct column labels, one column of values per label,
    and a common number of rows. */
module Frames {
  import opened Seqs

  datatype Frame<T> = Frame(columns: seq<string>, data: map<string, seq<T>>, height: nat) {

    predicate WellFormed() {
      && Distinct(columns)
      && data.Keys == set c | c in columns
      && (forall c :: c in data ==> |data[c]| == height)
    }

    /** Row `i` as a mapping from column label to value (`df.iloc[i]`). */
    function Row(i: nat): map<string, T>
      requires WellFormed() && i < height
    {
      map c | c in data :: data[c][i]
    }
  }

  /** A cell of an uploaded table as pandas parses it: missing (NaN), a
      number, or text. */
  datatype Cell = Blank | Num(x: real) | Text(s: string)
}

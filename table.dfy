/**
 * The uploaded sheet as pandas holds it: a list of column labels and rows of cells
 * aligned with the labels. Labels may repeat; a label selects its first column.
 */
module Table {
  import opened Wrappers
  import opened Seqs

  /** One spreadsheet cell: an empty cell (NaN), a number or a piece of text. */
  datatype Cell = Null | Num(x: real) | Text(s: string)

  type Row = seq<Cell>
  type Column = seq<Cell>

  datatype Frame = Frame(columns: seq<string>, rows: seq<Row>) {
    /** Every row has one cell per column label. */
    predicate Valid() {
      forall i :: 0 <= i < |rows| ==> |rows[i]| == |columns|
    }
  }

  /** `Series.astype(str)` on one cell; how pandas prints a float is the parameter `numText`. */
  function CellText(c: Cell, numText: real -> string): string {
    match c
    case Null => "nan"
    case Num(x) => numText(x)
    case Text(s) => s
  }

  /** `DataFrame.rename(columns = d)`: labels that are keys of `d` are replaced, the others kept. */
  function RenameColumns(columns: seq<string>, d: map<string, string>): (r: seq<string>)
    ensures |r| == |columns|
    ensures forall j :: 0 <= j < |r| && columns[j] in d ==> r[j] == d[columns[j]]
    ensures forall j :: 0 <= j < |r| && columns[j] !in d ==> r[j] == columns[j]
  {
    seq(|columns|, j requires 0 <= j < |columns| => if columns[j] in d then d[columns[j]] else columns[j])
  }

  /** When no key is mapped to a key, renaming twice is renaming once. */
  lemma RenameIdempotent(columns: seq<string>, d: map<string, string>)
    requires forall k :: k in d ==> d[k] !in d
    ensures RenameColumns(RenameColumns(columns, d), d) == RenameColumns(columns, d)
  {
  }

  /** When no key is mapped to itself, renaming leaves the labels alone exactly when none is a key. */
  lemma RenameIdentityIff(columns: seq<string>, d: map<string, string>)
    requires forall k :: k in d ==> d[k] != k
    ensures RenameColumns(columns, d) == columns <==> forall j :: 0 <= j < |columns| ==> columns[j] !in d
  {
    if RenameColumns(columns, d) == columns {
      forall j | 0 <= j < |columns| ensures columns[j] !in d {
        assert RenameColumns(columns, d)[j] == columns[j];
      }
    }
  }

  /**
   * `df[name] = values`: the first column labelled `name` is overwritten, or a column
   * `name` is appended when there is none.
   */
  function WithColumn(f: Frame, name: string, values: Column): (r: Frame)
    requires f.Valid() && |values| == |f.rows|
    ensures r.Valid() && |r.rows| == |f.rows|
    ensures name in f.columns ==> r.columns == f.columns
    ensures name !in f.columns ==> r.columns == f.columns + [name]
    ensures IndexOf(r.columns, name).Some?
    ensures forall i :: 0 <= i < |r.rows| ==> r.rows[i][IndexOf(r.columns, name).value] == values[i]
    ensures forall i, j :: 0 <= i < |f.rows| && 0 <= j < |f.columns| && f.columns[j] != name ==>
      r.rows[i][j] == f.rows[i][j]
  {
    match IndexOf(f.columns, name)
    case Some(k) =>
      Frame(f.columns, seq(|f.rows|, i requires 0 <= i < |f.rows| => f.rows[i][k := values[i]]))
    case None =>
      var r := Frame(f.columns + [name], seq(|f.rows|, i requires 0 <= i < |f.rows| => f.rows[i] + [values[i]]));
      assert IndexOf(r.columns, name) == Some(|f.columns|) by {
        assert r.columns[..|f.columns|] == f.columns;
      }
      r
  }

  /** The frame without its column at position `k`. */
  function RemoveColumn(f: Frame, k: nat): (r: Frame)
    requires f.Valid() && k < |f.columns|
    ensures r.Valid() && |r.rows| == |f.rows|
    ensures |r.columns| == |f.columns| - 1
    ensures forall j :: 0 <= j < |r.columns| ==> r.columns[j] == f.columns[if j < k then j else j + 1]
    ensures forall i, j :: 0 <= i < |r.rows| && 0 <= j < |r.columns| ==>
      r.rows[i][j] == f.rows[i][if j < k then j else j + 1]
  {
    Frame(f.columns[..k] + f.columns[k + 1..],
          seq(|f.rows|, i requires 0 <= i < |f.rows| => f.rows[i][..k] + f.rows[i][k + 1..]))
  }

  /** The labels of `wanted` that no column carries, in order (the labels pandas reports in its KeyError). */
  function MissingLabels(wanted: seq<string>, columns: seq<string>): (r: seq<string>)
    ensures forall s :: s in r <==> s in wanted && s !in columns
    ensures IsSubseq(r, wanted)
  {
    if wanted == [] then []
    else if wanted[0] in columns then MissingLabels(wanted[1..], columns)
    else [wanted[0]] + MissingLabels(wanted[1..], columns)
  }

  /** `df[labels]`: the columns named by `labels`, in that order, as columns over `rows`. */
  function Project(columns: seq<string>, rows: seq<Row>, labels: seq<string>): (r: seq<Column>)
    requires forall i :: 0 <= i < |rows| ==> |rows[i]| == |columns|
    requires forall s :: s in labels ==> s in columns
    ensures |r| == |labels|
    ensures forall j :: 0 <= j < |labels| ==> |r[j]| == |rows|
  {
    seq(|labels|, j requires 0 <= j < |labels| =>
      seq(|rows|, i requires 0 <= i < |rows| => rows[i][IndexOf(columns, labels[j]).value]))
  }
}

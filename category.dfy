/** Selection of the rows of one measurement item (the boolean-mask selection of the dashboard). */
module Category {
  import opened Seqs
  import opened Table

  /** The measurement items the dashboard shows, in page order. */
  const Items: seq<string> := ["TOC", "SS", "T-N", "T-P", "pH"]

  /** `df['Measurement Item'] == item` on one row whose item cell is at position `k`. */
  predicate Matches(row: Row, k: nat, item: string) {
    k < |row| && row[k] == Text(item)
  }

  /** `df[df['Measurement Item'] == item]`: the matching rows, in their original order. */
  function SelectItem(rows: seq<Row>, k: nat, item: string): (r: seq<Row>)
    ensures |r| <= |rows|
    ensures forall x :: x in r ==> x in rows && Matches(x, k, item)
  {
    if rows == [] then []
    else if Matches(rows[0], k, item) then [rows[0]] + SelectItem(rows[1..], k, item)
    else SelectItem(rows[1..], k, item)
  }

  /** Selected rows have the width the frame's rows have. */
  lemma SelectKeepsWidth(rows: seq<Row>, k: nat, item: string, width: nat)
    requires forall i :: 0 <= i < |rows| ==> |rows[i]| == width
    ensures forall i :: 0 <= i < |SelectItem(rows, k, item)| ==> |SelectItem(rows, k, item)[i]| == width
  {
    var r := SelectItem(rows, k, item);
    forall i | 0 <= i < |r| ensures |r[i]| == width {
      assert r[i] in r;
    }
  }

  /** The selection keeps the rows in their original order. */
  lemma {:induction false} SelectIsSubseq(rows: seq<Row>, k: nat, item: string)
    ensures IsSubseq(SelectItem(rows, k, item), rows)
  {
    if rows != [] {
      SelectIsSubseq(rows[1..], k, item);
      var r := SelectItem(rows, k, item);
      if Matches(rows[0], k, item) {
        assert r[0] == rows[0] && r[1..] == SelectItem(rows[1..], k, item);
      }
    }
  }

  /** Every matching row is kept as often as it occurs; no other row is kept. */
  lemma {:induction false} SelectCounts(rows: seq<Row>, k: nat, item: string)
    ensures forall x :: multiset(SelectItem(rows, k, item))[x] ==
                        (if Matches(x, k, item) then multiset(rows)[x] else 0)
  {
    if rows != [] {
      SelectCounts(rows[1..], k, item);
      assert rows == [rows[0]] + rows[1..];
      assert multiset(rows) == multiset([rows[0]]) + multiset(rows[1..]);
    }
  }

  /** The selection is empty exactly when no row matches: an empty view, not an error. */
  lemma {:induction false} SelectEmptyIff(rows: seq<Row>, k: nat, item: string)
    ensures SelectItem(rows, k, item) == [] <==> forall i :: 0 <= i < |rows| ==> !Matches(rows[i], k, item)
  {
    if rows != [] {
      SelectEmptyIff(rows[1..], k, item);
      if SelectItem(rows, k, item) == [] {
        forall i | 0 <= i < |rows| ensures !Matches(rows[i], k, item) {
          if i > 0 { assert rows[i] == rows[1..][i - 1]; }
        }
      } else {
        if !Matches(rows[0], k, item) {
          var i :| 0 <= i < |rows[1..]| && Matches(rows[1..][i], k, item);
          assert rows[i + 1] == rows[1..][i];
        }
      }
    }
  }

  /** Selecting the same item again changes nothing. */
  lemma {:induction false} SelectIdempotent(rows: seq<Row>, k: nat, item: string)
    ensures SelectItem(SelectItem(rows, k, item), k, item) == SelectItem(rows, k, item)
  {
    if rows != [] {
      SelectIdempotent(rows[1..], k, item);
      if Matches(rows[0], k, item) {
        var r := SelectItem(rows, k, item);
        assert r[0] == rows[0] && r[1..] == SelectItem(rows[1..], k, item);
      }
    }
  }

  /** No order-preserving choice of matching rows is longer than the selection. */
  lemma {:induction false} SelectIsLongest(t: seq<Row>, rows: seq<Row>, k: nat, item: string)
    requires IsSubseq(t, rows)
    requires forall i :: 0 <= i < |t| ==> Matches(t[i], k, item)
    ensures |t| <= |SelectItem(rows, k, item)|
    decreases |rows|
  {
    if t != [] {
      if t[0] == rows[0] && IsSubseq(t[1..], rows[1..]) {
        assert Matches(t[0], k, item);
        SelectIsLongest(t[1..], rows[1..], k, item);
      } else {
        SelectIsLongest(t, rows[1..], k, item);
      }
    }
  }

  /**
   * The selection is the only order-preserving choice of matching rows that is as long
   * as it: it is the longest subsequence of the rows made of rows of the item.
   */
  lemma {:induction false} SelectIsUnique(t: seq<Row>, rows: seq<Row>, k: nat, item: string)
    requires IsSubseq(t, rows)
    requires forall i :: 0 <= i < |t| ==> Matches(t[i], k, item)
    requires |t| == |SelectItem(rows, k, item)|
    ensures t == SelectItem(rows, k, item)
    decreases |rows|
  {
    if rows == [] {
    } else if t == [] {
      assert SelectItem(rows, k, item) == [];
    } else if t[0] == rows[0] && IsSubseq(t[1..], rows[1..]) {
      assert Matches(t[0], k, item);
      SelectIsUnique(t[1..], rows[1..], k, item);
      assert t == [t[0]] + t[1..];
    } else {
      SelectIsLongest(t, rows[1..], k, item);
      if Matches(rows[0], k, item) {
        assert false;
      } else {
        SelectIsUnique(t, rows[1..], k, item);
      }
    }
  }
}

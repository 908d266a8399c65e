/** Display labels `"<sensor> X<multiplier>"` given to the scaled columns. */
module Labels {
  import opened Seqs
  import opened Table
  import opened Scaling

  predicate IsDigit(c: char) {
    '0' <= c <= '9'
  }

  /** Python's `str(n)` for a natural number: its decimal digits, most significant first. */
  function Decimal(n: nat): (r: string)
    ensures |r| >= 1
    ensures forall k :: 0 <= k < |r| ==> IsDigit(r[k])
    ensures n > 0 ==> r[0] != '0'
  {
    if n < 10 then [('0' as int + n) as char] else Decimal(n / 10) + [('0' as int + n % 10) as char]
  }

  function DigitValue(c: char): nat
    requires IsDigit(c)
  {
    c as int - '0' as int
  }

  /** The number a string of decimal digits denotes. */
  function DecimalValue(s: string): nat
    requires forall k :: 0 <= k < |s| ==> IsDigit(s[k])
  {
    if s == [] then 0 else DecimalValue(s[..|s| - 1]) * 10 + DigitValue(s[|s| - 1])
  }

  /** Reading back the digits gives the number. */
  lemma {:induction false} DecimalRoundTrip(n: nat)
    ensures DecimalValue(Decimal(n)) == n
  {
    if n >= 10 {
      DecimalRoundTrip(n / 10);
      var r := Decimal(n);
      assert r[..|r| - 1] == Decimal(n / 10);
    }
  }

  /** Different numbers are written differently. */
  lemma DecimalInjective(a: nat, b: nat)
    requires Decimal(a) == Decimal(b)
    ensures a == b
  {
    DecimalRoundTrip(a);
    DecimalRoundTrip(b);
  }

  /** `f'{sensor} X{m}'`. */
  function Label(sensor: string, m: nat): string {
    sensor + " X" + Decimal(m)
  }

  /** A label determines both its sensor and its multiplier. */
  lemma LabelInjective(s1: string, m1: nat, s2: string, m2: nat)
    requires Label(s1, m1) == Label(s2, m2)
    ensures s1 == s2 && m1 == m2
  {
    var l := Label(s1, m1);
    var d1, d2 := Decimal(m1), Decimal(m2);
    // Position |s| + 1 of a label holds the 'X'; every position after it holds a digit.
    assert l[|s1| + 1] == 'X' && l[|s2| + 1] == 'X';
    forall k | |s1| + 2 <= k < |l| ensures IsDigit(l[k]) {
      assert l[k] == d1[k - |s1| - 2];
    }
    forall k | |s2| + 2 <= k < |l| ensures IsDigit(l[k]) {
      assert l[k] == d2[k - |s2| - 2];
    }
    assert |s1| == |s2|;
    assert s1 == l[..|s1|] == s2;
    assert d1 == l[|s1| + 2..] == d2;
    DecimalInjective(m1, m2);
  }

  /** The dict given to `rename`: each sensor to its label. */
  function LabelMap(sensors: seq<string>, mult: map<string, Multiplier>): (r: map<string, string>)
    requires forall s :: s in sensors ==> s in mult
    ensures r.Keys == set s | s in sensors
  {
    map s | s in sensors :: Label(s, mult[s])
  }

  /** The column labels of the scaled table after the rename. */
  function Relabel(sensors: seq<string>, mult: map<string, Multiplier>): (r: seq<string>)
    requires forall s :: s in sensors ==> s in mult
    ensures |r| == |sensors|
    ensures forall j :: 0 <= j < |sensors| ==> r[j] == Label(sensors[j], mult[sensors[j]])
  {
    RenameColumns(sensors, LabelMap(sensors, mult))
  }

  /** Distinct sensors get distinct labels: the labels correspond one to one with the sensors. */
  lemma RelabelDistinct(sensors: seq<string>, mult: map<string, Multiplier>)
    requires forall s :: s in sensors ==> s in mult
    requires Distinct(sensors)
    ensures Distinct(Relabel(sensors, mult))
  {
    var r := Relabel(sensors, mult);
    forall i, j | 0 <= i < j < |r| ensures r[i] != r[j] {
      if r[i] == r[j] {
        LabelInjective(sensors[i], mult[sensors[i]], sensors[j], mult[sensors[j]]);
      }
    }
  }

  /** The six labels of the selector options. */
  lemma OptionTexts()
    ensures Decimal(1) == "1" && Decimal(2) == "2" && Decimal(5) == "5"
    ensures Decimal(10) == "10" && Decimal(20) == "20" && Decimal(100) == "100"
  {
  }
}

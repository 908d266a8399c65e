/** Display scale factors: the choice of one per signal, and their elementwise application. */
module Scaling {
  import opened Table

  /** The choices offered by every scale selector, the first being the default. */
  const ScaleOptions: seq<nat> := [1, 2, 5, 10, 20, 100]

  type Multiplier = m: nat | m in ScaleOptions witness 1

  /** Python's `s * n` on a string: `n` copies of `s`. */
  function Repeat(s: string, n: nat): (r: string)
    ensures |r| == |s| * n
  {
    if n == 0 then [] else s + Repeat(s, n - 1)
  }

  /** `n` copies of `s` begin with `s` and repeat with period `|s|`. */
  lemma {:induction false} RepeatCopies(s: string, n: nat)
    ensures forall i :: 0 <= i < |s| && i < |Repeat(s, n)| ==> Repeat(s, n)[i] == s[i]
    ensures forall i :: |s| <= i < |Repeat(s, n)| ==> Repeat(s, n)[i] == Repeat(s, n)[i - |s|]
  {
    if n > 1 {
      RepeatCopies(s, n - 1);
      var r, rest := Repeat(s, n), Repeat(s, n - 1);
      assert r == s + rest;
      forall i | |s| <= i < |r| ensures r[i] == r[i - |s|] {
        if i - |s| >= |s| {
          assert r[i] == rest[i - |s|] == rest[i - |s| - |s|] == r[i - |s|];
        } else {
          assert r[i] == rest[i - |s|] == s[i - |s|] == r[i - |s|];
        }
      }
    }
  }

  /** One cell times an integer, as pandas computes it: NaN stays NaN, text is repeated. */
  function ScaleCell(c: Cell, m: Multiplier): (r: Cell)
    ensures r.Null? == c.Null? && r.Num? == c.Num? && r.Text? == c.Text?
  {
    match c
    case Null => Null
    case Num(x) => Num(x * m as real)
    case Text(s) => Text(Repeat(s, m))
  }

  /** `column * m`. */
  function ScaleColumn(col: Column, m: Multiplier): (r: Column)
    ensures |r| == |col|
  {
    seq(|col|, i requires 0 <= i < |col| => ScaleCell(col[i], m))
  }

  /** Every number is multiplied, every empty cell stays empty and is never read as zero. */
  lemma ScaleColumnCells(col: Column, m: Multiplier)
    ensures forall i :: 0 <= i < |col| && col[i].Num? ==> ScaleColumn(col, m)[i] == Num(col[i].x * m as real)
    ensures forall i :: 0 <= i < |col| ==> (ScaleColumn(col, m)[i] == Null <==> col[i] == Null)
  {
  }

  /** Multiplier 1 leaves a column as it is. */
  lemma ScaleByOne(col: Column)
    ensures ScaleColumn(col, 1) == col
  {
    forall i | 0 <= i < |col| ensures ScaleColumn(col, 1)[i] == col[i] {
      if col[i].Text? {
        assert Repeat(col[i].s, 1) == col[i].s + [];
      }
    }
  }

  /** Dividing a scaled numeric cell by its multiplier. */
  function UnscaleCell(c: Cell, m: Multiplier): Cell {
    match c
    case Num(x) => Num(x / m as real)
    case _ => c
  }

  predicate Numeric(col: Column) {
    forall i :: 0 <= i < |col| ==> !col[i].Text?
  }

  /** On numbers and empty cells, dividing by the multiplier undoes the scaling exactly. */
  lemma UnscaleAfterScale(col: Column, m: Multiplier)
    requires Numeric(col)
    ensures seq(|col|, i requires 0 <= i < |col| => UnscaleCell(ScaleColumn(col, m)[i], m)) == col
  {
    forall i | 0 <= i < |col| ensures UnscaleCell(ScaleColumn(col, m)[i], m) == col[i] {
      if col[i].Num? {
        var x := col[i].x;
        assert m as real != 0.0;
        assert (x * m as real) / m as real == x;
      }
    }
  }

  /** `df_plot` after the loop: column `j` (labelled `sensors[j]`) times that sensor's multiplier. */
  function ScaledColumns(plot: seq<Column>, sensors: seq<string>, mult: map<string, Multiplier>): (r: seq<Column>)
    requires |plot| == |sensors|
    requires forall s :: s in sensors ==> s in mult
    ensures |r| == |plot|
    ensures forall j :: 0 <= j < |r| ==> |r[j]| == |plot[j]|
  {
    seq(|plot|, j requires 0 <= j < |plot| => ScaleColumn(plot[j], mult[sensors[j]]))
  }

  /**
   * The loop over the sensors that overwrites each column of `df_plot` with its scaled
   * copy. The columns of `df_plot` are the sensor labels in order and without repetition,
   * so the column the label `sensors[j]` selects is column `j`.
   */
  method ApplyScaling(plot: seq<Column>, sensors: seq<string>, mult: map<string, Multiplier>)
      returns (scaled: seq<Column>)
    requires |plot| == |sensors|
    requires forall s :: s in sensors ==> s in mult
    ensures scaled == ScaledColumns(plot, sensors, mult)
  {
    scaled := plot;
    for j := 0 to |sensors|
      invariant |scaled| == |plot|
      invariant forall k :: 0 <= k < j ==> scaled[k] == ScaleColumn(plot[k], mult[sensors[k]])
      invariant forall k :: j <= k < |plot| ==> scaled[k] == plot[k]
    {
      scaled := scaled[j := ScaleColumn(scaled[j], mult[sensors[j]])];
    }
  }

  /** Each column is scaled by its own multiplier alone: changing another sensor's choice leaves it. */
  lemma ColumnsScaleIndependently(plot: seq<Column>, sensors: seq<string>,
                                  mult: map<string, Multiplier>, other: map<string, Multiplier>, j: nat)
    requires |plot| == |sensors|
    requires forall s :: s in sensors ==> s in mult && s in other
    requires j < |plot| && mult[sensors[j]] == other[sensors[j]]
    ensures ScaledColumns(plot, sensors, mult)[j] == ScaledColumns(plot, sensors, other)[j]
  {
  }

  /** With every multiplier at 1 the scaled table is the projected table. */
  lemma AllOnesIsIdentity(plot: seq<Column>, sensors: seq<string>, mult: map<string, Multiplier>)
    requires |plot| == |sensors|
    requires forall s :: s in sensors ==> s in mult && mult[s] == 1
    ensures ScaledColumns(plot, sensors, mult) == plot
  {
    forall j | 0 <= j < |plot| ensures ScaledColumns(plot, sensors, mult)[j] == plot[j] {
      ScaleByOne(plot[j]);
    }
  }

  /** The widget key of one selector, `{item}_{sensor}_scale`. */
  function WidgetKey(item: string, sensor: string): string {
    item + "_" + sensor + "_scale"
  }

  /**
   * For items without '_' (the five of the page have none), a key names one item and one
   * sensor: no two selectors of the page share a key, so each sensor's choice is its own.
   */
  lemma WidgetKeyInjective(item1: string, sensor1: string, item2: string, sensor2: string)
    requires '_' !in item1 && '_' !in item2
    requires WidgetKey(item1, sensor1) == WidgetKey(item2, sensor2)
    ensures item1 == item2 && sensor1 == sensor2
  {
    var key := WidgetKey(item1, sensor1);
    // The first '_' of a key follows the item.
    assert key[|item1|] == '_' && key[|item2|] == '_';
    forall k | 0 <= k < |item1| ensures key[k] != '_' {
      assert key[k] == item1[k];
    }
    forall k | 0 <= k < |item2| ensures key[k] != '_' {
      assert key[k] == item2[k];
    }
    assert |item1| == |item2|;
    assert item1 == key[..|item1|] == item2;
    assert |sensor1| == |sensor2|;
    assert sensor1 == key[|item1| + 1..|item1| + 1 + |sensor1|] == sensor2;
  }

  /** What a selector returns: the stored choice, or the first option when there is none. */
  function Chosen(choices: map<string, Multiplier>, key: string): Multiplier {
    if key in choices then choices[key] else ScaleOptions[0]
  }

  /** The multipliers of one item: one per sensor, read from that sensor's selector. */
  function ScaleSelection(item: string, sensors: seq<string>, choices: map<string, Multiplier>)
      : (m: map<string, Multiplier>)
    ensures m.Keys == set s | s in sensors
  {
    map s | s in sensors :: Chosen(choices, WidgetKey(item, s))
  }

  /** Without any choice on record every multiplier is 1. */
  lemma DefaultSelection(item: string, sensors: seq<string>, choices: map<string, Multiplier>)
    requires forall s :: s in sensors ==> WidgetKey(item, s) !in choices
    ensures forall s :: s in sensors ==> ScaleSelection(item, sensors, choices)[s] == 1
  {
  }

  /** The loop that fills the `multipliers` dict from one selector per sensor. */
  method CollectMultipliers(item: string, sensors: seq<string>, choices: map<string, Multiplier>)
      returns (m: map<string, Multiplier>)
    ensures m == ScaleSelection(item, sensors, choices)
  {
    m := map[];
    for i := 0 to |sensors|
      invariant m.Keys == set s | s in sensors[..i]
      invariant forall s :: s in m ==> m[s] == Chosen(choices, WidgetKey(item, s))
    {
      assert sensors[..i + 1] == sensors[..i] + [sensors[i]];
      m := m[sensors[i] := Chosen(choices, WidgetKey(item, sensors[i]))];
    }
    assert sensors[..|sensors|] == sensors;
  }
}

/**
 * The data preparation of the dashboard: the uploaded frame is renamed and given a cleaned
 * time column in place, then each measurement item is selected, its signal columns
 * projected, scaled by the chosen multipliers and relabelled for its chart.
 */
module Dashboard {
  import opened Wrappers
  import opened Seqs
  import opened Table
  import opened Headers
  import opened TimeText
  import opened Category
  import opened SensorSet
  import opened Scaling
  import opened Labels

  const ItemColumn: string := "Measurement Item"
  const TimeColumn: string := "Time"
  const CleanTimeColumn: string := "Time_clean"
  const DateColumn: string := "Date"
  const DatetimeColumn: string := "Datetime"

  /** The KeyErrors pandas raises when a column is looked up that the frame lacks. */
  datatype Error = MissingColumn(name: string) | MissingSensorColumns(names: seq<string>)

  /** What the page shows for one item: the no-data notice, or the labelled series of its chart. */
  datatype ItemView = NoData | Chart(labels: seq<string>, series: seq<Column>)

  /** The frame after the in-place header rename. */
  function Renamed(f: Frame): (r: Frame)
    requires f.Valid()
    ensures r.Valid()
    ensures r.rows == f.rows && |r.columns| == |f.columns|
  {
    Frame(Canonicalize(f.columns), f.rows)
  }

  /** `df['Time'].astype(str)` with both markers removed, for the time column at position `t`. */
  function CleanTimes(rows: seq<Row>, t: nat, numText: real -> string): (r: Column)
    requires forall i :: 0 <= i < |rows| ==> t < |rows[i]|
    ensures |r| == |rows|
    ensures forall i :: 0 <= i < |r| ==> r[i].Text? && HourMark !in r[i].s && MinuteMark !in r[i].s
  {
    seq(|rows|, i requires 0 <= i < |rows| => Text(Clean(CellText(rows[i][t], numText))))
  }

  /** `df['Time_clean'] = ...`, or the KeyError when there is no `Time` column. */
  function WithCleanTime(f: Frame, numText: real -> string): (r: Result<Frame, Error>)
    requires f.Valid()
    ensures r.Failure? <==> TimeColumn !in f.columns
    ensures r.Success? ==> r.value.Valid() && |r.value.rows| == |f.rows|
  {
    match IndexOf(f.columns, TimeColumn)
    case None => Failure(MissingColumn(TimeColumn))
    case Some(t) => Success(WithColumn(f, CleanTimeColumn, CleanTimes(f.rows, t, numText)))
  }

  /**
   * `df['Datetime'] = pd.to_datetime(df['Date'] ...)` followed by `set_index('Datetime')`:
   * the KeyError when there is no `Date` column; otherwise the frame loses its `Datetime`
   * column again, together with any column of that name the upload had.
   */
  function DatetimeIndexed(f: Frame): (r: Result<Frame, Error>)
    requires f.Valid()
    ensures r.Failure? <==> DateColumn !in f.columns
    ensures r.Success? ==> r.value.Valid() && |r.value.rows| == |f.rows|
  {
    if DateColumn !in f.columns then Failure(MissingColumn(DateColumn))
    else
      match IndexOf(f.columns, DatetimeColumn)
      case None => Success(f)
      case Some(k) => Success(RemoveColumn(f, k))
  }

  /** Where the preparation of the uploaded frame stopped, and why. */
  datatype Ingested = Ingested(frame: Frame, error: Option<Error>)

  /**
   * Everything done to the uploaded frame before the items are drawn. The frame is changed in
   * place, so an error leaves it as the steps before the failing one made it.
   */
  function Ingest(f: Frame, numText: real -> string): (r: Ingested)
    requires f.Valid()
    ensures r.frame.Valid()
  {
    var g := Renamed(f);
    match WithCleanTime(g, numText)
    case Failure(e) => Ingested(g, Some(e))
    case Success(h) =>
      match DatetimeIndexed(h)
      case Failure(e) => Ingested(h, Some(e))
      case Success(d) => Ingested(d, None)
  }

  /**
   * Adding the cleaned time fails exactly when there is no `Time` column. Otherwise no row is
   * dropped, every other cell is kept, and each row holds its cleaned time text, free of markers.
   */
  lemma CleanTimeOutcome(f: Frame, numText: real -> string)
    requires f.Valid()
    ensures WithCleanTime(f, numText).Failure? <==> TimeColumn !in f.columns
    ensures WithCleanTime(f, numText).Failure? ==> WithCleanTime(f, numText).error == MissingColumn(TimeColumn)
    ensures WithCleanTime(f, numText).Success? ==>
      var g := WithCleanTime(f, numText).value;
      var c := IndexOf(g.columns, CleanTimeColumn).value;
      var t := IndexOf(f.columns, TimeColumn).value;
      && g.Valid() && |g.rows| == |f.rows|
      && CleanTimeColumn in g.columns
      && (forall i :: 0 <= i < |g.rows| ==> g.rows[i][c] == Text(Clean(CellText(f.rows[i][t], numText))))
      && (forall i :: 0 <= i < |g.rows| ==> HourMark !in g.rows[i][c].s && MinuteMark !in g.rows[i][c].s)
      && (forall i, j :: 0 <= i < |f.rows| && 0 <= j < |f.columns| && f.columns[j] != CleanTimeColumn ==>
            g.columns[j] == f.columns[j] && g.rows[i][j] == f.rows[i][j])
  {
  }

  /** The index step fails exactly without a `Date` column, keeps every row and drops only `Datetime`. */
  lemma DatetimeIndexOutcome(f: Frame)
    requires f.Valid()
    ensures DatetimeIndexed(f).Failure? <==> DateColumn !in f.columns
    ensures DatetimeIndexed(f).Failure? ==> DatetimeIndexed(f).error == MissingColumn(DateColumn)
    ensures DatetimeIndexed(f).Success? ==>
      var g := DatetimeIndexed(f).value;
      && g.Valid() && |g.rows| == |f.rows|
      && multiset(g.columns) == multiset(f.columns) - multiset{DatetimeColumn}
      && (DatetimeColumn !in f.columns ==> g == f)
      && (DatetimeColumn in f.columns ==>
            var k := IndexOf(f.columns, DatetimeColumn).value;
            && g.columns == f.columns[..k] + f.columns[k + 1..]
            && forall i, j :: 0 <= i < |g.rows| && 0 <= j < |g.columns| ==>
                 g.rows[i][j] == f.rows[i][if j < k then j else j + 1])
  {
    if DateColumn in f.columns && DatetimeColumn in f.columns {
      var k := IndexOf(f.columns, DatetimeColumn).value;
      assert f.columns == f.columns[..k] + [DatetimeColumn] + f.columns[k + 1..];
      assert DatetimeIndexed(f).value.columns == f.columns[..k] + f.columns[k + 1..];
    }
  }

  /** No step of the preparation drops a row, whatever the dates and times hold. */
  lemma IngestKeepsRows(f: Frame, numText: real -> string)
    requires f.Valid()
    ensures |Ingest(f, numText).frame.rows| == |f.rows|
  {
  }

  /** A `Time` column exists after the rename exactly when the upload has `Time` or `측정시간`. */
  lemma TimeColumnAfterRename(columns: seq<string>)
    ensures TimeColumn in Canonicalize(columns) <==> TimeColumn in columns || "측정시간" in columns
  {
    CanonicalizeRenames(columns);
    var r := Canonicalize(columns);
    if TimeColumn in r {
      var j :| 0 <= j < |r| && r[j] == TimeColumn;
      assert columns[j] == TimeColumn || columns[j] == "측정시간";
    }
    if TimeColumn in columns {
      var j :| 0 <= j < |columns| && columns[j] == TimeColumn;
      assert r[j] == TimeColumn;
    }
    if "측정시간" in columns {
      var j :| 0 <= j < |columns| && columns[j] == "측정시간";
      assert r[j] == TimeColumn;
    }
  }

  /** The selectors of the page have pairwise different keys. */
  lemma PageWidgetKeysDistinct(n1: nat, j1: nat, n2: nat, j2: nat)
    requires n1 < |Items| && n2 < |Items|
    requires j1 < |SensorColumns(Items[n1])| && j2 < |SensorColumns(Items[n2])|
    requires WidgetKey(Items[n1], SensorColumns(Items[n1])[j1]) == WidgetKey(Items[n2], SensorColumns(Items[n2])[j2])
    ensures n1 == n2 && j1 == j2
  {
    assert forall n :: 0 <= n < |Items| ==> '_' !in Items[n];
    WidgetKeyInjective(Items[n1], SensorColumns(Items[n1])[j1], Items[n2], SensorColumns(Items[n2])[j2]);
    assert forall n, m :: 0 <= n < m < |Items| ==> Items[n] != Items[m];
    SensorColumnsDistinct(Items[n1]);
  }

  /** The view of one item, or the error that stops the page. */
  function ItemResult(f: Frame, item: string, choices: map<string, Multiplier>): Result<ItemView, Error>
    requires f.Valid()
  {
    match IndexOf(f.columns, ItemColumn)
    case None => Failure(MissingColumn(ItemColumn))
    case Some(k) =>
      var selected := SelectItem(f.rows, k, item);
      if selected == [] then Success(NoData)
      else
        var sensors := SensorColumns(item);
        var missing := MissingLabels(sensors, f.columns);
        if missing != [] then Failure(MissingSensorColumns(missing))
        else
          SelectKeepsWidth(f.rows, k, item, |f.columns|);
          Success(ChartOf(f.columns, selected, sensors, ScaleSelection(item, sensors, choices)))
  }

  /** The chart of the selected rows: the sensor columns, scaled and relabelled. */
  function ChartOf(columns: seq<string>, selected: seq<Row>, sensors: seq<string>, mult: map<string, Multiplier>): ItemView
    requires forall i :: 0 <= i < |selected| ==> |selected[i]| == |columns|
    requires forall s :: s in sensors ==> s in columns && s in mult
  {
    Chart(Relabel(sensors, mult), ScaledColumns(Project(columns, selected, sensors), sensors, mult))
  }

  /** The body of the loop over the items, step by step. */
  method PrepareItem(f: Frame, item: string, choices: map<string, Multiplier>) returns (res: Result<ItemView, Error>)
    requires f.Valid()
    ensures res == ItemResult(f, item, choices)
  {
    var k := IndexOf(f.columns, ItemColumn);
    if k.None? {
      return Failure(MissingColumn(ItemColumn));
    }
    var selected := SelectItem(f.rows, k.value, item);
    if selected == [] {
      return Success(NoData);
    }
    var sensors := ResolveSensors(item);
    var multipliers := CollectMultipliers(item, sensors, choices);
    var missing := MissingLabels(sensors, f.columns);
    if missing != [] {
      return Failure(MissingSensorColumns(missing));
    }
    SelectKeepsWidth(f.rows, k.value, item, |f.columns|);
    var plot := Project(f.columns, selected, sensors);
    var scaled := ApplyScaling(plot, sensors, multipliers);
    res := Success(Chart(Relabel(sensors, multipliers), scaled));
  }

  /**
   * An item shows the no-data notice exactly when the item column exists and no row carries
   * the item; then no sensor column is needed.
   */
  lemma ItemNoDataIff(f: Frame, item: string, choices: map<string, Multiplier>)
    requires f.Valid()
    ensures ItemResult(f, item, choices) == Success(NoData) <==>
      ItemColumn in f.columns &&
      forall i :: 0 <= i < |f.rows| ==> !Matches(f.rows[i], IndexOf(f.columns, ItemColumn).value, item)
  {
    if ItemColumn in f.columns {
      SelectEmptyIff(f.rows, IndexOf(f.columns, ItemColumn).value, item);
    }
  }

  /**
   * A chart has one series per sensor, in the sensor order; each series is labelled with its
   * sensor and multiplier and holds that sensor's cells of the selected rows, in row order,
   * times the multiplier.
   */
  lemma ChartOfShape(columns: seq<string>, selected: seq<Row>, sensors: seq<string>, mult: map<string, Multiplier>)
    requires forall i :: 0 <= i < |selected| ==> |selected[i]| == |columns|
    requires forall s :: s in sensors ==> s in columns && s in mult
    ensures ChartOf(columns, selected, sensors, mult).Chart?
    ensures
      var c := ChartOf(columns, selected, sensors, mult);
      && |c.labels| == |c.series| == |sensors|
      && (Distinct(sensors) ==> Distinct(c.labels))
      && forall j :: 0 <= j < |sensors| ==>
           && c.labels[j] == Label(sensors[j], mult[sensors[j]])
           && |c.series[j]| == |selected|
           && forall i :: 0 <= i < |selected| ==>
                c.series[j][i] == ScaleCell(selected[i][IndexOf(columns, sensors[j]).value], mult[sensors[j]])
  {
    if Distinct(sensors) {
      RelabelDistinct(sensors, mult);
    }
  }

  /**
   * The chart of an item has one series per sensor of the item, labelled with the sensor and
   * the multiplier chosen for it, with distinct labels, each holding the sensor's cells of the
   * item's rows, in row order, times that multiplier.
   */
  lemma ItemChart(f: Frame, item: string, choices: map<string, Multiplier>, labels: seq<string>, series: seq<Column>)
    requires f.Valid()
    requires ItemResult(f, item, choices) == Success(Chart(labels, series))
    ensures ItemColumn in f.columns
    ensures
      var rows := SelectItem(f.rows, IndexOf(f.columns, ItemColumn).value, item);
      var sensors := SensorColumns(item);
      && rows != []
      && (forall i :: 0 <= i < |rows| ==> |rows[i]| == |f.columns|)
      && |labels| == |series| == |sensors|
      && Distinct(labels)
      && forall j :: 0 <= j < |sensors| ==>
           var m := Chosen(choices, WidgetKey(item, sensors[j]));
           && sensors[j] in f.columns
           && labels[j] == Label(sensors[j], m)
           && |series[j]| == |rows|
           && forall i :: 0 <= i < |rows| ==>
                series[j][i] == ScaleCell(rows[i][IndexOf(f.columns, sensors[j]).value], m)
  {
    var k := IndexOf(f.columns, ItemColumn).value;
    var rows := SelectItem(f.rows, k, item);
    var sensors := SensorColumns(item);
    var mult := ScaleSelection(item, sensors, choices);
    SelectKeepsWidth(f.rows, k, item, |f.columns|);
    assert MissingLabels(sensors, f.columns) == [];
    assert Chart(labels, series) == ChartOf(f.columns, rows, sensors, mult);
    SensorColumnsDistinct(item);
    ChartOfShape(f.columns, rows, sensors, mult);
    assert forall j :: 0 <= j < |sensors| ==> mult[sensors[j]] == Chosen(choices, WidgetKey(item, sensors[j]));
  }

  /**
   * The sensor-column error names, in order, exactly the sensors of the item the frame lacks,
   * and arises only for an item that has rows.
   */
  lemma ItemMissingSensors(f: Frame, item: string, choices: map<string, Multiplier>, names: seq<string>)
    requires f.Valid()
    requires ItemResult(f, item, choices) == Failure(MissingSensorColumns(names))
    ensures ItemColumn in f.columns
    ensures SelectItem(f.rows, IndexOf(f.columns, ItemColumn).value, item) != []
    ensures names != [] && IsSubseq(names, SensorColumns(item))
    ensures forall s :: s in names <==> s in SensorColumns(item) && s !in f.columns
  {
  }

  /**
   * The outcome of the loop over `items`: the views of the items drawn, in page order, and
   * the error of the first item that raised one, which ends the loop.
   */
  predicate RenderedAll(f: Frame, items: seq<string>, choices: map<string, Multiplier>,
                        views: seq<ItemView>, err: Option<Error>)
    requires f.Valid()
  {
    && ShownInOrder(f, items, choices, views)
    && (err.None? ==> |views| == |items|)
    && (err.Some? ==> |views| < |items| && ItemResult(f, items[|views|], choices) == Failure(err.value))
  }

  /** The views drawn for the first items, in page order. */
  predicate ShownInOrder(f: Frame, items: seq<string>, choices: map<string, Multiplier>, views: seq<ItemView>)
    requires f.Valid()
  {
    |views| <= |items| && forall k :: 0 <= k < |views| ==> ItemResult(f, items[k], choices) == Success(views[k])
  }

  lemma ShownInOrderStep(f: Frame, items: seq<string>, choices: map<string, Multiplier>, views: seq<ItemView>, v: ItemView)
    requires f.Valid()
    requires ShownInOrder(f, items, choices, views) && |views| < |items|
    requires ItemResult(f, items[|views|], choices) == Success(v)
    ensures ShownInOrder(f, items, choices, views + [v])
  {
    var w := views + [v];
    forall k | 0 <= k < |w| ensures ItemResult(f, items[k], choices) == Success(w[k]) {
      if k < |views| {
        assert w[k] == views[k];
      }
    }
  }

  /** The loop over the items of the page (`Items`). */
  method RenderItems(f: Frame, items: seq<string>, choices: map<string, Multiplier>)
      returns (views: seq<ItemView>, err: Option<Error>)
    requires f.Valid()
    ensures RenderedAll(f, items, choices, views, err)
  {
    views := [];
    for n := 0 to |items|
      invariant |views| == n
      invariant ShownInOrder(f, items, choices, views)
    {
      var res := PrepareItem(f, items[n], choices);
      if res.Failure? {
        return views, Some(res.error);
      }
      ShownInOrderStep(f, items, choices, views, res.value);
      views := views + [res.value];
    }
    err := None;
  }

  /** The frame of the uploaded sheet, changed in place by the rename and the new time column. */
  class DataFrame {
    var columns: seq<string>
    var rows: seq<Row>

    function Value(): Frame
      reads this
    {
      Frame(columns, rows)
    }

    constructor (columns: seq<string>, rows: seq<Row>)
      requires Frame(columns, rows).Valid()
      ensures Value() == Frame(columns, rows)
    {
      this.columns := columns;
      this.rows := rows;
    }

    /** `df.rename(columns = {...}, inplace = True)`. */
    method RenameHeaders()
      requires Value().Valid()
      modifies this
      ensures Value() == Renamed(old(Value()))
    {
      columns := Canonicalize(columns);
    }

    /** `df['Time_clean'] = ...`; the KeyError leaves the frame as it was. */
    method AddCleanTime(numText: real -> string) returns (err: Option<Error>)
      requires Value().Valid()
      modifies this
      ensures WithCleanTime(old(Value()), numText).Failure? ==>
        err == Some(WithCleanTime(old(Value()), numText).error) && Value() == old(Value())
      ensures WithCleanTime(old(Value()), numText).Success? ==>
        err == None && Value() == WithCleanTime(old(Value()), numText).value
    {
      var t := IndexOf(columns, TimeColumn);
      if t.None? {
        return Some(MissingColumn(TimeColumn));
      }
      var g := WithColumn(Value(), CleanTimeColumn, CleanTimes(rows, t.value, numText));
      columns, rows := g.columns, g.rows;
      err := None;
    }

    /** `df['Datetime'] = ...` and `df.set_index('Datetime', inplace = True)`, without the dates themselves. */
    method SetDatetimeIndex() returns (err: Option<Error>)
      requires Value().Valid()
      modifies this
      ensures DatetimeIndexed(old(Value())).Failure? ==>
        err == Some(DatetimeIndexed(old(Value())).error) && Value() == old(Value())
      ensures DatetimeIndexed(old(Value())).Success? ==>
        err == None && Value() == DatetimeIndexed(old(Value())).value
    {
      if DateColumn !in columns {
        return Some(MissingColumn(DateColumn));
      }
      var k := IndexOf(columns, DatetimeColumn);
      if k.Some? {
        var g := RemoveColumn(Value(), k.value);
        columns, rows := g.columns, g.rows;
      }
      err := None;
    }
  }

  /**
   * One pass of the page for an uploaded frame: rename, clean the time, index by date and time,
   * then the items. An error while preparing the frame stops the page before any item.
   */
  method Run(df: DataFrame, choices: map<string, Multiplier>, numText: real -> string)
      returns (views: seq<ItemView>, err: Option<Error>)
    requires df.Value().Valid()
    modifies df
    ensures df.Value() == Ingest(old(df.Value()), numText).frame
    ensures Ingest(old(df.Value()), numText).error.Some? ==>
      views == [] && err == Ingest(old(df.Value()), numText).error
    ensures Ingest(old(df.Value()), numText).error.None? ==>
      RenderedAll(df.Value(), Items, choices, views, err)
  {
    df.RenameHeaders();
    var e := df.AddCleanTime(numText);
    if e.Some? {
      return [], e;
    }
    e := df.SetDatetimeIndex();
    if e.Some? {
      return [], e;
    }
    views, err := RenderItems(df.Value(), Items, choices);
  }
}

/** The ordered list of signal columns charted for each measurement item. */
module SensorSet {
  import opened Seqs

  const MeasuredValue: string := "Measured Value"

  /**
   * Two shared base signals, the sample-flow channel for TOC only, a secondary monitor
   * channel (MTM1 for pH, MTM2 for every other item) and the measured value.
   */
  function SensorColumns(item: string): seq<string> {
    ["MSIG", "MSAM"] + (if item == "TOC" then ["MFC"] else [])
      + [if item == "pH" then "MTM1" else "MTM2"] + [MeasuredValue]
  }

  /**
   * Every list starts with MSIG, MSAM and ends with the measured value; MFC is in it exactly
   * for TOC, right after MSAM; MTM1 exactly for pH and MTM2 exactly for the other items; so it
   * has five columns for TOC, four otherwise, none twice.
   */
  lemma SensorColumnsShape(item: string)
    ensures var r := SensorColumns(item);
      && |r| == (if item == "TOC" then 5 else 4)
      && r[0] == "MSIG" && r[1] == "MSAM" && r[|r| - 1] == MeasuredValue
      && ("MFC" in r <==> item == "TOC")
      && (item == "TOC" ==> r[2] == "MFC")
      && ("MTM1" in r <==> item == "pH")
      && ("MTM2" in r <==> item != "pH")
      && Distinct(r)
  {
    SensorColumnsDistinct(item);
  }

  lemma SensorColumnsDistinct(item: string)
    ensures Distinct(SensorColumns(item))
  {
  }

  /** The list as the dashboard builds it, by successive appends. */
  method ResolveSensors(item: string) returns (sensors: seq<string>)
    ensures sensors == SensorColumns(item)
  {
    sensors := ["MSIG", "MSAM"];
    if item == "TOC" {
      sensors := sensors + ["MFC"];
    }
    if item == "pH" {
      sensors := sensors + ["MTM1"];
    } else {
      sensors := sensors + ["MTM2"];
    }
    sensors := sensors + [MeasuredValue];
  }
}

/** Canonical English names for the localized column headers of the uploaded sheet. */
module Headers {
  import opened Table

  /** The nine localized headers and the names the rest of the dashboard uses. */
  const HeaderMap: map<string, string> := map[
    "방류구" := "Discharge Gate",
    "측정항목" := "Measurement Item",
    "단위" := "Unit",
    "측정일자" := "Date",
    "측정시간" := "Time",
    "기준치" := "Standard Value",
    "측정치" := "Measured Value",
    "상태정보" := "Status",
    "DUMP여부" := "Dump Flag"
  ]

  /** The header row after the rename. */
  function Canonicalize(columns: seq<string>): (r: seq<string>)
    ensures |r| == |columns|
    ensures forall j :: 0 <= j < |r| ==> r[j] !in HeaderMap
  {
    NamesAreNotHeaders();
    RenameColumns(columns, HeaderMap)
  }

  /** No localized header is given a name that is itself a localized header. */
  lemma NamesAreNotHeaders()
    ensures forall k :: k in HeaderMap ==> HeaderMap[k] !in HeaderMap
  {
  }

  /** Every localized header is renamed to its English name; every other header is kept. */
  lemma CanonicalizeRenames(columns: seq<string>)
    ensures |Canonicalize(columns)| == |columns|
    ensures forall j :: 0 <= j < |columns| && columns[j] in HeaderMap ==>
      Canonicalize(columns)[j] == HeaderMap[columns[j]]
    ensures forall j :: 0 <= j < |columns| && columns[j] !in HeaderMap ==>
      Canonicalize(columns)[j] == columns[j]
    ensures forall j :: 0 <= j < |columns| ==> Canonicalize(columns)[j] !in HeaderMap
  {
    NamesAreNotHeaders();
  }

  /** Renaming an already renamed header row changes nothing. */
  lemma CanonicalizeIdempotent(columns: seq<string>)
    ensures Canonicalize(Canonicalize(columns)) == Canonicalize(columns)
  {
    NamesAreNotHeaders();
    RenameIdempotent(columns, HeaderMap);
  }

  /** The rename is a no-op exactly on header rows holding no localized header. */
  lemma CanonicalizeNoopIff(columns: seq<string>)
    ensures Canonicalize(columns) == columns <==> forall j :: 0 <= j < |columns| ==> columns[j] !in HeaderMap
  {
    NamesAreNotHeaders();
    RenameIdentityIff(columns, HeaderMap);
  }

  /** A typical header row of the export. */
  lemma CanonicalizeExample()
    ensures Canonicalize(["방류구", "측정항목", "측정시간", "MSIG"])
         == ["Discharge Gate", "Measurement Item", "Time", "MSIG"]
  {
  }
}

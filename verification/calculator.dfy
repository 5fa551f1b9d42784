/** `create_json_data_from_csv` of the carbon-emissions calculator script: one
    request record per CSV row, with country and device fixed, all wrapped in
    a single `{"rows": ...}` payload. */
module Calculator {
  import opened PyValues

  /** The columns of one CSV row that the script reads: `sitename`,
      `devicetype`, `impressions`, `deliverydatekey`, `creativename`,
      `duration`, `creativewidth` and `creativeheight`. */
  datatype CsvRow = CsvRow(
    sitename: Cell,
    devicetype: Cell,
    impressions: Cell,
    deliverydatekey: Cell,
    creativename: Cell,
    duration: Cell,
    creativewidth: Cell,
    creativeheight: Cell)

  /** A Python dict that is filled in place after it has been appended to
      the list of rows. */
  class RowDict {
    var entries: map<string, Json>

    constructor ()
      ensures entries == map[]
    {
      entries := map[];
    }

    /** `d[key] = value`. */
    method Set(key: string, value: Json)
      modifies this
      ensures entries == old(entries)[key := value]
    {
      entries := entries[key := value];
    }

    /** `d[outer][inner] = value`, where `d[outer]` is a dict held only here. */
    method SetIn(outer: string, inner: string, value: Json)
      requires outer in entries && entries[outer].JObject?
      modifies this
      ensures entries == old(entries)[outer := JObject(old(entries)[outer].fields[inner := value])]
    {
      entries := entries[outer := JObject(entries[outer].fields[inner := value])];
    }
  }

  /** The record the script sends for one row. */
  function RowRecord(row: CsvRow): (r: map<string, Json>)
    ensures r.Keys == {"site", "country", "device", "impressions", "date", "creative"}
    ensures r["country"] == JStr("AU") && r["device"] == JStr("mobile")
    ensures r["creative"].JObject? && r["creative"].fields.Keys == {"width", "height", "format", "durationSeconds"}
  {
    map[
      "site" := JObject(map["domain" := JCell(row.sitename)]),
      "country" := JStr("AU"),
      "device" := JStr("mobile"),
      "impressions" := JCell(row.impressions),
      "date" := JCell(row.deliverydatekey),
      "creative" := JObject(map[
        "width" := JCell(row.creativewidth),
        "height" := JCell(row.creativeheight),
        "format" := JCell(row.creativename),
        "durationSeconds" := JCell(row.duration)])]
  }

  /** The records of a whole CSV file, in row order. */
  function RowRecords(csv: seq<CsvRow>): (rs: seq<Json>)
    ensures |rs| == |csv|
    ensures forall k :: 0 <= k < |csv| ==> rs[k] == JObject(RowRecord(csv[k]))
  {
    seq(|csv|, k requires 0 <= k < |csv| => JObject(RowRecord(csv[k])))
  }

  /** The payload `{"rows": [...]}` for a whole CSV file. */
  function Payload(csv: seq<CsvRow>): (r: Json)
    ensures r.JObject? && r.fields.Keys == {"rows"}
    ensures r.fields["rows"].JArray? && |r.fields["rows"].items| == |csv|
  {
    JObject(map["rows" := JArray(RowRecords(csv))])
  }

  /** The payload holds one record per row, in row order; every record has
      country `AU` and device `mobile`; domain, impressions, date and the four
      creative fields are the row's cells unchanged. */
  lemma PayloadRecords(csv: seq<CsvRow>)
    ensures Payload(csv).fields.Keys == {"rows"}
    ensures |Payload(csv).fields["rows"].items| == |csv|
    ensures forall k :: 0 <= k < |csv| ==>
      var r := Payload(csv).fields["rows"].items[k].fields;
      && r.Keys == {"site", "country", "device", "impressions", "date", "creative"}
      && r["country"] == JStr("AU")
      && r["device"] == JStr("mobile")
      && r["site"] == JObject(map["domain" := JCell(csv[k].sitename)])
      && r["impressions"] == JCell(csv[k].impressions)
      && r["date"] == JCell(csv[k].deliverydatekey)
      && r["creative"].fields.Keys == {"width", "height", "format", "durationSeconds"}
      && r["creative"].fields["width"] == JCell(csv[k].creativewidth)
      && r["creative"].fields["height"] == JCell(csv[k].creativeheight)
      && r["creative"].fields["format"] == JCell(csv[k].creativename)
      && r["creative"].fields["durationSeconds"] == JCell(csv[k].duration)
  {
  }

  /** The `devicetype` column does not reach the payload: rows that differ
      only in device type give the same payload. */
  lemma PayloadIgnoresDeviceType(csv: seq<CsvRow>, other: seq<CsvRow>)
    requires |csv| == |other|
    requires forall k :: 0 <= k < |csv| ==> csv[k].(devicetype := other[k].devicetype) == other[k]
    ensures Payload(csv) == Payload(other)
  {
    assert forall k :: 0 <= k < |csv| ==> RowRecord(csv[k]) == RowRecord(other[k]);
    assert RowRecords(csv) == RowRecords(other);
  }

  /** The assignments after the append: the rest of the record's fields, set
      on the dict the list already holds. */
  method FillRowDict(rowDict: RowDict, row: CsvRow)
    requires rowDict.entries == map["site" := JObject(map["domain" := JCell(row.sitename)])]
    modifies rowDict
    ensures rowDict.entries == RowRecord(row)
  {
    rowDict.Set("country", JStr("AU"));
    rowDict.Set("device", JStr("mobile"));
    rowDict.Set("impressions", JCell(row.impressions));
    rowDict.Set("date", JCell(row.deliverydatekey));
    rowDict.Set("creative", JObject(map[]));
    rowDict.SetIn("creative", "width", JCell(row.creativewidth));
    rowDict.SetIn("creative", "height", JCell(row.creativeheight));
    rowDict.SetIn("creative", "format", JCell(row.creativename));
    rowDict.SetIn("creative", "durationSeconds", JCell(row.duration));
  }

  /** `create_json_data_from_csv` on the rows `pd.read_csv` returned. Each
      `row_dict` is appended to `rows_to_compute` right after its `site` entry
      is set and is filled in afterwards through the same reference; the
      payload is what the list holds once the loop is done. */
  method CreateJsonDataFromCsv(csv: seq<CsvRow>) returns (reportJson: Json)
    ensures reportJson == Payload(csv)
  {
    var rowsToCompute: seq<RowDict> := [];
    for i := 0 to |csv|
      invariant |rowsToCompute| == i
      invariant forall k :: 0 <= k < i ==> fresh(rowsToCompute[k])
      invariant forall k :: 0 <= k < i ==> rowsToCompute[k].entries == RowRecord(csv[k])
    {
      var rowDict := new RowDict();
      rowDict.Set("site", JObject(map[]));
      rowDict.SetIn("site", "domain", JCell(csv[i].sitename));
      rowsToCompute := rowsToCompute + [rowDict];
      FillRowDict(rowDict, csv[i]);
    }
    var rows := seq(|rowsToCompute|, k requires 0 <= k < |rowsToCompute| reads rowsToCompute =>
      JObject(rowsToCompute[k].entries));
    assert rows == RowRecords(csv);
    reportJson := JObject(map["rows" := JArray(rows)]);
  }
}

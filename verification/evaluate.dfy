/** `evaluate_emissions` of the Scope3 sample script up to the merge: the loop
    that turns each prepared row into a request record, then the batch loop. */
module Evaluate {
  import opened PyValues
  import opened Prepare
  import opened Batching

  /** A request record: the `row_dict` of one row, as the JSON object sent. */
  type Record = map<string, Json>

  /** The `creative` object of a row (`row_dict["creative"]`). Its two extra
      branches compare the DEVICE type with `'video'` and `'banner'`: the
      first calls the undefined name `isNan` (a `NameError`, raised before its
      argument is looked up), the second converts width and height with
      `int()`, width first. */
  function Creative(p: PreparedRow): (r: Result<Record, PyError>)
    ensures p.deviceType == "video" ==> r == Err(NameError)
    ensures p.deviceType != "video" && p.deviceType != "banner" ==>
      r == Ok(map["format" := JStr(p.creativeFormat)])
    ensures r.Ok? ==> "format" in r.value && r.value["format"] == JStr(p.creativeFormat)
    ensures r.Ok? && "width" in r.value ==> p.deviceType == "banner" && PyInt(p.width).Ok?
  {
    var format := map["format" := JStr(p.creativeFormat)];
    if p.deviceType == "video" then Err(NameError)
    else if p.deviceType == "banner" && !IsNaN(p.width) && !IsNaN(p.height) then
      match PyInt(p.width)
      case Err(e) => Err(e)
      case Ok(w) =>
        match PyInt(p.height)
        case Err(e) => Err(e)
        case Ok(h) => Ok(format["width" := JCell(Int(w))]["height" := JCell(Int(h))])
    else Ok(format)
  }

  /** Where the ad ran: `app.storeId` when the domain is NaN, otherwise
      `site.domain`, each the `str()` of its cell. */
  function Location(row: InputRow): (r: Record)
    ensures r.Keys == if row.domain == NaN then {"app"} else {"site"}
    ensures row.domain == NaN ==> r["app"].JObject? && r["app"].fields.Keys == {"storeId"} && r["app"].fields["storeId"] == JStr(PyStr(row.app))
    ensures row.domain != NaN ==> r["site"].JObject? && r["site"].fields.Keys == {"domain"} && r["site"].fields["domain"] == JStr(PyStr(row.domain))
  {
    if IsNaN(row.domain) then map["app" := JObject(map["storeId" := JStr(PyStr(row.app))])]
    else map["site" := JObject(map["domain" := JStr(PyStr(row.domain))])]
  }

  /** The keys every record has besides its location and `creative`. */
  const CommonKeys: set<string> := {"identifier", "country", "device", "impressions", "date", "creative"}

  /** The `row_dict` built for one prepared row, or the exception building it
      raises. */
  function BuildRecord(p: PreparedRow): (r: Result<Record, PyError>)
    ensures r.Ok? <==> Creative(p).Ok?
    ensures r.Ok? ==> r.value.Keys == CommonKeys + (if p.input.domain == NaN then {"app"} else {"site"})
    ensures r.Ok? ==> r.value["identifier"] == JStr(NatToDecimal(p.identifier))
    ensures r.Ok? && p.input.domain == NaN ==>
      r.value["app"] == JObject(map["storeId" := JStr(PyStr(p.input.app))])
    ensures r.Ok? && p.input.domain != NaN ==>
      r.value["site"] == JObject(map["domain" := JStr(PyStr(p.input.domain))])
    ensures r.Ok? ==>
      && r.value["country"] == JCell(p.input.country)
      && r.value["device"] == JStr(p.deviceType)
      && r.value["impressions"] == JCell(p.input.impressions)
      && r.value["date"] == JStr(PyStr(p.formattedDate))
      && r.value["creative"] == JObject(Creative(p).value)
  {
    match Creative(p)
    case Err(e) => Err(e)
    case Ok(creative) =>
      Ok(Location(p.input) + map[
        "identifier" := JStr(PyStr(Int(p.identifier))),
        "country" := JCell(p.input.country),
        "device" := JStr(p.deviceType),
        "impressions" := JCell(p.input.impressions),
        "date" := JStr(PyStr(p.formattedDate)),
        "creative" := JObject(creative)])
  }

  /** A row whose device type the classifier produced never reaches the
      creative branches: its record is built, and its `creative` holds
      `format` and nothing else. */
  lemma ClassifiedRowCreative(p: PreparedRow)
    requires p.deviceType in DeviceTypes
    ensures BuildRecord(p).Ok?
    ensures BuildRecord(p).value["creative"] == JObject(map["format" := JStr(p.creativeFormat)])
  {
  }

  /** The branches are live code only for device types the classifier never
      yields: `video` raises, and `banner` with a numeric size sends width and
      height. */
  lemma CreativeBranchesNeedForeignDeviceTypes(p: PreparedRow)
    ensures p.deviceType == "video" ==> BuildRecord(p) == Err(NameError)
    ensures p.deviceType == "banner" && p.width == Str("300") && p.height == Str("250") ==>
      BuildRecord(p).Ok? && Creative(p).value["width"] == JCell(Int(300))
  {
    if p.deviceType == "banner" && p.width == Str("300") && p.height == Str("250") {
      assert AllDigits("300") && AllDigits("250");
      assert DigitsValue("300") == 300 by {
        assert "300"[..2] == "30" && "30"[..1] == "3";
      }
    }
  }

  /** The evidently intended `creative`: the branches test the creative
      FORMAT, read the configured duration column and call `isNaN`. */
  function IntendedCreative(p: PreparedRow): (r: Result<Record, PyError>)
    ensures r.Ok? ==> "format" in r.value && r.value["format"] == JStr(p.creativeFormat)
  {
    var format := map["format" := JStr(p.creativeFormat)];
    if p.creativeFormat == "video" && !IsNaN(p.input.creativeDuration) then
      match PyInt(p.input.creativeDuration)
      case Err(e) => Err(e)
      case Ok(d) => Ok(format["duration" := JCell(Int(d))])
    else if p.creativeFormat == "banner" && !IsNaN(p.width) && !IsNaN(p.height) then
      match PyInt(p.width)
      case Err(e) => Err(e)
      case Ok(w) =>
        match PyInt(p.height)
        case Err(e) => Err(e)
        case Ok(h) => Ok(format["width" := JCell(Int(w))]["height" := JCell(Int(h))])
    else Ok(format)
  }

  /** With the intended branches a banner whose size reads `WxH` sends its
      width and height, and a video sends its duration. */
  lemma IntendedCreativeCarriesSize(p: PreparedRow, w: nat, h: nat, d: nat)
    ensures p.creativeFormat == "banner" && p.width == Str(NatToDecimal(w)) && p.height == Str(NatToDecimal(h)) ==>
      IntendedCreative(p) == Ok(map["format" := JStr("banner"), "width" := JCell(Int(w)), "height" := JCell(Int(h))])
    ensures p.creativeFormat == "video" && p.input.creativeDuration == Str(NatToDecimal(d)) ==>
      IntendedCreative(p) == Ok(map["format" := JStr("video"), "duration" := JCell(Int(d))])
  {
    IntStrRoundTrip(w);
    IntStrRoundTrip(h);
    IntStrRoundTrip(d);
  }

  /** The first loop of `evaluate_emissions`: one `row_dict` per prepared row,
      appended in row order; an exception stops it. */
  method BuildRequestRecords(prepared: seq<PreparedRow>) returns (out: Result<seq<Record>, PyError>)
    ensures out.Ok? <==> forall k :: 0 <= k < |prepared| ==> BuildRecord(prepared[k]).Ok?
    ensures out.Ok? ==>
      && |out.value| == |prepared|
      && forall k :: 0 <= k < |prepared| ==> out.value[k] == BuildRecord(prepared[k]).value
    ensures out.Err? ==>
      exists k :: 0 <= k < |prepared| && BuildRecord(prepared[k]) == Err(out.error) &&
        forall j :: 0 <= j < k ==> BuildRecord(prepared[j]).Ok?
  {
    var rowsToCompute: seq<Record> := [];
    for i := 0 to |prepared|
      invariant |rowsToCompute| == i
      invariant forall k :: 0 <= k < i ==> BuildRecord(prepared[k]).Ok? && rowsToCompute[k] == BuildRecord(prepared[k]).value
    {
      var rowDict := BuildRecord(prepared[i]);
      if rowDict.Err? {
        return Err(rowDict.error);
      }
      rowsToCompute := rowsToCompute + [rowDict.value];
    }
    return Ok(rowsToCompute);
  }

  /** What `evaluate_emissions` has once its batch loop ends: the batches it
      posted, the concatenated result rows and the two counters. */
  datatype Submission = Submission(
    records: seq<Record>,
    sent: seq<seq<Record>>,
    results: seq<Json>,
    impressionsModeled: int,
    impressionsSkipped: int)

  /** Records of rows prepared by `prepare_input_file` are all built, and each
      carries its row's identifier in decimal. */
  lemma PreparedRowsBuild(rows: seq<InputRow>, cfg: AliasConfig, formatDate: Cell -> Option<Cell>)
    requires PrepareInputFile(rows, cfg, formatDate).Ok?
    ensures var prepared := PrepareInputFile(rows, cfg, formatDate).value;
      forall k :: 0 <= k < |prepared| ==>
        BuildRecord(prepared[k]).Ok? && BuildRecord(prepared[k]).value["identifier"] == JStr(NatToDecimal(k))
  {
  }

  /** `evaluate_emissions` on a prepared frame, up to the merge of the
      results: `server(i, batch)` is the API's answer to call `i`. With
      max_json_rows = `b`, every prepared row gets a record, call `i` sends
      the slice `[i*b : (i+1)*b - 1]` of the records, together the calls send
      exactly the records at indices `k` with `k % b != b - 1`, and the
      counters are the sums over the responses. */
  method EvaluateEmissions(prepared: seq<PreparedRow>, b: nat, server: (nat, seq<Record>) -> ApiResponse)
    returns (out: Result<Submission, PyError>)
    requires 0 < b
    ensures (forall k :: 0 <= k < |prepared| ==> prepared[k].deviceType in DeviceTypes) ==> out.Ok?
    ensures out.Err? ==>
      exists k :: 0 <= k < |prepared| && BuildRecord(prepared[k]) == Err(out.error) &&
        forall j :: 0 <= j < k ==> BuildRecord(prepared[j]).Ok?
    ensures out.Ok? ==>
      && |out.value.records| == |prepared|
      && forall k :: 0 <= k < |prepared| ==> Some(out.value.records[k]) == OkValue(BuildRecord(prepared[k]))
    ensures out.Ok? ==> |out.value.sent| == |prepared| / b + 1
    ensures out.Ok? ==> forall i :: 0 <= i < |out.value.sent| ==> out.value.sent[i] == Batch(out.value.records, b, i)
    ensures out.Ok? ==> Flatten(out.value.sent) == Pick(out.value.records, KeptIndices(|prepared|, b))
    ensures out.Ok? ==> |Flatten(out.value.sent)| == |prepared| - |prepared| / b
    ensures out.Ok? ==>
      var responses := Responses(out.value.records, b, server, |out.value.sent|);
      out.value.impressionsModeled == ModeledTotal(responses) &&
      out.value.impressionsSkipped == SkippedTotal(responses) &&
      out.value.results == ResultRows(responses)
  {
    forall k | 0 <= k < |prepared| && prepared[k].deviceType in DeviceTypes
      ensures BuildRecord(prepared[k]).Ok?
    {
      ClassifiedRowCreative(prepared[k]);
    }
    var built := BuildRequestRecords(prepared);
    if built.Err? {
      return Err(built.error);
    }
    var records := built.value;
    var sent, results, modeled, skipped := SubmitBatches(records, b, server);
    FlattenSent(records, b, sent);
    AllSentExactly(records, b);
    out := Ok(Submission(records, sent, results, modeled, skipped));
  }

  function OkValue<T, E>(r: Result<T, E>): Option<T> {
    if r.Ok? then Some(r.value) else None
  }

  /** The concatenation of a list of batches. */
  function Flatten<T>(batches: seq<seq<T>>): seq<T> {
    if batches == [] then [] else Flatten(batches[..|batches| - 1]) + batches[|batches| - 1]
  }

  lemma {:induction false} FlattenSent<T>(records: seq<T>, b: nat, sent: seq<seq<T>>)
    requires 0 < b
    requires forall i :: 0 <= i < |sent| ==> sent[i] == Batch(records, b, i)
    ensures Flatten(sent) == SentBy(records, b, |sent|)
  {
    if sent != [] {
      FlattenSent(records, b, sent[..|sent| - 1]);
    }
  }

  /** No identifier is sent twice: when record `k` carries the decimal form
      of `k` as its identifier (as records of prepared rows do), the records
      the calls send carry pairwise different identifiers. */
  lemma SentIdentifiersDistinct(records: seq<Record>, b: nat)
    requires 0 < b
    requires forall k :: 0 <= k < |records| ==>
      "identifier" in records[k] && records[k]["identifier"] == JStr(NatToDecimal(k))
    ensures var sent := AllSent(records, b);
      forall i, j :: 0 <= i < j < |sent| ==>
        "identifier" in sent[i] && "identifier" in sent[j] && sent[i]["identifier"] != sent[j]["identifier"]
  {
    AllSentExactly(records, b);
    var idx := KeptIndices(|records|, b);
    var sent := AllSent(records, b);
    forall i, j | 0 <= i < j < |sent|
      ensures "identifier" in sent[i] && "identifier" in sent[j] && sent[i]["identifier"] != sent[j]["identifier"]
    {
      assert sent[i] == records[idx[i]] && sent[j] == records[idx[j]];
      DecimalInjective(idx[i], idx[j]);
    }
  }
}

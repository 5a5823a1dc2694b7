/** `fetch_gold_history`: NBP gold prices from 2013-01-01 to 2025-05-26, filtered to the
    entries that carry both a date and a price, staged and loaded into `gold_history_raw`. */
module GoldHistory {
  import opened Text
  import opened Json
  import opened Staging

  const Url := "https://api.nbp.pl/api/cenyzlota/2013-01-01/2025-05-26?format=json"
  const TableId := "nbpcurrencyratesbdfinalproject.nbp_data_raw.gold_history_raw"
  const FilePrefix := "gold_history_"

  /** The keys of every record, in the order `json.dumps` writes them. */
  const RecordKeys: seq<string> := ["effective_date", "price"]

  const LoadConfig := LoadJobConfig(
    "NEWLINE_DELIMITED_JSON",
    [Column("effective_date", "DATE"), Column("price", "NUMERIC")],
    "WRITE_TRUNCATE",
    "effective_date",
    [])

  // ---------------------------------------------------------------------------
  // The comprehension, as specification functions

  /** The filter `"data" in d and "cena" in d`, left to right; `and` skips the second
      test when the first one fails. */
  function HasDateAndPrice(d: Json): Result<bool>
  {
    match Contains(d, "data")
    case Raised(e) => Raised(e)
    case Ok(hasDate) => if hasDate then Contains(d, "cena") else Ok(false)
  }

  /** The record `{"effective_date": d["data"], "price": d["cena"]}`. */
  function PriceRecord(d: Json): Result<Fields>
  {
    match Subscript(d, "data")
    case Raised(e) => Raised(e)
    case Ok(date) =>
      match Subscript(d, "cena")
      case Raised(e) => Raised(e)
      case Ok(price) => Ok([("effective_date", date), ("price", price)])
  }

  /** The list comprehension over `items`: one record per element that passes the
      filter, in order, or the first exception raised. */
  function KeptRecords(items: seq<Json>): Result<seq<Fields>>
  {
    if |items| == 0 then Ok([])
    else
      match KeptRecords(items[..|items| - 1])
      case Raised(e) => Raised(e)
      case Ok(done) =>
        var d := items[|items| - 1];
        match HasDateAndPrice(d)
        case Raised(e) => Raised(e)
        case Ok(keep) =>
          if !keep then Ok(done)
          else
            match PriceRecord(d)
            case Raised(e) => Raised(e)
            case Ok(record) => Ok(done + [record])
  }

  /** The records the script builds from the parsed response, or the exception it raises. */
  function GoldRecords(data: Json): Result<seq<Fields>>
  {
    match Elements(data)
    case Raised(e) => Raised(e)
    case Ok(items) => KeptRecords(items)
  }

  // ---------------------------------------------------------------------------
  // An independent description of what is kept

  /** An element that yields a record: a dict holding both keys, whatever their values. */
  predicate Priced(d: Json)
  {
    d.Obj? && Lookup(d.fields, "data").Some? && Lookup(d.fields, "cena").Some?
  }

  /** The record a priced element yields. */
  function PricedRecord(fields: Fields): Fields
  {
    [("effective_date", Get(fields, "data")), ("price", Get(fields, "cena"))]
  }

  /** An element the comprehension gets past: a dict, or a string or list that fails the
      filter (one that passes it cannot be subscripted with a string). */
  predicate Admissible(d: Json)
  {
    d.Obj? || ((d.Str? || d.Arr?) && HasDateAndPrice(d) == Ok(false))
  }

  /** The positions of the priced elements, in increasing order. */
  function PricedPositions(items: seq<Json>): (r: seq<nat>)
    ensures forall k :: 0 <= k < |r| ==> r[k] < |items|
  {
    if |items| == 0 then []
    else
      var n := |items|;
      var before := PricedPositions(items[..n - 1]);
      if Priced(items[n - 1]) then before + [n - 1] else before
  }

  // ---------------------------------------------------------------------------
  // Lemmas

  /** `PricedPositions` lists exactly the priced positions, each once, in increasing order. */
  lemma {:induction false} PricedPositionsExact(items: seq<Json>)
    ensures forall k :: 0 <= k < |PricedPositions(items)| ==> Priced(items[PricedPositions(items)[k]])
    ensures forall k, l :: 0 <= k < l < |PricedPositions(items)| ==>
      PricedPositions(items)[k] < PricedPositions(items)[l]
    ensures forall i :: 0 <= i < |items| && Priced(items[i]) ==> i in PricedPositions(items)
  {
    if |items| > 0 {
      var n := |items|;
      var front := items[..n - 1];
      PricedPositionsExact(front);
      var before := PricedPositions(front);
      var r := PricedPositions(items);
      assert r == if Priced(items[n - 1]) then before + [n - 1] else before;
      forall k | 0 <= k < |r|
        ensures Priced(items[r[k]])
      {
        if k < |before| {
          assert r[k] == before[k];
          assert Priced(front[before[k]]);
          assert front[before[k]] == items[before[k]];
        } else {
          assert Priced(items[n - 1]) && r[k] == n - 1;
        }
      }
      forall k, l | 0 <= k < l < |r|
        ensures r[k] < r[l]
      {
        assert r[k] == before[k];
        if l < |before| {
          assert r[l] == before[l];
        }
      }
      forall i | 0 <= i < n && Priced(items[i])
        ensures i in r
      {
        if i < n - 1 {
          assert front[i] == items[i];
          assert i in before;
        } else {
          assert r[|r| - 1] == i;
        }
      }
    }
  }

  /** One element: the filter raises only on None, a bool or a number; a dict passes it
      exactly when it holds both keys, present-but-null values included; a priced dict
      yields its two values; a string or list that passes the filter raises TypeError. */
  lemma ElementOutcome(d: Json)
    ensures HasDateAndPrice(d).Raised? <==> d.Null? || d.Bool? || d.Num?
    ensures d.Obj? ==> HasDateAndPrice(d) == Ok(Priced(d))
    ensures Priced(d) ==> PriceRecord(d) == Ok(PricedRecord(d.fields))
    ensures d.Str? || d.Arr? ==> PriceRecord(d) == Raised(TypeError)
  {
    if d.Obj? {
      LookupFindsPresentKeys(d.fields, "data");
      LookupFindsPresentKeys(d.fields, "cena");
    }
  }

  /** The comprehension gets through the list exactly when every element is admissible;
      otherwise it raises TypeError, never KeyError, since a dict is subscripted only
      after both keys were found in it. */
  lemma {:induction false} KeptRecordsSucceed(items: seq<Json>)
    ensures KeptRecords(items).Ok? <==> forall i :: 0 <= i < |items| ==> Admissible(items[i])
    ensures KeptRecords(items).Raised? ==> KeptRecords(items).error == TypeError
  {
    if |items| > 0 {
      var n := |items|;
      KeptRecordsSucceed(items[..n - 1]);
      assert forall i :: 0 <= i < n - 1 ==> items[..n - 1][i] == items[i];
      ElementOutcome(items[n - 1]);
    }
  }

  /** The output is the order-preserving subsequence of priced elements: record `k` is
      built from the `k`-th priced element, so there are exactly as many records as
      priced elements, and an element missing either key is dropped, not null-filled. */
  lemma {:induction false} GoldSubsequence(items: seq<Json>)
    requires KeptRecords(items).Ok?
    ensures var records := KeptRecords(items).value; var positions := PricedPositions(items);
      |records| == |positions| &&
      forall k :: 0 <= k < |records| ==>
        items[positions[k]].Obj? && records[k] == PricedRecord(items[positions[k]].fields)
  {
    if |items| > 0 {
      var n := |items|;
      GoldSubsequence(items[..n - 1]);
      ElementOutcome(items[n - 1]);
      var before := PricedPositions(items[..n - 1]);
      assert forall k :: 0 <= k < |before| ==> items[..n - 1][before[k]] == items[before[k]];
    }
  }

  /** The staged payload holds one line per priced element: no text at all when there is
      none, and otherwise one line break fewer than priced elements, with splitting on
      line breaks giving back the records' `json.dumps` lines in order. */
  lemma StagedPayload(items: seq<Json>)
    requires KeptRecords(items).Ok?
    ensures var records := KeptRecords(items).value; var content := NdjsonContent(records);
      var priced := |PricedPositions(items)|;
      (priced == 0 ==> content == "") &&
      (priced >= 1 ==>
        Occurrences(content, '\n') == priced - 1 &&
        Split(content, '\n') == NdjsonLines(records) &&
        |Split(content, '\n')| == priced)
  {
    GoldSubsequence(items);
    NdjsonContentSplits(KeptRecords(items).value);
  }

  /** When every element is priced there is exactly one record per element, in order. */
  lemma {:induction false} EveryElementPriced(items: seq<Json>)
    requires forall i :: 0 <= i < |items| ==> Priced(items[i])
    ensures KeptRecords(items).Ok?
    ensures |KeptRecords(items).value| == |items|
    ensures forall i :: 0 <= i < |items| ==> items[i].Obj? && KeptRecords(items).value[i] == PricedRecord(items[i].fields)
  {
    if |items| > 0 {
      var n := |items|;
      var front := items[..n - 1];
      assert forall i :: 0 <= i < n - 1 ==> front[i] == items[i];
      EveryElementPriced(front);
      PricedStep(items);
      var done := KeptRecords(front).value;
      var all := KeptRecords(items).value;
      assert all == done + [PricedRecord(items[n - 1].fields)];
      forall i | 0 <= i < n
        ensures items[i].Obj? && all[i] == PricedRecord(items[i].fields)
      {
        if i < n - 1 {
          assert all[i] == done[i];
          assert front[i] == items[i];
        }
      }
    }
  }

  /** The last element of a list whose front the comprehension got through, when priced,
      adds its record at the end. */
  lemma PricedStep(items: seq<Json>)
    requires |items| > 0 && Priced(items[|items| - 1])
    requires KeptRecords(items[..|items| - 1]).Ok?
    ensures KeptRecords(items) ==
      Ok(KeptRecords(items[..|items| - 1]).value + [PricedRecord(items[|items| - 1].fields)])
  {
    ElementOutcome(items[|items| - 1]);
  }

  /** Every record holds exactly the keys `effective_date` and `price`, which are the
      columns of the load job's schema, read as the element's `data` and `cena`. */
  lemma PricedRecordFields(fields: Fields)
    ensures Keys(PricedRecord(fields)) == RecordKeys
    ensures ColumnNames(LoadConfig.schema) == RecordKeys
    ensures Get(PricedRecord(fields), "effective_date") == Get(fields, "data")
    ensures Get(PricedRecord(fields), "price") == Get(fields, "cena")
  {
    var r := PricedRecord(fields);
    LookupFirstBinding(r, 0);
    assert r[0].0 != r[1].0;
    LookupFirstBinding(r, 1);
  }

  /** The example of a dated price followed by an element without `data`: one record,
      for 2024-01-02; the second element is dropped. */
  lemma MissingDateScenario(p1: NumberText, p2: NumberText)
    ensures GoldRecords(Arr([Obj([("data", Str("2024-01-02")), ("cena", Num(p1))]), Obj([("cena", Num(p2))])]))
      == Ok([[("effective_date", Str("2024-01-02")), ("price", Num(p1))]])
  {
    var first := Obj([("data", Str("2024-01-02")), ("cena", Num(p1))]);
    var second := Obj([("cena", Num(p2))]);
    var items := [first, second];
    var f := first.fields;
    assert Keys(f)[0] == "data" && Keys(f)[1] == "cena";
    assert Priced(first);
    ElementOutcome(first);
    LookupFirstBinding(f, 0);
    assert f[0].0 != f[1].0;
    LookupFirstBinding(f, 1);
    var record := [("effective_date", Str("2024-01-02")), ("price", Num(p1))];
    assert PricedRecord(f) == record;
    assert HasDateAndPrice(first) == Ok(true);
    assert PriceRecord(first) == Ok(record);
    assert items[..1][..0] == [];
    assert KeptRecords(items[..1][..0]) == Ok([]);
    assert items[..1][0] == first;
    var none: seq<Fields> := [];
    assert none + [record] == [record];
    assert KeptRecords(items[..1]) == Ok([record]);
    assert Keys(second.fields) == ["cena"];
    assert "data" !in Keys(second.fields);
    assert HasDateAndPrice(second) == Ok(false);
    assert items[..2] == items;
  }

  /** A price that is present but null is kept: the filter tests key presence only, so a
      record can carry a null. */
  lemma NullPriceKept(date: string)
    ensures GoldRecords(Arr([Obj([("data", Str(date)), ("cena", Null)])]))
      == Ok([[("effective_date", Str(date)), ("price", Null)]])
  {
    var d := Obj([("data", Str(date)), ("cena", Null)]);
    var f := d.fields;
    assert Keys(f)[0] == "data" && Keys(f)[1] == "cena";
    assert Priced(d);
    ElementOutcome(d);
    LookupFirstBinding(f, 0);
    assert f[0].0 != f[1].0;
    LookupFirstBinding(f, 1);
    var record := [("effective_date", Str(date)), ("price", Null)];
    assert PricedRecord(f) == record;
    assert HasDateAndPrice(d) == Ok(true);
    assert PriceRecord(d) == Ok(record);
    assert [d][..0] == [];
    assert KeptRecords([d][..0]) == Ok([]);
    var none: seq<Fields> := [];
    assert none + [record] == [record];
    assert KeptRecords([d]) == Ok([record]);
  }

  // ---------------------------------------------------------------------------
  // The script

  /** One run of the script: a single GET of the fixed date range. A non-200 status or an
      unparsable body returns a failure message, and a response the comprehension cannot
      get through raises, in each case before anything is staged. Otherwise the payload is
      uploaded under today's name, exactly that object is loaded into `gold_history_raw`,
      and the run returns a success message or the load job's exception. */
  method FetchGoldHistory(response: Response, today: Date, verdict: JobVerdict)
    returns (outcome: RunOutcome, calls: seq<ExternalCall>)
    requires ValidDate(today)
    ensures Staged(calls) ==> Fetched(response) && GoldRecords(response.body.data).Ok?
    ensures response.status != 200 ==>
      calls == [HttpGet(Url)] && outcome == Returned(FailMark + "API error: " + IntText(response.status))
    ensures response.status == 200 && response.body.Unparsable? ==>
      calls == [HttpGet(Url)] &&
      outcome == Returned(FailMark + "Failed to parse JSON: " + response.body.reason)
    ensures Fetched(response) && GoldRecords(response.body.data).Raised? ==>
      calls == [HttpGet(Url)] &&
      outcome == Escaped(TransformError(GoldRecords(response.body.data).error))
    ensures Fetched(response) && GoldRecords(response.body.data).Ok? ==>
      var name := StagedName(FilePrefix, today);
      calls == [HttpGet(Url),
                Upload(Bucket, name, NdjsonContent(GoldRecords(response.body.data).value), NdjsonContentType),
                LoadTable(GcsUri(Bucket, name), TableId, LoadConfig)] &&
      outcome == if verdict.Done?
                 then Returned(DoneMark + "Loaded gold history to " + TableId)
                 else Escaped(LoadJobError(verdict.reason))
  {
    calls := [HttpGet(Url)];
    if response.status != 200 {
      return Returned(FailMark + "API error: " + IntText(response.status)), calls;
    }
    var data: Json;
    match response.body {
      case Unparsable(reason) =>
        return Returned(FailMark + "Failed to parse JSON: " + reason), calls;
      case Parsed(d) =>
        data := d;
    }

    var records := GoldRecords(data);
    if records.Raised? {
      return Escaped(TransformError(records.error)), calls;
    }
    var content := NdjsonContent(records.value);
    var filename := StagedName(FilePrefix, today);

    calls := calls + [Upload(Bucket, filename, content, NdjsonContentType)];

    var uri := GcsUri(Bucket, filename);
    calls := calls + [LoadTable(uri, TableId, LoadConfig)];
    if verdict.JobFailed? {
      return Escaped(LoadJobError(verdict.reason)), calls;
    }
    outcome := Returned(DoneMark + "Loaded gold history to " + TableId);
  }
}

/** `fetch_todays_exchange_rates`: today's NBP table A, flattened into one NDJSON line
    per currency rate, staged in the bucket and loaded into `fx_today_raw`. */
module ExchangeRates {
  import opened Text
  import opened Json
  import opened Staging

  /** The table-type selector of the request: table A, the average rates. */
  const TableType := "A"
  const Url := "https://api.nbp.pl/api/exchangerates/tables/" + TableType + "/?format=json"
  const TableId := "nbpcurrencyratesbdfinalproject.nbp_data_raw.fx_today_raw"
  const FilePrefix := "fx_today_"

  /** The keys of every flat record, in the order `json.dumps` writes them. */
  const RecordKeys: seq<string> := ["table_type", "effective_date", "currency", "code", "mid"]

  const LoadConfig := LoadJobConfig(
    "NEWLINE_DELIMITED_JSON",
    [Column("table_type", "STRING"), Column("effective_date", "DATE"), Column("currency", "STRING"),
     Column("code", "STRING"), Column("mid", "NUMERIC")],
    "WRITE_TRUNCATE",
    "effective_date",
    ["code"])

  // ---------------------------------------------------------------------------
  // The flattening, as specification functions

  /** The flat record for one rate entry of one table. */
  function RateRecord(table: Fields, rate: Fields): Fields
  {
    [("table_type", Get(table, "table")),
     ("effective_date", Get(table, "effectiveDate")),
     ("currency", Get(rate, "currency")),
     ("code", Get(rate, "code")),
     ("mid", Get(rate, "mid"))]
  }

  /** A flat record has exactly the five keys, in order, which are the columns of the
      load job's schema; its table type and date read as the table's `table` and
      `effectiveDate`, null where the table lacks them. */
  lemma RateRecordTableFields(table: Fields, rate: Fields)
    ensures Keys(RateRecord(table, rate)) == RecordKeys
    ensures ColumnNames(LoadConfig.schema) == RecordKeys
    ensures Get(RateRecord(table, rate), "table_type") == Get(table, "table")
    ensures Get(RateRecord(table, rate), "effective_date") == Get(table, "effectiveDate")
  {
    var r := RateRecord(table, rate);
    LookupFirstBinding(r, 0);
    assert r[0].0 != r[1].0;
    LookupFirstBinding(r, 1);
  }

  /** A flat record's currency name, code and mid rate read as the rate entry's
      `currency`, `code` and `mid`, null where the entry lacks them. */
  lemma RateRecordRateFields(table: Fields, rate: Fields)
    ensures Get(RateRecord(table, rate), "currency") == Get(rate, "currency")
    ensures Get(RateRecord(table, rate), "code") == Get(rate, "code")
    ensures Get(RateRecord(table, rate), "mid") == Get(rate, "mid")
  {
    var r := RateRecord(table, rate);
    assert r[0].0 != r[2].0 && r[1].0 != r[2].0;
    LookupFirstBinding(r, 2);
    assert r[0].0 != r[3].0 && r[1].0 != r[3].0 && r[2].0 != r[3].0;
    LookupFirstBinding(r, 3);
    assert r[0].0 != r[4].0 && r[1].0 != r[4].0 && r[2].0 != r[4].0 && r[3].0 != r[4].0;
    LookupFirstBinding(r, 4);
  }

  /** The entries the inner loop visits for one table, `table.get("rates", [])`: a table
      without the key has none; a table that is not a dict raises AttributeError. */
  function RatesOf(table: Json): Result<seq<Json>>
  {
    if table.Obj? then Elements(GetOr(table.fields, "rates", Arr([]))) else Raised(AttributeError)
  }

  /** How many lines one table contributes; a table the loop cannot visit contributes none. */
  function RateCount(table: Json): nat
  {
    match RatesOf(table)
    case Ok(rates) => |rates|
    case Raised(_) => 0
  }

  /** The records of the inner loop over `rates`; the first entry that is not a dict
      raises AttributeError. */
  function RateRecords(table: Fields, rates: seq<Json>): Result<seq<Fields>>
  {
    if |rates| == 0 then Ok([])
    else
      match RateRecords(table, rates[..|rates| - 1])
      case Raised(e) => Raised(e)
      case Ok(done) =>
        var rate := rates[|rates| - 1];
        if rate.Obj? then Ok(done + [RateRecord(table, rate.fields)]) else Raised(AttributeError)
  }

  /** The records of one pass of the outer loop. */
  function TableRecords(table: Json): Result<seq<Fields>>
  {
    match RatesOf(table)
    case Raised(e) => Raised(e)
    case Ok(rates) => if table.Obj? then RateRecords(table.fields, rates) else Raised(AttributeError)
  }

  /** The records of the outer loop over `tables`, in loop order. */
  function TablesRecords(tables: seq<Json>): Result<seq<Fields>>
  {
    if |tables| == 0 then Ok([])
    else
      match TablesRecords(tables[..|tables| - 1])
      case Raised(e) => Raised(e)
      case Ok(done) =>
        match TableRecords(tables[|tables| - 1])
        case Raised(e) => Raised(e)
        case Ok(more) => Ok(done + more)
  }

  /** The records the script builds from the parsed response, or the exception it raises. */
  function ExchangeRecords(data: Json): Result<seq<Fields>>
  {
    match Elements(data)
    case Raised(e) => Raised(e)
    case Ok(tables) => TablesRecords(tables)
  }

  /** The number of rate entries in `tables`. */
  function TotalRates(tables: seq<Json>): nat
  {
    if |tables| == 0 then 0 else TotalRates(tables[..|tables| - 1]) + RateCount(tables[|tables| - 1])
  }

  /** A table the loops get through: a dict whose rates can be iterated and are all dicts. */
  predicate FlattensCleanly(table: Json)
  {
    match RatesOf(table)
    case Raised(_) => false
    case Ok(rates) => forall k :: 0 <= k < |rates| ==> rates[k].Obj?
  }

  // ---------------------------------------------------------------------------
  // Lemmas about the flattening

  lemma {:induction false} RateErrorPersists(table: Fields, rates: seq<Json>, k: nat)
    requires k <= |rates| && RateRecords(table, rates[..k]).Raised?
    ensures RateRecords(table, rates) == RateRecords(table, rates[..k])
    decreases |rates|
  {
    if k < |rates| {
      var n := |rates|;
      assert rates[..n - 1][..k] == rates[..k];
      RateErrorPersists(table, rates[..n - 1], k);
    } else {
      assert rates[..k] == rates;
    }
  }

  lemma {:induction false} TableErrorPersists(tables: seq<Json>, k: nat)
    requires k <= |tables| && TablesRecords(tables[..k]).Raised?
    ensures TablesRecords(tables) == TablesRecords(tables[..k])
    decreases |tables|
  {
    if k < |tables| {
      var n := |tables|;
      assert tables[..n - 1][..k] == tables[..k];
      TableErrorPersists(tables[..n - 1], k);
    } else {
      assert tables[..k] == tables;
    }
  }

  lemma {:induction false} RateRecordsShape(table: Fields, rates: seq<Json>)
    requires RateRecords(table, rates).Ok?
    ensures |RateRecords(table, rates).value| == |rates|
    ensures forall j :: 0 <= j < |rates| ==>
      rates[j].Obj? && RateRecords(table, rates).value[j] == RateRecord(table, rates[j].fields)
  {
    if |rates| > 0 {
      var n := |rates|;
      RateRecordsShape(table, rates[..n - 1]);
    }
  }

  /** The inner loop succeeds exactly when every entry is a dict; otherwise `rate.get`
      raises AttributeError. */
  lemma {:induction false} RateRecordsSucceed(table: Fields, rates: seq<Json>)
    ensures RateRecords(table, rates).Ok? <==> forall k :: 0 <= k < |rates| ==> rates[k].Obj?
    ensures RateRecords(table, rates).Raised? ==> RateRecords(table, rates).error == AttributeError
  {
    if |rates| > 0 {
      var n := |rates|;
      RateRecordsSucceed(table, rates[..n - 1]);
      assert forall k :: 0 <= k < n - 1 ==> rates[..n - 1][k] == rates[k];
    }
  }

  /** The flattening counts: one record per rate entry, a table without `rates` adding none. */
  lemma {:induction false} RecordCount(tables: seq<Json>)
    requires TablesRecords(tables).Ok?
    ensures |TablesRecords(tables).value| == TotalRates(tables)
  {
    if |tables| > 0 {
      var n := |tables|;
      var table := tables[n - 1];
      RecordCount(tables[..n - 1]);
      RateRecordsShape(table.fields, RatesOf(table).value);
    }
  }

  /** Where each record lands: entry `j` of table `i` becomes the record at position
      `TotalRates(tables[..i]) + j`, built from that table and that entry. All records of
      table `i` therefore precede those of table `i + 1`, and within a table they follow
      the order of its `rates` list. */
  lemma {:induction false} RecordPosition(tables: seq<Json>, i: nat, j: nat)
    requires TablesRecords(tables).Ok?
    requires i < |tables| && j < RateCount(tables[i])
    ensures tables[i].Obj? && RatesOf(tables[i]).Ok? && RatesOf(tables[i]).value[j].Obj?
    ensures var records := TablesRecords(tables).value;
      TotalRates(tables[..i]) + j < |records| &&
      records[TotalRates(tables[..i]) + j] == RateRecord(tables[i].fields, RatesOf(tables[i]).value[j].fields)
  {
    var n := |tables|;
    var table := tables[n - 1];
    RecordCount(tables[..n - 1]);
    RateRecordsShape(table.fields, RatesOf(table).value);
    if i < n - 1 {
      assert tables[..n - 1][i] == tables[i];
      assert tables[..n - 1][..i] == tables[..i];
      RecordPosition(tables[..n - 1], i, j);
    } else {
      assert tables[..i] == tables[..n - 1];
    }
  }

  /** The staged payload holds one line per rate entry: no text at all when there are no
      entries, and otherwise one line break fewer than entries, with splitting on line
      breaks giving back the records' `json.dumps` lines in loop order. */
  lemma StagedPayload(tables: seq<Json>)
    requires TablesRecords(tables).Ok?
    ensures var records := TablesRecords(tables).value; var content := NdjsonContent(records);
      (TotalRates(tables) == 0 ==> content == "") &&
      (TotalRates(tables) >= 1 ==>
        Occurrences(content, '\n') == TotalRates(tables) - 1 &&
        Split(content, '\n') == NdjsonLines(records) &&
        |Split(content, '\n')| == TotalRates(tables))
  {
    RecordCount(tables);
    NdjsonContentSplits(TablesRecords(tables).value);
  }

  /** The loops get through every table exactly when every table flattens cleanly;
      otherwise an exception escapes and no record survives. */
  lemma {:induction false} TablesRecordsSucceed(tables: seq<Json>)
    ensures TablesRecords(tables).Ok? <==> forall i :: 0 <= i < |tables| ==> FlattensCleanly(tables[i])
  {
    if |tables| > 0 {
      var n := |tables|;
      var table := tables[n - 1];
      TablesRecordsSucceed(tables[..n - 1]);
      assert forall i :: 0 <= i < n - 1 ==> tables[..n - 1][i] == tables[i];
      if RatesOf(table).Ok? && table.Obj? {
        RateRecordsSucceed(table.fields, RatesOf(table).value);
      }
    }
  }

  /** A response that is a string or a dict rather than a list: the outer loop visits its
      characters or keys, and the first `.get` on one of them raises AttributeError. */
  lemma TextOrDictResponse(data: Json)
    requires data.Str? || data.Obj?
    ensures ExchangeRecords(data) ==
      if (data.Str? && |data.s| == 0) || (data.Obj? && |data.fields| == 0) then Ok([])
      else Raised(AttributeError)
  {
    var tables := Elements(data).value;
    if |tables| > 0 {
      assert tables[..1][..0] == [];
      TableErrorPersists(tables, 1);
    }
  }

  /** A rate entry `{"currency": name, "code": code, "mid": mid}`. */
  function Entry(name: string, code: string, mid: Json): Fields
  {
    [("currency", Str(name)), ("code", Str(code)), ("mid", mid)]
  }

  lemma EntryRecord(table: Fields, name: string, code: string, mid: Json)
    ensures RateRecord(table, Entry(name, code, mid)) ==
      [("table_type", Get(table, "table")), ("effective_date", Get(table, "effectiveDate")),
       ("currency", Str(name)), ("code", Str(code)), ("mid", mid)]
  {
    var e := Entry(name, code, mid);
    LookupFirstBinding(e, 0);
    assert e[0].0 != e[1].0;
    LookupFirstBinding(e, 1);
    assert e[0].0 != e[2].0 && e[1].0 != e[2].0;
    LookupFirstBinding(e, 2);
  }

  /** The example of a table `A` dated 2024-01-02 with a dollar and a euro rate: two
      records, dollar first, each carrying the table's type and date. */
  lemma TwoRatesScenario(usd: NumberText, eur: NumberText)
    ensures
      var table := [("table", Str("A")), ("effectiveDate", Str("2024-01-02")),
                    ("rates", Arr([Obj(Entry("dolar", "USD", Num(usd))), Obj(Entry("euro", "EUR", Num(eur)))]))];
      ExchangeRecords(Arr([Obj(table)])) == Ok([
        [("table_type", Str("A")), ("effective_date", Str("2024-01-02")), ("currency", Str("dolar")),
         ("code", Str("USD")), ("mid", Num(usd))],
        [("table_type", Str("A")), ("effective_date", Str("2024-01-02")), ("currency", Str("euro")),
         ("code", Str("EUR")), ("mid", Num(eur))]])
  {
    var rates := [Obj(Entry("dolar", "USD", Num(usd))), Obj(Entry("euro", "EUR", Num(eur)))];
    var table := [("table", Str("A")), ("effectiveDate", Str("2024-01-02")), ("rates", Arr(rates))];
    LookupFirstBinding(table, 0);
    assert table[0].0 != table[1].0;
    LookupFirstBinding(table, 1);
    assert table[0].0 != table[2].0 && table[1].0 != table[2].0;
    LookupFirstBinding(table, 2);
    assert RatesOf(Obj(table)) == Ok(rates);
    EntryRecord(table, "dolar", "USD", Num(usd));
    EntryRecord(table, "euro", "EUR", Num(eur));
    var usdRecord := RateRecord(table, Entry("dolar", "USD", Num(usd)));
    var eurRecord := RateRecord(table, Entry("euro", "EUR", Num(eur)));
    assert rates[..1][..0] == [];
    assert RateRecords(table, rates[..1][..0]) == Ok([]);
    assert rates[..1][0].fields == Entry("dolar", "USD", Num(usd));
    assert [] + [usdRecord] == [usdRecord];
    assert RateRecords(table, rates[..1]) == Ok([usdRecord]);
    assert rates[..2] == rates;
    assert rates[..1] == rates[..|rates| - 1];
    assert rates[|rates| - 1].fields == Entry("euro", "EUR", Num(eur));
    assert RateRecords(table, rates[..|rates| - 1]) == Ok([usdRecord]);
    assert [usdRecord] + [eurRecord] == [usdRecord, eurRecord];
    assert RateRecords(table, rates) == Ok([usdRecord, eurRecord]);
    assert TableRecords(Obj(table)) == Ok([usdRecord, eurRecord]);
    var tables := [Obj(table)];
    assert tables[..0] == [];
    assert TablesRecords(tables[..0]) == Ok([]);
    assert [] + [usdRecord, eurRecord] == [usdRecord, eurRecord];
    assert TablesRecords(tables) == Ok([usdRecord, eurRecord]);
  }

  // ---------------------------------------------------------------------------
  // The script

  /** Entry `j` of a table whose earlier entries flattened adds its record at the end. */
  lemma RateStep(table: Fields, rates: seq<Json>, j: nat)
    requires j < |rates| && rates[j].Obj? && RateRecords(table, rates[..j]).Ok?
    ensures RateRecords(table, rates[..j + 1]) ==
      Ok(RateRecords(table, rates[..j]).value + [RateRecord(table, rates[j].fields)])
  {
    assert rates[..j + 1][..j] == rates[..j];
  }

  /** An entry `j` that is not a dict makes the whole table raise AttributeError. */
  lemma RateFails(table: Fields, rates: seq<Json>, j: nat)
    requires j < |rates| && !rates[j].Obj? && RateRecords(table, rates[..j]).Ok?
    ensures RateRecords(table, rates) == Raised(AttributeError)
  {
    assert rates[..j + 1][..j] == rates[..j];
    RateErrorPersists(table, rates, j + 1);
    assert rates[..|rates|] == rates;
  }

  /** Table `i`, after the earlier tables flattened, appends its own records. */
  lemma TableStep(tables: seq<Json>, i: nat)
    requires i < |tables| && TablesRecords(tables[..i]).Ok? && TableRecords(tables[i]).Ok?
    ensures TablesRecords(tables[..i + 1]) ==
      Ok(TablesRecords(tables[..i]).value + TableRecords(tables[i]).value)
  {
    assert tables[..i + 1][..i] == tables[..i];
  }

  /** A table `i` that raises, after the earlier tables flattened, makes the whole
      flattening raise the same exception. */
  lemma TableFails(tables: seq<Json>, i: nat)
    requires i < |tables| && TablesRecords(tables[..i]).Ok? && TableRecords(tables[i]).Raised?
    ensures TablesRecords(tables) == Raised(TableRecords(tables[i]).error)
  {
    assert tables[..i + 1][..i] == tables[..i];
    TableErrorPersists(tables, i + 1);
  }

  /** The nested loops that build `all_lines`: one `json.dumps` line per rate entry, in
      loop order, or the exception the first malformed table or entry raises. */
  method FlattenRates(data: Json) returns (lines: Result<seq<string>>)
    ensures lines.Raised? <==> ExchangeRecords(data).Raised?
    ensures lines.Raised? ==> lines.error == ExchangeRecords(data).error
    ensures lines.Ok? ==> lines.value == NdjsonLines(ExchangeRecords(data).value)
  {
    var tables: seq<Json>;
    match Elements(data) {
      case Raised(e) =>
        return Raised(e);
      case Ok(ts) =>
        tables := ts;
    }
    var allLines: seq<string> := [];
    ghost var records: seq<Fields> := [];
    var i := 0;
    while i < |tables|
      invariant 0 <= i <= |tables|
      invariant TablesRecords(tables[..i]) == Ok(records)
      invariant allLines == NdjsonLines(records)
    {
      var table := tables[i];
      if !table.Obj? {
        TableFails(tables, i);
        return Raised(AttributeError);
      }
      var rates: seq<Json>;
      match Elements(GetOr(table.fields, "rates", Arr([]))) {
        case Raised(e) =>
          TableFails(tables, i);
          return Raised(e);
        case Ok(rs) =>
          rates := rs;
      }
      ghost var tableRecords: seq<Fields> := [];
      var j := 0;
      while j < |rates|
        invariant 0 <= j <= |rates|
        invariant RateRecords(table.fields, rates[..j]) == Ok(tableRecords)
        invariant allLines == NdjsonLines(records + tableRecords)
      {
        var rate := rates[j];
        if !rate.Obj? {
          RateFails(table.fields, rates, j);
          TableFails(tables, i);
          return Raised(AttributeError);
        }
        var line := RateRecord(table.fields, rate.fields);
        RateStep(table.fields, rates, j);
        NdjsonLinesAppend(records + tableRecords, [line]);
        allLines := allLines + [Encode(Obj(line))];
        tableRecords := tableRecords + [line];
        j := j + 1;
      }
      assert rates[..j] == rates;
      TableStep(tables, i);
      records := records + tableRecords;
      i := i + 1;
    }
    assert tables[..i] == tables;
    lines := Ok(allLines);
  }

  /** One run of the script: a single GET of today's table. A non-200 status or an
      unparsable body returns a failure message, and a response the loops cannot flatten
      raises, in each case before anything is staged. Otherwise the payload is uploaded
      under today's name, exactly that object is loaded into `fx_today_raw`, and the run
      returns a success message or the load job's exception. */
  method FetchTodaysExchangeRates(response: Response, today: Date, verdict: JobVerdict)
    returns (outcome: RunOutcome, calls: seq<ExternalCall>)
    requires ValidDate(today)
    ensures Staged(calls) ==> Fetched(response) && ExchangeRecords(response.body.data).Ok?
    ensures response.status != 200 ==>
      calls == [HttpGet(Url)] &&
      outcome == Returned(FailMark + "Failed to fetch data: status " + IntText(response.status))
    ensures response.status == 200 && response.body.Unparsable? ==>
      calls == [HttpGet(Url)] &&
      outcome == Returned(FailMark + "Failed to parse JSON: " + response.body.reason)
    ensures Fetched(response) && ExchangeRecords(response.body.data).Raised? ==>
      calls == [HttpGet(Url)] &&
      outcome == Escaped(TransformError(ExchangeRecords(response.body.data).error))
    ensures Fetched(response) && ExchangeRecords(response.body.data).Ok? ==>
      var name := StagedName(FilePrefix, today);
      calls == [HttpGet(Url),
                Upload(Bucket, name, NdjsonContent(ExchangeRecords(response.body.data).value), NdjsonContentType),
                LoadTable(GcsUri(Bucket, name), TableId, LoadConfig)] &&
      outcome == if verdict.Done?
                 then Returned(DoneMark + "Downloaded NBP table A, saved as " + name + ", and loaded to " + TableId)
                 else Escaped(LoadJobError(verdict.reason))
  {
    calls := [HttpGet(Url)];
    if response.status != 200 {
      return Returned(FailMark + "Failed to fetch data: status " + IntText(response.status)), calls;
    }
    var data: Json;
    match response.body {
      case Unparsable(reason) =>
        return Returned(FailMark + "Failed to parse JSON: " + reason), calls;
      case Parsed(d) =>
        data := d;
    }

    var allLines := FlattenRates(data);
    if allLines.Raised? {
      return Escaped(TransformError(allLines.error)), calls;
    }
    var content := Join("\n", allLines.value);
    var filename := StagedName(FilePrefix, today);

    calls := calls + [Upload(Bucket, filename, content, NdjsonContentType)];

    var uri := GcsUri(Bucket, filename);
    calls := calls + [LoadTable(uri, TableId, LoadConfig)];
    if verdict.JobFailed? {
      return Escaped(LoadJobError(verdict.reason)), calls;
    }
    outcome := Returned(DoneMark + "Downloaded NBP table A, saved as " + filename + ", and loaded to " + TableId);
  }
}

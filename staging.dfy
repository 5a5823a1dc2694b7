/** What the two pipelines share around their transforms: the fetch outcome they start
    from, the NDJSON payload, the dated name of the staged object, the calls made to the
    object store and the warehouse, and the message a run ends with. */
module Staging {
  import opened Text
  import opened Json

  // ---------------------------------------------------------------------------
  // Fetch

  /** What `response.json()` made of the body: a parsed value or the text of the exception. */
  datatype Body = Parsed(data: Json) | Unparsable(reason: string)

  /** The response of the single `requests.get` a run makes. */
  datatype Response = Response(status: int, body: Body)

  /** Whether a run staged or loaded anything. */
  predicate Staged(calls: seq<ExternalCall>)
  {
    exists k :: 0 <= k < |calls| && (calls[k].Upload? || calls[k].LoadTable?)
  }

  /** Both early exits were passed: the status is 200 and the body parsed. */
  predicate Fetched(response: Response)
  {
    response.status == 200 && response.body.Parsed?
  }

  // ---------------------------------------------------------------------------
  // NDJSON payload

  /** One `json.dumps` line per record, in order. */
  function NdjsonLines(records: seq<Fields>): (r: seq<string>)
    ensures |r| == |records|
  {
    seq(|records|, i requires 0 <= i < |records| => Encode(Obj(records[i])))
  }

  /** `"\n".join(lines)`: the staged payload. */
  function NdjsonContent(records: seq<Fields>): string
  {
    Join("\n", NdjsonLines(records))
  }

  lemma NdjsonLinesAppend(records: seq<Fields>, more: seq<Fields>)
    ensures NdjsonLines(records + more) == NdjsonLines(records) + NdjsonLines(more)
  {
    var all := records + more;
    assert forall i :: 0 <= i < |more| ==> all[|records| + i] == more[i];
  }

  /** The payload of no records is empty. Otherwise it holds one separator fewer than
      records, splitting it on line breaks gives back exactly one `json.dumps` line per
      record in order, and it ends with the closing brace of the last record: there is
      no trailing separator. */
  lemma NdjsonContentSplits(records: seq<Fields>)
    ensures records == [] ==> NdjsonContent(records) == ""
    ensures |records| >= 1 ==>
      Split(NdjsonContent(records), '\n') == NdjsonLines(records) &&
      Occurrences(NdjsonContent(records), '\n') == |records| - 1
    ensures |records| >= 1 ==>
      var content := NdjsonContent(records);
      |content| >= 1 && content[|content| - 1] == '}'
  {
    var lines := NdjsonLines(records);
    forall i | 0 <= i < |lines|
      ensures '\n' !in lines[i]
    {
      EncodeHasNoNewline(Obj(records[i]));
    }
    if |records| >= 1 {
      SplitJoin(lines, '\n');
      SeparatorCount(lines, '\n');
      JoinEndsWithLastPart("\n", lines);
      var last := lines[|lines| - 1];
      assert last[|last| - 1] == '}';
    }
  }

  // ---------------------------------------------------------------------------
  // The dated name of the staged object

  /** The local calendar date `datetime.now()` reports. */
  datatype Date = Date(year: int, month: int, day: int)

  predicate IsLeapYear(y: int)
  {
    y % 4 == 0 && (y % 100 != 0 || y % 400 == 0)
  }

  function DaysInMonth(y: int, m: int): int
    requires 1 <= m <= 12
  {
    if m == 2 then (if IsLeapYear(y) then 29 else 28)
    else if m == 4 || m == 6 || m == 9 || m == 11 then 30
    else 31
  }

  /** A date Python's `datetime` can represent: years 1 to 9999, real days of real months. */
  predicate ValidDate(d: Date)
  {
    1 <= d.year <= 9999 && 1 <= d.month <= 12 && 1 <= d.day <= DaysInMonth(d.year, d.month)
  }

  function TwoDigits(n: nat): (r: string)
    requires n < 100
    ensures |r| == 2 && AllDigits(r)
  {
    [DigitChar(n / 10), DigitChar(n % 10)]
  }

  /** `YYYY-MM-DD`, as `strftime("%Y-%m-%d")` and `str(date)` write it. */
  function IsoDate(d: Date): (r: string)
    requires ValidDate(d)
    ensures |r| == 10
  {
    TwoDigits(d.year / 100) + TwoDigits(d.year % 100) + "-" + TwoDigits(d.month) + "-" + TwoDigits(d.day)
  }

  /** Reads `YYYY-MM-DD` back as a date, if it names one. */
  function ParseIsoDate(s: string): Option<Date>
  {
    if |s| == 10 && s[4] == '-' && s[7] == '-' && AllDigits(s[..4]) && AllDigits(s[5..7]) && AllDigits(s[8..]) then
      var d := Date(DigitsValue(s[..4]), DigitsValue(s[5..7]), DigitsValue(s[8..]));
      if ValidDate(d) then Some(d) else None
    else None
  }

  lemma TwoDigitsValue(n: nat)
    requires n < 100
    ensures DigitsValue(TwoDigits(n)) == n
  {
    var s := TwoDigits(n);
    assert s[..1][..0] == [];
    assert DigitValue(s[0]) == n / 10 && DigitValue(s[1]) == n % 10;
    assert DigitsValue(s[..1]) == n / 10;
  }

  lemma FourDigitsValue(a: nat, b: nat)
    requires a < 100 && b < 100
    ensures DigitsValue(TwoDigits(a) + TwoDigits(b)) == a * 100 + b
  {
    var s := TwoDigits(a) + TwoDigits(b);
    TwoDigitsValue(a);
    assert s[..3][..2] == TwoDigits(a);
    assert s[..3] == TwoDigits(a) + [s[2]];
    assert s[..4][..3] == s[..3];
    assert s[..4] == s;
    assert DigitValue(s[2]) == b / 10 && DigitValue(s[3]) == b % 10;
  }

  lemma IsoDateRoundTrip(d: Date)
    requires ValidDate(d)
    ensures ParseIsoDate(IsoDate(d)) == Some(d)
  {
    var s := IsoDate(d);
    assert s[..4] == TwoDigits(d.year / 100) + TwoDigits(d.year % 100);
    assert s[5..7] == TwoDigits(d.month);
    assert s[8..] == TwoDigits(d.day);
    FourDigitsValue(d.year / 100, d.year % 100);
    TwoDigitsValue(d.month);
    TwoDigitsValue(d.day);
  }

  /** `f"{prefix}{today}.ndjson"`: the name of the staged object. */
  function StagedName(prefix: string, today: Date): string
    requires ValidDate(today)
  {
    prefix + IsoDate(today) + ".ndjson"
  }

  /** The date a staged name was made for, if it was made with `prefix`. */
  function DateOfStagedName(prefix: string, name: string): Option<Date>
  {
    if |name| == |prefix| + 17 && name[..|prefix|] == prefix && name[|prefix| + 10..] == ".ndjson"
    then ParseIsoDate(name[|prefix|..|prefix| + 10])
    else None
  }

  /** The staged name records its date. */
  lemma StagedNameRoundTrip(prefix: string, today: Date)
    requires ValidDate(today)
    ensures DateOfStagedName(prefix, StagedName(prefix, today)) == Some(today)
  {
    var name := StagedName(prefix, today);
    assert name[..|prefix|] == prefix;
    assert name[|prefix|..|prefix| + 10] == IsoDate(today);
    assert name[|prefix| + 10..] == ".ndjson";
    IsoDateRoundTrip(today);
  }

  /** Two runs of one pipeline write the same object exactly when they run on the same
      day: same-day reruns overwrite each other, runs on different days never do. */
  lemma StagedNamesCollideOnlyOnSameDay(prefix: string, d1: Date, d2: Date)
    requires ValidDate(d1) && ValidDate(d2)
    ensures StagedName(prefix, d1) == StagedName(prefix, d2) <==> d1 == d2
  {
    StagedNameRoundTrip(prefix, d1);
    StagedNameRoundTrip(prefix, d2);
  }

  /** `f"gs://{bucket_name}/{filename}"`. */
  function GcsUri(bucket: string, name: string): string
  {
    "gs://" + bucket + "/" + name
  }

  // ---------------------------------------------------------------------------
  // Calls to the source API, the object store and the warehouse

  const Bucket := "nbp-upload-temp"
  const NdjsonContentType := "application/x-ndjson"

  datatype Column = Column(name: string, fieldType: string)

  /** The `LoadJobConfig` a pipeline submits; an empty `clustering` means none is set. */
  datatype LoadJobConfig = LoadJobConfig(
    sourceFormat: string,
    schema: seq<Column>,
    writeDisposition: string,
    partitionField: string,
    clustering: seq<string>)

  function ColumnNames(schema: seq<Column>): (r: seq<string>)
    ensures |r| == |schema|
  {
    seq(|schema|, i requires 0 <= i < |schema| => schema[i].name)
  }

  /** A call a run makes to a service outside the process: `requests.get`,
      `blob.upload_from_string` or `load_table_from_uri`. */
  datatype ExternalCall =
    | HttpGet(url: string)
    | Upload(bucket: string, name: string, content: string, contentType: string)
    | LoadTable(uri: string, table: string, config: LoadJobConfig)

  /** What `load_job.result()` reports; the warehouse decides it. */
  datatype JobVerdict = Done | JobFailed(reason: string)

  /** An exception that escapes a run instead of a returned message. */
  datatype Escape = TransformError(error: PyError) | LoadJobError(reason: string)

  /** How a run ends: the message it returns, or the exception that escapes it. */
  datatype RunOutcome = Returned(message: string) | Escaped(escape: Escape)

  const FailMark := "\U{274C} "
  const DoneMark := "\U{2705} "
}

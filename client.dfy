/** One cycle of the polling client (`main` of the client): fetch the
    accumulated records, append them as one record to the buffer file, and
    once the buffer holds `MaxRecords` records export the first
    `MaxRecords` of them to a CSV file and keep the rest. */
module Client {
  import opened Wrappers
  import opened Dicts
  import opened Json

  /** `max_records`. */
  const MaxRecords: nat := 50000

  /** `{"error": "Unauthorized"}`, the answer of the server to a bad token. */
  const UnauthorizedAnswer: Json := Obj([("error", Str("Unauthorized"))])

  /** `JSONFileManager.load_data`: the decoded buffer file, or `[]` when the
      file does not exist (`None`). */
  function LoadData(file: Option<Json>): (r: Json)
    ensures file.None? ==> r == Arr([])
    ensures file.Some? ==> r == file.value
  {
    if file.None? then Arr([]) else file.value
  }

  /** A CSV file: its header and its rows. */
  datatype CsvFile = CsvFile(columns: seq<string>, rows: seq<Dict<Json>>)

  /** Every key of the record is a column; `csv.DictWriter` raises on any
      other key. */
  predicate Fits(record: Json, columns: seq<string>) {
    record.Obj? && forall k :: k in Keys(record.fields) ==> k in columns
  }

  /** `CSVConverter.convert(records, ...)`: the columns are the keys of the
      first record; a record that is not a dict or has a key outside them
      makes the writer raise. */
  function CsvOf(records: seq<Json>): Result<CsvFile>
    requires records != []
  {
    if !records[0].Obj? then Raised
    else
      var columns := Keys(records[0].fields);
      if forall i :: 0 <= i < |records| ==> Fits(records[i], columns)
      then Ok(CsvFile(columns, seq(|records|, i requires 0 <= i < |records| => records[i].fields)))
      else Raised
  }

  /** The writing loop of `CSVConverter.convert`. */
  method Convert(records: seq<Json>) returns (r: Result<CsvFile>)
    requires records != []
    ensures r == CsvOf(records)
  {
    if !records[0].Obj? {
      return Raised;
    }
    var columns := Keys(records[0].fields);
    var rows: seq<Dict<Json>> := [];
    var i := 0;
    while i < |records|
      invariant 0 <= i <= |records| && |rows| == i
      invariant forall j :: 0 <= j < i ==> Fits(records[j], columns) && rows[j] == records[j].fields
    {
      if !Fits(records[i], columns) {
        return Raised;
      }
      rows := rows + [records[i].fields];
      i := i + 1;
    }
    assert rows == seq(|records|, j requires 0 <= j < |records| => records[j].fields);
    return Ok(CsvFile(columns, rows));
  }

  /** The CSV export holds the records in order, under the first record's
      keys, and every record's keys are among them. */
  lemma CsvOfMeaning(records: seq<Json>)
    requires records != [] && CsvOf(records).Ok?
    ensures records[0].Obj? && CsvOf(records).value.columns == Keys(records[0].fields)
    ensures |CsvOf(records).value.rows| == |records|
    ensures forall i :: 0 <= i < |records| ==>
              records[i].Obj? && CsvOf(records).value.rows[i] == records[i].fields &&
              forall k :: k in Keys(records[i].fields) ==> k in CsvOf(records).value.columns
  {
    var columns := Keys(records[0].fields);
    assert forall i :: 0 <= i < |records| ==> Fits(records[i], columns);
  }

  /** How a cycle ends: `exit(1)` for missing settings or a refused token,
      an exception before the buffer is saved, or the buffer saved. */
  datatype Outcome = MissingSettings | Refused | Crashed | Saved

  /** The effect of one cycle: its end, the records exported (if any), and
      the buffer it saved. */
  datatype Cycle = Cycle(outcome: Outcome, csv: Option<CsvFile>, exported: seq<Json>, saved: seq<Json>)

  /** The `authorization` header as written: the literal text
      "Bearer {token}", whatever the token is. */
  function AuthHeaderAsWritten(token: string): string {
    "Bearer {token}"
  }

  /** The header the client evidently means to send: "Bearer " followed by
      the token. */
  function AuthHeader(token: string): (h: string)
    ensures |h| == 7 + |token| && h[..7] == "Bearer " && h[7..] == token
  {
    "Bearer " + token
  }

  /** One cycle, from the way the Authorization header is built from the
      token (`header`: `AuthHeaderAsWritten` as written, `AuthHeader` as
      intended), settings `url` and `token`, the server's answer to a GET
      carrying a given Authorization header (`fetch`), and the buffer file as
      found. */
  function CycleOf(header: string -> string, url: Option<string>, token: Option<string>, fetch: string -> Json, file: Option<Json>): Cycle {
    if url.None? || token.None? then Cycle(MissingSettings, None, [], [])
    else
      var fetched := fetch(header(token.value));
      if fetched == UnauthorizedAnswer then Cycle(Refused, None, [], [])
      else
        var current := LoadData(file);
        if !current.Arr? then Cycle(Crashed, None, [], [])
        else
          var records := current.items + [fetched];
          if |records| >= MaxRecords then
            match CsvOf(records[..MaxRecords])
            case Raised => Cycle(Crashed, None, [], [])
            case Ok(csv) => Cycle(Saved, Some(csv), records[..MaxRecords], records[MaxRecords..])
          else Cycle(Saved, None, [], records)
  }

  /** What the client leaves on disk: the buffer file and the CSV exports. */
  class Disk {
    var buffer: Option<Json>
    var exports: seq<CsvFile>

    constructor(buffer: Option<Json>)
      ensures this.buffer == buffer && exports == []
    {
      this.buffer := buffer;
      exports := [];
    }

    /** `main`: one cycle of fetching, appending, exporting and saving. */
    method RunCycle(header: string -> string, url: Option<string>, token: Option<string>, fetch: string -> Json) returns (outcome: Outcome)
      modifies this
      ensures outcome == CycleOf(header, url, token, fetch, old(buffer)).outcome
      ensures outcome == Saved ==> buffer == Some(Arr(CycleOf(header, url, token, fetch, old(buffer)).saved))
      ensures outcome != Saved ==> buffer == old(buffer)
      ensures var csv := CycleOf(header, url, token, fetch, old(buffer)).csv;
              exports == old(exports) + (if csv.Some? then [csv.value] else [])
    {
      if url.None? || token.None? {
        return MissingSettings;
      }
      var fetched := fetch(header(token.value));
      if fetched == UnauthorizedAnswer {
        return Refused;
      }
      var current := LoadData(buffer);
      if !current.Arr? {
        return Crashed;
      }
      var records := current.items + [fetched];
      if |records| >= MaxRecords {
        var csv := Convert(records[..MaxRecords]);
        if csv.Raised? {
          return Crashed;
        }
        exports := exports + [csv.value];
        records := records[MaxRecords..];
      }
      buffer := Some(Arr(records));
      return Saved;
    }
  }

  /** A refused token ends the cycle before the buffer is loaded: nothing is
      exported and the buffer file is not written. */
  lemma RefusedTouchesNothing(header: string -> string, url: string, token: string, fetch: string -> Json, file: Option<Json>)
    requires fetch(header(token)) == UnauthorizedAnswer
    ensures CycleOf(header, Some(url), Some(token), fetch, file) == Cycle(Refused, None, [], [])
  {
  }

  /** A missing buffer file is an empty buffer: the first cycle saves just
      the fetched record. */
  lemma MissingFileStartsEmpty(header: string -> string, url: string, token: string, fetch: string -> Json)
    requires fetch(header(token)) != UnauthorizedAnswer
    ensures CycleOf(header, Some(url), Some(token), fetch, None) == Cycle(Saved, None, [], [fetch(header(token))])
  {
  }

  /** Nothing is lost and nothing is duplicated: the exported records
      followed by the saved ones are the loaded records followed by the
      fetched one.  Below the threshold nothing is exported; at or above it
      exactly `MaxRecords` records are exported, once, under the first
      exported record's keys. */
  lemma NoLossNoDuplication(header: string -> string, url: Option<string>, token: Option<string>, fetch: string -> Json, file: Option<Json>)
    requires CycleOf(header, url, token, fetch, file).outcome == Saved
    ensures url.Some? && token.Some? && LoadData(file).Arr?
    ensures var c := CycleOf(header, url, token, fetch, file);
            c.exported + c.saved == LoadData(file).items + [fetch(header(token.value))]
    ensures var c := CycleOf(header, url, token, fetch, file);
            |LoadData(file).items| + 1 < MaxRecords ==> c.exported == [] && c.csv.None?
    ensures var c := CycleOf(header, url, token, fetch, file);
            |LoadData(file).items| + 1 >= MaxRecords ==>
              |c.exported| == MaxRecords && c.csv.Some? && |c.csv.value.rows| == MaxRecords &&
              c.csv.value.columns == Keys(c.exported[0].fields)
  {
    var records := LoadData(file).items + [fetch(header(token.value))];
    if |records| >= MaxRecords {
      assert records[..MaxRecords] + records[MaxRecords..] == records;
      CsvOfMeaning(records[..MaxRecords]);
    }
  }

  /** A buffer loaded below the threshold is saved below it: the buffer file
      never holds `MaxRecords` records after a cycle. */
  lemma SavedBufferStaysBelowThreshold(header: string -> string, url: Option<string>, token: Option<string>, fetch: string -> Json, file: Option<Json>)
    requires CycleOf(header, url, token, fetch, file).outcome == Saved
    requires |LoadData(file).items| < MaxRecords
    ensures |CycleOf(header, url, token, fetch, file).saved| < MaxRecords
  {
    NoLossNoDuplication(header, url, token, fetch, file);
  }
}

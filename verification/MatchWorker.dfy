/** The sequential parts of the match worker: loading the publisher mapping and draining parsed rows. */
module Worker {
  import opened Results
  import opened Lines
  import opened Whitespace
  import opened Rows
  import opened Parser
  import opened MatchTable
  import opened Upload
  import opened Fetcher

  type Table = map<string, ValueInfo<string>>

  const MAPPING_CONFIG := MakeConfig(2, true, ',', '\n', MAX_BUFFERED_BYTES)
  const ADVERTISER_CONFIG := MakeConfig(1, true, ',', '\n', MAX_BUFFERED_BYTES)

  /** Bytes the worker asks for in one response of the advertiser's list. */
  const BYTES_PER_RESPONSE: nat := 80 * 1024 * 1024

  /** Adds the rows of a mapping to the table, up to the first malformed row or repeated key. */
  function AddRows(rows: seq<string>, table: Table): (Table, ExecutionResult) {
    if rows == [] then (table, Success)
    else
      var row := BuildRow(rows[0], 2, true, ',');
      if row.Err? then (table, row.result)
      else if row.value.GetColumn(0).Err? then (table, row.value.GetColumn(0).result)
      else if row.value.GetColumn(1).Err? then (table, row.value.GetColumn(1).result)
      else
        var key, value := row.value.GetColumn(0).value, row.value.GetColumn(1).value;
        if key in table then (table, Failure(ElementAlreadyExists))
        else AddRows(rows[1..], table[key := ValueInfo(value, false)])
  }

  /** The table a mapping blob is parsed into, and whether parsing it succeeded. */
  function ParseMapping(blob: string): (Table, ExecutionResult) {
    var (p, added) := AddChunk(MAPPING_CONFIG, EMPTY, blob);
    if added != Success then (map[], added) else AddRows(p.rows, map[])
  }

  /** The upload for a sequence of advertiser rows: the value of every row whose normal form is a key,
      each on its own line, in row order. */
  function Emit(table: Table, rows: seq<string>): string {
    if rows == [] then ""
    else Emit(table, rows[..|rows| - 1]) + EmitOne(table, rows[|rows| - 1])
  }

  function EmitOne(table: Table, row: string): string {
    if Normalize(row) in table then table[Normalize(row)].value + "\n" else ""
  }

  lemma EmitNext(table: Table, rows: seq<string>, row: string)
    ensures Emit(table, rows + [row]) == Emit(table, rows) + EmitOne(table, row)
  {
    assert (rows + [row])[..|rows|] == rows;
  }

  /** The normal forms of a sequence of rows. */
  ghost function Keys(rows: seq<string>): set<string> {
    set i | 0 <= i < |rows| :: Normalize(rows[i])
  }

  lemma KeysNext(rows: seq<string>, row: string)
    ensures Keys(rows + [row]) == Keys(rows) + {Normalize(row)}
  {
    forall k | k in Keys(rows) + {Normalize(row)} ensures k in Keys(rows + [row]) {
      if k in Keys(rows) {
        var i :| 0 <= i < |rows| && k == Normalize(rows[i]);
        assert k == Normalize((rows + [row])[i]);
      } else {
        assert k == Normalize((rows + [row])[|rows|]);
      }
    }
  }

  /** Values do not change while keys are being marked, so neither does what is emitted. */
  lemma {:induction false} EmitMarked(table: Table, marked: set<string>, rows: seq<string>)
    ensures Emit(Marked(table, marked), rows) == Emit(table, rows)
  {
    if rows != [] {
      EmitMarked(table, marked, rows[..|rows| - 1]);
    }
  }

  /** What `GetExistingRows` does when no chunk arrives meanwhile; `client(n)` is the upload
      client's answer to the call it receives after `n` events. */
  function ExistingRows(p: ParserState, table: Table, log: seq<Event>, client: nat -> Answer)
    : (ParserState, Table, seq<Event>, ExecutionResult)
    decreases |p.rows|
  {
    if p.rows == [] then (p, table, log, Success)
    else
      var (q, row) := NextRow(ADVERTISER_CONFIG, p);
      if row.Err? then (q, table, CancelIfStarted(log, row.result), row.result)
      else if row.value.GetColumn(0).Err? then
        (q, table, CancelIfStarted(log, row.value.GetColumn(0).result), row.value.GetColumn(0).result)
      else
        var key := row.value.GetColumn(0).value;
        if key !in table then ExistingRows(q, Mark(table, key), log, client)
        else
          var (log', sent) := Send(log, table[key].value + "\n", client(|log|));
          if sent != Success then (q, Mark(table, key), log', sent)
          else ExistingRows(q, Mark(table, key), log', client)
  }

  /** What a drain does with its first row. */
  lemma FirstRow(p: ParserState, table: Table, log: seq<Event>, client: nat -> Answer)
    requires p.rows != []
    ensures
      var q, key, bad := NextRow(ADVERTISER_CONFIG, p).0, Normalize(p.rows[0]), Failure(UnexpectedNumberOfColumns);
      ExistingRows(p, table, log, client) ==
        if !IsIdRow(p.rows[0]) then (q, table, CancelIfStarted(log, bad), bad)
        else if key !in table then ExistingRows(q, Mark(table, key), log, client)
        else
          var (log', sent) := Send(log, table[key].value + "\n", client(|log|));
          if sent != Success then (q, Mark(table, key), log', sent)
          else ExistingRows(q, Mark(table, key), log', client)
  {
    IdRowParses(p.rows[0]);
  }

  lemma {:induction false} EmitAppend(table: Table, a: seq<string>, b: seq<string>)
    ensures Emit(table, a + b) == Emit(table, a) + Emit(table, b)
  {
    if b == [] {
      assert a + b == a;
    } else {
      var init, last := b[..|b| - 1], b[|b| - 1];
      assert a + b == a + init + [last] && b == init + [last];
      EmitAppend(table, a, init);
      EmitNext(table, a + init, last);
      Regroup(Emit(table, a), Emit(table, init), EmitOne(table, last));
    }
  }

  lemma {:induction false} KeysCons(row: string, rows: seq<string>)
    ensures Keys([row] + rows) == {Normalize(row)} + Keys(rows)
  {
    forall k | k in Keys([row] + rows) ensures k in {Normalize(row)} + Keys(rows) {
      var i :| 0 <= i < |[row] + rows| && k == Normalize(([row] + rows)[i]);
      if i > 0 {
        assert rows[i - 1] == ([row] + rows)[i];
      }
    }
    forall k | k in {Normalize(row)} + Keys(rows) ensures k in Keys([row] + rows) {
      if k in Keys(rows) {
        var i :| 0 <= i < |rows| && k == Normalize(rows[i]);
        assert ([row] + rows)[i + 1] == rows[i];
      } else {
        assert ([row] + rows)[0] == row;
      }
    }
  }

  /** Over id rows and a client that takes everything, draining consumes every row, uploads exactly
      what the rows emit, in order, and flags exactly the keys that occurred. */
  lemma {:induction false} ExistingRowsEmits(p: ParserState, table: Table, log: seq<Event>, client: nat -> Answer)
    requires forall i :: 0 <= i < |p.rows| ==> IsIdRow(p.rows[i])
    requires forall n :: client(n).accepted
    ensures
      var (p', table', log', result) := ExistingRows(p, table, log, client);
      && result == Success && p'.rows == [] && p'.tail == p.tail
      && table' == Marked(table, Keys(p.rows))
      && Data(log') == Data(log) + Emit(table, p.rows)
    decreases |p.rows|
  {
    if p.rows == [] {
      MarkNone(table);
    } else {
      var row, rest := p.rows[0], p.rows[1..];
      var key := Normalize(row);
      var q := NextRow(ADVERTISER_CONFIG, p).0;
      var sent := FirstRowEmits(p, table, log, client);
      ExistingRowsEmits(q, Mark(table, key), sent, client);
      MarkAppend(table, key, Keys(rest));
      EmitMark(table, key, rest);
      assert p.rows == [row] + rest;
      KeysCons(row, rest);
      EmitCons(table, row, rest);
      Regroup(Data(log), EmitOne(table, row), Emit(table, rest));
    }
  }

  lemma FirstRowEmits(p: ParserState, table: Table, log: seq<Event>, client: nat -> Answer) returns (sent: seq<Event>)
    requires p.rows != [] && IsIdRow(p.rows[0]) && client(|log|).accepted
    ensures ExistingRows(p, table, log, client)
      == ExistingRows(NextRow(ADVERTISER_CONFIG, p).0, Mark(table, Normalize(p.rows[0])), sent, client)
    ensures Data(sent) == Data(log) + EmitOne(table, p.rows[0])
  {
    var row := p.rows[0];
    var key := Normalize(row);
    FirstRow(p, table, log, client);
    SendData(log, EmitOne(table, row), client(|log|));
    sent := if key in table then Send(log, EmitOne(table, row), client(|log|)).0 else log;
  }

  lemma EmitCons(table: Table, row: string, rows: seq<string>)
    ensures Emit(table, [row] + rows) == EmitOne(table, row) + Emit(table, rows)
  {
    EmitAppend(table, [row], rows);
    assert [row][..0] == [];
  }

  lemma EmitMark(table: Table, key: string, rows: seq<string>)
    ensures Emit(Mark(table, key), rows) == Emit(table, rows)
  {
    MarkNone(table);
    MarkOne(table, {}, key);
    EmitMarked(table, {key}, rows);
  }

  lemma SendData(log: seq<Event>, data: string, answer: Answer)
    requires answer.accepted
    ensures Send(log, data, answer).1 == Success && Data(Send(log, data, answer).0) == Data(log) + data
  {
    DataOfNext(log, Pushed(data));
    DataOfNext([], Opened(data));
  }

  /** The stream's result after a chunk: a chunk the parser did not take leaves its error. */
  function ResultAfterChunk(current: ExecutionResult, added: ExecutionResult): ExecutionResult {
    if added != Success then added else current
  }

  /** The stream's result after the done call, which replaces any result that is not a success. */
  function ResultAfterDone(current: ExecutionResult, outcome: ExecutionResult): ExecutionResult {
    if current != Success then outcome else current
  }

  /** The end of an export, from the moment the worker saw that everything was received. No result means that
      the empty function object was called. */
  function EndExport(p: ParserState, table: Table, log: seq<Event>, streamResult: ExecutionResult,
                     client: nat -> Answer)
    : (ParserState, Table, seq<Event>, Option<ExecutionResult>)
  {
    if streamResult != Success then (p, table, CancelIfStarted(log, streamResult), Some(streamResult))
    else
      var (p', table', log', drained) := ExistingRows(p, table, log, client);
      if drained != Success then (p', table', log', Some(drained))
      else if log' == [] then (p', table', log', None)
      else
        var (ended, result) := Use(log', Ok(None), client(|log'|));
        (p', table', ended, Some(result))
  }

  /** What the streamer's callback shares with the worker. */
  class AdvertiserStream {
    const csvParser: CsvStreamParser
    var getStreamResult: ExecutionResult
    var allAdvertiserIdsReceived: bool

    ghost predicate Valid()
      reads this, csvParser, csvParser.rollingData
    {
      csvParser.Valid() && csvParser.config == ADVERTISER_CONFIG
    }

    constructor ()
      ensures Valid() && csvParser.Contents() == EMPTY && fresh(csvParser) && fresh(csvParser.rollingData)
      ensures getStreamResult == DEFAULT_RESULT && !allAdvertiserIdsReceived
    {
      csvParser := new CsvStreamParser(ADVERTISER_CONFIG);
      getStreamResult, allAdvertiserIdsReceived := DEFAULT_RESULT, false;
    }

    /** The callback of the download: forwards chunks to the parser, and keeps the stream's result. */
    method Callback(chunk: string, isDone: bool, result: ExecutionResult)
      requires Valid()
      modifies this, csvParser, csvParser.rollingData
      ensures Valid() && allAdvertiserIdsReceived == (old(allAdvertiserIdsReceived) || isDone)
      ensures
        var before := old(csvParser.Contents());
        var (after, added) := AddChunk(ADVERTISER_CONFIG, before, chunk);
        if isDone then
          csvParser.Contents() == before && getStreamResult == ResultAfterDone(old(getStreamResult), result)
        else
          csvParser.Contents() == after && getStreamResult == ResultAfterChunk(old(getStreamResult), added)
    {
      if isDone {
        if getStreamResult != Success {
          getStreamResult := result;
        }
        allAdvertiserIdsReceived := true;
      } else {
        var addChunkResult := csvParser.AddCsvChunk(chunk);
        if addChunkResult != Success {
          getStreamResult := addChunkResult;
        }
      }
    }
  }

  class MatchWorker {
    const matchTable: MatchTableHashMap<string, string>

    constructor ()
      ensures matchTable.data == map[] && fresh(matchTable)
    {
      matchTable := new MatchTableHashMap();
    }

    /** Parses a mapping blob into the (still empty) match table. */
    method ParseBlobResponseIntoMatchTable(blob: string) returns (result: ExecutionResult)
      requires matchTable.data == map[]
      modifies matchTable
      ensures (matchTable.data, result) == ParseMapping(blob)
    {
      var csvParser := new CsvStreamParser(MAPPING_CONFIG);
      var added := csvParser.AddCsvChunk(blob);
      if added != Success {
        return added;
      }
      ghost var rows := csvParser.rows;
      var has := csvParser.HasRow();
      while has
        invariant csvParser.Valid() && fresh(csvParser) && fresh(csvParser.rollingData)
        invariant csvParser.config == MAPPING_CONFIG
        invariant has <==> csvParser.rows != []
        invariant AddRows(csvParser.rows, matchTable.data) == AddRows(rows, map[])
        decreases |csvParser.rows|
      {
        var row := csvParser.GetNextRow();
        if row.Err? {
          return row.result;
        }
        var plaintextId := row.value.GetColumn(0);
        if plaintextId.Err? {
          return plaintextId.result;
        }
        var encryptedId := row.value.GetColumn(1);
        if encryptedId.Err? {
          return encryptedId.result;
        }
        var stored := matchTable.AddElement(plaintextId.value, encryptedId.value);
        if stored != Success {
          return stored;
        }
        has := csvParser.HasRow();
      }
      return Success;
    }

    /** Marks the rows the parser has and uploads the values of those that match. */
    method GetExistingRows(csvParser: CsvStreamParser, upload: ProducerStreamingContext, client: nat -> Answer)
      returns (result: ExecutionResult)
      requires csvParser.Valid() && csvParser.config == ADVERTISER_CONFIG
      modifies csvParser, upload, matchTable
      ensures csvParser.Valid()
      ensures (csvParser.Contents(), matchTable.data, upload.log, result)
        == ExistingRows(old(csvParser.Contents()), old(matchTable.data), old(upload.log), client)
    {
      ghost var goal := ExistingRows(csvParser.Contents(), matchTable.data, upload.log, client);
      var has := csvParser.HasRow();
      while has
        invariant csvParser.Valid() && (has <==> csvParser.rows != [])
        invariant ExistingRows(csvParser.Contents(), matchTable.data, upload.log, client) == goal
        decreases |csvParser.rows|
      {
        var row := csvParser.GetNextRow();
        if row.Err? {
          CancelUploadIfStarted(upload, row.result);
          return row.result;
        }
        var plaintextId := row.value.GetColumn(0);
        if plaintextId.Err? {
          CancelUploadIfStarted(upload, plaintextId.result);
          return plaintextId.result;
        }
        var encryptedId := matchTable.MarkMatched(plaintextId.value);
        if encryptedId.Ok? {
          var sent: ExecutionResult;
          if upload.log == [] {
            sent := upload.PutBlobStream(encryptedId.value + "\n", client(|upload.log|));
          } else {
            sent := upload.PutBlobStreamFunctor(Ok(Some(encryptedId.value + "\n")), client(|upload.log|));
          }
          if sent != Success {
            return sent;
          }
        }
        has := csvParser.HasRow();
      }
      return Success;
    }

    method CancelUploadIfStarted(upload: ProducerStreamingContext, result: ExecutionResult)
      modifies upload
      ensures upload.log == CancelIfStarted(old(upload.log), result)
    {
      if upload.log != [] {
        var ignored := upload.PutBlobStreamFunctor(Err(result), Answer(true, result));
      }
    }

    /** The end of `ExportMatches`, after its loop: the stream's result, the last drain and the done marker. */
    method ExportAfterStream(stream: AdvertiserStream, upload: ProducerStreamingContext, client: nat -> Answer)
      returns (result: Option<ExecutionResult>)
      requires stream.Valid()
      modifies stream.csvParser, upload, matchTable
      ensures stream.Valid()
      ensures (stream.csvParser.Contents(), matchTable.data, upload.log, result)
        == EndExport(old(stream.csvParser.Contents()), old(matchTable.data), old(upload.log),
                     stream.getStreamResult, client)
    {
      if stream.getStreamResult != Success {
        CancelUploadIfStarted(upload, stream.getStreamResult);
        return Some(stream.getStreamResult);
      }
      var drained := GetExistingRows(stream.csvParser, upload, client);
      if drained != Success {
        return Some(drained);
      }
      if upload.log == [] {
        return None;
      }
      var ended := upload.PutBlobStreamFunctor(Ok(None), client(|upload.log|));
      return Some(ended);
    }
  }
}

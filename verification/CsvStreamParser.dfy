/** The incremental CSV parser: chunks in, complete rows out. */
module Parser {
  import opened Results
  import opened Lines
  import opened Streams
  import opened Rows

  /** Rows the parser's queue holds before an insertion fails. */
  const QUEUE_CAPACITY: nat := 100_000_000

  /** 500 MiB: no configuration buffers more than this. */
  const MAX_BUFFERED_BYTES: nat := 1024 * 1024 * 500

  datatype Config = Config(
    numCols: nat,
    removeWhitespace: bool,
    delimiter: char,
    lineBreak: char,
    maxBuffered: nat)
  {
    ghost predicate Valid() {
      maxBuffered <= MAX_BUFFERED_BYTES
    }
  }

  /** Building a configuration clamps the buffer size. */
  function MakeConfig(numCols: nat, removeWhitespace: bool, delimiter: char, lineBreak: char, maxBuffered: nat)
    : (c: Config)
    ensures c.Valid() && c.maxBuffered <= maxBuffered
    ensures c.maxBuffered == maxBuffered || c.maxBuffered == MAX_BUFFERED_BYTES
  {
    Config(numCols, removeWhitespace, delimiter, lineBreak,
           if maxBuffered < MAX_BUFFERED_BYTES then maxBuffered else MAX_BUFFERED_BYTES)
  }

  /** What the parser holds between calls. */
  datatype ParserState = ParserState(rows: seq<string>, tail: string, buffered: nat)

  const EMPTY := ParserState([], "", 0)

  /** Bytes that queued rows, their line breaks and the unfinished line stand for. */
  function Held(c: Config, p: ParserState): nat {
    |Unlines(p.rows, c.lineBreak)| + |p.tail|
  }

  ghost predicate Consistent(c: Config, p: ParserState) {
    && c.Valid()
    && Held(c, p) <= p.buffered <= c.maxBuffered
    && |p.rows| <= QUEUE_CAPACITY
    && AllFree(p.rows, c.lineBreak)
    && c.lineBreak !in p.tail
  }

  /** What `AddCsvChunk` does: the chunk is refused, or split together with the carried-over tail.
      When the queue fills up the rest of the data is dropped but stays counted. */
  function AddChunk(c: Config, p: ParserState, chunk: string): (ParserState, ExecutionResult) {
    if |chunk| + p.buffered > c.maxBuffered then
      (p, Retry(BufferAtCapacity))
    else
      var lines := Complete(p.tail + chunk, c.lineBreak);
      if |p.rows| + |lines| <= QUEUE_CAPACITY then
        (ParserState(p.rows + lines, Rest(p.tail + chunk, c.lineBreak), p.buffered + |chunk|), Success)
      else if |p.rows| <= QUEUE_CAPACITY then
        (ParserState(p.rows + lines[..QUEUE_CAPACITY - |p.rows|], "", p.buffered + |chunk|), Failure(QueueFull))
      else
        (ParserState(p.rows, "", p.buffered + |chunk|), Failure(QueueFull))
  }

  /** What `GetNextRow` does. */
  function NextRow(c: Config, p: ParserState): (ParserState, ResultOr<CsvRow>) {
    if p.rows == [] then
      (p, Err(Failure(NoRowAvailable)))
    else
      (ParserState(p.rows[1..], p.tail, SizeSub(p.buffered, |p.rows[0]| + 1)),
       BuildRow(p.rows[0], c.numCols, c.removeWhitespace, c.delimiter))
  }

  lemma MoveFirst<T>(done: seq<T>, left: seq<T>)
    requires left != []
    ensures done + left == done + [left[0]] + left[1..]
  {
  }

  /** Adding a chunk keeps the counter at or above the bytes held and below the limit. */
  lemma AddChunkConsistent(c: Config, p: ParserState, chunk: string)
    requires Consistent(c, p)
    ensures Consistent(c, AddChunk(c, p, chunk).0)
  {
    var text, b := p.tail + chunk, c.lineBreak;
    var lines := Complete(text, b);
    SplitJoins(text, b);
    UnlinesAppend(p.rows, lines, b);
    var room := QUEUE_CAPACITY - |p.rows|;
    if |lines| > room {
      UnlinesAppend(lines[..room], lines[room..], b);
      assert lines[..room] + lines[room..] == lines;
      UnlinesAppend(p.rows, lines[..room], b);
    }
  }

  /** Taking a row never lets the counter wrap below zero. */
  lemma NextRowConsistent(c: Config, p: ParserState)
    requires Consistent(c, p)
    ensures Consistent(c, NextRow(c, p).0)
    ensures p.rows != [] ==> NextRow(c, p).0.buffered == p.buffered - (|p.rows[0]| + 1)
  {
    if p.rows != [] {
      assert |Unlines(p.rows, c.lineBreak)| == |p.rows[0]| + 1 + |Unlines(p.rows[1..], c.lineBreak)|;
    }
  }

  class CsvStreamParser {
    const config: Config
    var rows: seq<string>
    const rollingData: StringStream
    var bufferedDataSize: nat

    ghost predicate Valid()
      reads this, rollingData
    {
      && rollingData.Valid() && rollingData.Good() && rollingData.pos == 0
      && Consistent(config, Contents())
    }

    function Contents(): ParserState
      reads this, rollingData
    {
      ParserState(rows, rollingData.data, bufferedDataSize)
    }

    constructor (config: Config)
      requires config.Valid()
      ensures Valid() && fresh(rollingData)
      ensures this.config == config && Contents() == EMPTY
    {
      this.config := config;
      rows := [];
      bufferedDataSize := 0;
      rollingData := new StringStream();
    }

    /** Inserts into the bounded row queue. */
    method TryEnqueue(row: string) returns (result: ExecutionResult)
      modifies this`rows
      ensures if |old(rows)| < QUEUE_CAPACITY
              then result == Success && rows == old(rows) + [row]
              else result == Failure(QueueFull) && rows == old(rows)
    {
      if |rows| >= QUEUE_CAPACITY {
        return Failure(QueueFull);
      }
      rows := rows + [row];
      return Success;
    }

    /** Reads the last character of the stream. */
    method EndsInLineBreak(stream: StringStream) returns (ended: bool)
      requires stream.Valid() && !stream.failed && 0 < |stream.data| <= MAX_BUFFERED_BYTES
      modifies stream
      ensures stream.Valid() && stream.Good() && stream.data == old(stream.data)
      ensures ended <==> stream.data[|stream.data| - 1] == config.lineBreak
    {
      stream.SeekEnd();
      var size := stream.Tellg();
      var lastCharIndex := ToInt32(size) - 1;
      stream.SeekFromBegin(lastCharIndex);
      var last := stream.Get();
      ended := last == config.lineBreak as int;
    }

    /** The text from `start` on has complete lines `lines` and unfinished line `rest`. */
    ghost predicate SplitsAs(text: string, start: nat, lines: seq<string>, rest: string) {
      && start <= |text|
      && Complete(text[start..], config.lineBreak) == lines
      && Rest(text[start..], config.lineBreak) == rest
    }

    /** What a `getline` from `start` finds: a line, */
    lemma LineOfSplit(text: string, start: nat, k: nat, lines: seq<string>, rest: string)
      requires SplitsAs(text, start, lines, rest) && k == Find(text[start..], config.lineBreak) < |text| - start
      ensures lines != [] && text[start..][..k] == lines[0] && SplitsAs(text, start + k + 1, lines[1..], rest)
    {
      NextLine(text, start, k, config.lineBreak);
    }

    /** or the unfinished rest. */
    lemma RestOfSplit(text: string, start: nat, lines: seq<string>, rest: string)
      requires SplitsAs(text, start, lines, rest) && Find(text[start..], config.lineBreak) == |text| - start
      ensures lines == [] && text[start..] == rest && config.lineBreak !in rest
    {
      LastLine(text[start..], config.lineBreak);
    }

    /** One `getline`: takes the next complete line, or what is left, or nothing. */
    method ScanLine(stream: StringStream, ghost lines: seq<string>, ghost rest: string) returns (ok: bool, line: string)
      requires stream.Valid() && stream.Good() && SplitsAs(stream.data, stream.pos, lines, rest)
      modifies stream
      ensures stream.Valid() && stream.data == old(stream.data) && ok == !stream.failed
      ensures ok && !stream.eof ==>
        lines != [] && line == lines[0] && old(stream.pos) < stream.pos
        && SplitsAs(stream.data, stream.pos, lines[1..], rest)
      ensures ok && stream.eof ==>
        lines == [] && line == rest == old(stream.data[stream.pos..]) != "" && config.lineBreak !in line
      ensures !ok ==> lines == [] && rest == "" && stream.pos == |stream.data|
    {
      ghost var k := Find(stream.data[stream.pos..], config.lineBreak);
      if k < |stream.data| - stream.pos {
        LineOfSplit(stream.data, stream.pos, k, lines, rest);
      } else {
        RestOfSplit(stream.data, stream.pos, lines, rest);
      }
      ok, line := stream.GetLine(config.lineBreak);
    }

    /** Moves the cursor back to the start of the unfinished line. */
    method ReturnTo(stream: StringStream, cursor: int)
      requires stream.Valid() && !stream.failed && 0 <= cursor <= |stream.data|
      modifies stream
      ensures stream.Valid() && stream.Good() && stream.data == old(stream.data) && stream.pos == cursor
    {
      stream.SeekFromBegin(0);
      stream.SeekFromCurrent(cursor);
    }

    /** The scanning loop of `AddCsvChunk`: queues every complete line and leaves the stream
        at the start of the unfinished one, or failed when there is none. */
    method ScanRows(currentData: StringStream) returns (result: ExecutionResult)
      requires currentData.Valid() && currentData.Good() && currentData.pos == 0
      requires |currentData.data| <= MAX_BUFFERED_BYTES && |rows| <= QUEUE_CAPACITY
      modifies currentData, this`rows
      ensures currentData.Valid() && currentData.data == old(currentData.data)
      ensures
        var text, room := currentData.data, QUEUE_CAPACITY - |old(rows)|;
        var lines, rest := Complete(text, config.lineBreak), Rest(text, config.lineBreak);
        if |lines| <= room then
          && result == Success && rows == old(rows) + lines
          && (currentData.failed <==> rest == "")
          && text[currentData.pos..] == rest
        else
          result == Failure(QueueFull) && rows == old(rows) + lines[..room]
    {
      var lineBreak := config.lineBreak;
      ghost var text := currentData.data;
      ghost var rest := Rest(text, lineBreak);
      ghost var done: seq<string>, left := [], Complete(text, lineBreak);
      var rollingCursor := currentData.Tellg();
      assert text[0..] == text;
      var ok, line := ScanLine(currentData, left, rest);
      while ok
        invariant currentData.Valid() && currentData.data == text && ok == !currentData.failed
        invariant 0 <= rollingCursor <= |text|
        invariant Complete(text, lineBreak) == done + left
        invariant rows == old(rows) + done && |rows| <= QUEUE_CAPACITY
        invariant ok && !currentData.eof ==> left != [] && left[0] == line
        invariant ok && !currentData.eof ==> SplitsAs(text, currentData.pos, left[1..], rest)
        invariant ok && currentData.eof ==> left == [] && text[rollingCursor..] == line == rest != ""
        invariant ok && currentData.eof ==> lineBreak !in line
        invariant !ok ==> left == [] && rest == "" && currentData.pos == |text|
        decreases |left|
      {
        if currentData.eof {
          var ended := EndsInLineBreak(currentData);
          if !ended {
            ReturnTo(currentData, rollingCursor);
            assert done + left == done;
            return Success;
          } else {
            // The text just read holds no line break, so its last character is none.
            assert false;
          }
        } else {
          MoveFirst(done, left);
          var queued := TryEnqueue(line);
          if queued != Success {
            assert (done + left)[..|done|] == done;
            return queued;
          }
          Regroup(old(rows), done, [line]);
          done, left := done + [line], left[1..];
          rollingCursor := currentData.Tellg();
        }
        ok, line := ScanLine(currentData, left, rest);
      }
      assert done + left == done;
      return Success;
    }

    /** Scans the tail and the new chunk for complete rows. */
    method AddCsvChunk(chunk: string) returns (result: ExecutionResult)
      requires Valid()
      modifies this, rollingData
      ensures Valid()
      ensures (Contents(), result) == AddChunk(config, old(Contents()), chunk)
    {
      if |chunk| + bufferedDataSize > config.maxBuffered {
        return Retry(BufferAtCapacity);
      }
      bufferedDataSize := bufferedDataSize + |chunk|;
      var currentData := new StringStream.MoveFrom(rollingData);
      currentData.Insert(chunk);
      ghost var before := old(Contents());
      AddChunkConsistent(config, before, chunk);
      assert currentData.data == before.tail + chunk;
      result := ScanRows(currentData);
      if result != Success {
        assert Contents() == AddChunk(config, before, chunk).0;
        return result;
      }
      rollingData.Clear();
      if !currentData.failed {
        rollingData.InsertBuffer(currentData);
      }
      assert rollingData.data == Rest(before.tail + chunk, config.lineBreak);
      assert Contents() == AddChunk(config, before, chunk).0;
      return Success;
    }

    method HasRow() returns (has: bool)
      ensures has <==> rows != []
    {
      return |rows| > 0;
    }

    /** Takes the oldest row off the queue, gives its bytes back and parses it. */
    method GetNextRow() returns (row: ResultOr<CsvRow>)
      requires Valid()
      modifies this
      ensures Valid()
      ensures (Contents(), row) == NextRow(config, old(Contents()))
      ensures old(rows) != [] ==> bufferedDataSize == old(bufferedDataSize) - (|old(rows)[0]| + 1)
      ensures old(rows) == [] ==> row == Err(Failure(NoRowAvailable)) && Contents() == old(Contents())
    {
      var has := HasRow();
      if !has {
        return Err(Failure(NoRowAvailable));
      }
      NextRowConsistent(config, Contents());
      var line := rows[0];
      rows := rows[1..];
      bufferedDataSize := SizeSub(bufferedDataSize, |line| + 1);
      row := Build(line, config.numCols, config.removeWhitespace, config.delimiter);
    }

    method GetBufferedDataSize() returns (size: nat)
      ensures size == bufferedDataSize
    {
      return bufferedDataSize;
    }
  }
}

/** Fetching the publisher's id list: one parser serves every job of the process. */
module Fetcher {
  import opened Results
  import opened Lines
  import opened Whitespace
  import opened Rows
  import opened Parser

  /** One column per row, whitespace removed, comma and newline, the largest buffer. */
  const ID_LIST_CONFIG := MakeConfig(1, true, ',', '\n', MAX_BUFFERED_BYTES)

  /** A row that holds exactly one id. */
  predicate IsIdRow(row: string) {
    row != "" && ',' !in row
  }

  ghost predicate AreIdRows(rows: seq<string>) {
    forall i :: 0 <= i < |rows| ==> IsIdRow(rows[i])
  }

  lemma IdRowParses(row: string)
    ensures BuildRow(row, 1, true, ',') ==
      if IsIdRow(row) then Ok(CsvRow([Normalize(row)])) else Err(Failure(UnexpectedNumberOfColumns))
  {
    BuildSucceedsIff(row, 1, true, ',');
    if IsIdRow(row) {
      FindNone(row, ',');
      assert Rest(row, ',') == row;
      assert RawColumns(row, ',') == [row];
      assert NormalizeAll([row]) == [Normalize(row)];
    }
  }

  /** How many rows hold an id before the first one that does not. */
  function Leading(rows: seq<string>): (n: nat)
    ensures n <= |rows| && forall i :: 0 <= i < n ==> IsIdRow(rows[i])
    ensures n < |rows| ==> !IsIdRow(rows[n])
  {
    if rows == [] || !IsIdRow(rows[0]) then 0 else 1 + Leading(rows[1..])
  }

  lemma {:induction false} LeadingIs(rows: seq<string>, n: nat)
    requires n <= |rows| && (forall i :: 0 <= i < n ==> IsIdRow(rows[i])) && (n < |rows| ==> !IsIdRow(rows[n]))
    ensures Leading(rows) == n
  {
  }

  /** Draining the parser: the ids of the leading id rows are the answer. The first other row ends the
      loop and is lost; the rows after it stay queued. */
  function DrainIds(p: ParserState): (ParserState, seq<string>) {
    var ids := Leading(p.rows);
    var taken := if ids < |p.rows| then ids + 1 else ids;
    (ParserState(p.rows[taken..], p.tail, SizeSub(p.buffered, |Unlines(p.rows[..taken], '\n')|)),
     NormalizeAll(p.rows[..ids]))
  }

  /** What one `FetchPublisherIds` does to the parser and returns, given the blob client's answer. */
  function Fetch(p: ParserState, blob: ResultOr<string>): (ParserState, ResultOr<seq<string>>) {
    if blob.Err? then (p, Err(blob.result))
    else
      var (q, added) := AddChunk(ID_LIST_CONFIG, p, blob.value);
      if added != Success then (q, Err(added)) else Drained(q)
  }

  /** What is answered once the blob has been added. */
  function Drained(p: ParserState): (ParserState, ResultOr<seq<string>>) {
    (DrainIds(p).0, Ok(DrainIds(p).1))
  }

  /** The parser after `taken` rows were taken off `start`. */
  ghost predicate Took(start: ParserState, now: ParserState, taken: nat) {
    && taken <= |start.rows|
    && now.rows == start.rows[taken..] && now.tail == start.tail
    && now.buffered == start.buffered - |Unlines(start.rows[..taken], '\n')|
  }

  lemma TookOneMore(start: ParserState, now: ParserState, next: ParserState, taken: nat)
    requires Took(start, now, taken) && taken < |start.rows| && next.tail == now.tail
    requires next.rows == now.rows[1..] && next.buffered == now.buffered - (|now.rows[0]| + 1)
    ensures Took(start, next, taken + 1)
  {
    assert start.rows[..taken + 1] == start.rows[..taken] + [start.rows[taken]];
    UnlinesAppend(start.rows[..taken], [start.rows[taken]], '\n');
    UnlinesOne(start.rows[taken], '\n');
  }

  /** `ids` are the normal forms of as many leading rows, all of them id rows. */
  ghost predicate Collected(rows: seq<string>, ids: seq<string>) {
    && |ids| <= |rows|
    && ids == NormalizeAll(rows[..|ids|])
    && forall i :: 0 <= i < |ids| ==> IsIdRow(rows[i])
  }

  lemma CollectedOneMore(rows: seq<string>, ids: seq<string>)
    requires Collected(rows, ids) && |ids| < |rows| && IsIdRow(rows[|ids|])
    ensures Collected(rows, ids + [Normalize(rows[|ids|])])
  {
    assert rows[..|ids| + 1] == rows[..|ids|] + [rows[|ids|]];
  }

  /** The drain has collected `ids` and last asked for the row after them: it is an id row, or none, or no id row. */
  ghost predicate Draining(rows: seq<string>, ids: seq<string>, taken: nat, row: ResultOr<CsvRow>) {
    && Collected(rows, ids)
    && match row
       case Ok(parsed) =>
         && |ids| < |rows| && taken == |ids| + 1
         && IsIdRow(rows[|ids|]) && parsed == CsvRow([Normalize(rows[|ids|])])
       case Err(_) =>
         if |ids| < |rows| then taken == |ids| + 1 && !IsIdRow(rows[|ids|]) else taken == |ids|
  }

  lemma DrainEnds(start: ParserState, now: ParserState, ids: seq<string>, taken: nat, row: ResultOr<CsvRow>)
    requires Took(start, now, taken) && Draining(start.rows, ids, taken, row) && row.Err?
    requires |Unlines(start.rows, '\n')| <= start.buffered <= MAX_BUFFERED_BYTES
    ensures DrainIds(start) == (now, ids)
  {
    LeadingIs(start.rows, |ids|);
    UnlinesCut(start.rows, taken, '\n');
    SizeSubExact(start.buffered, |Unlines(start.rows[..taken], '\n')|);
  }

  class GcsPublisherListFetcher {
    const csvParser: CsvStreamParser

    ghost predicate Valid()
      reads this, csvParser, csvParser.rollingData
    {
      csvParser.Valid() && csvParser.config == ID_LIST_CONFIG
    }

    constructor ()
      ensures Valid() && fresh(csvParser) && fresh(csvParser.rollingData)
      ensures csvParser.Contents() == EMPTY
    {
      csvParser := new CsvStreamParser(ID_LIST_CONFIG);
    }

    method FetchPublisherIds(blob: ResultOr<string>) returns (response: ResultOr<seq<string>>)
      requires Valid()
      modifies csvParser, csvParser.rollingData
      ensures Valid()
      ensures (csvParser.Contents(), response) == Fetch(old(csvParser.Contents()), blob)
    {
      if blob.Err? {
        return Err(blob.result);
      }
      var added := csvParser.AddCsvChunk(blob.value);
      if added != Success {
        return Err(added);
      }
      response := CollectIds();
    }

    /** The loop of `FetchPublisherIds` over the rows that can be had. */
    method CollectIds() returns (response: ResultOr<seq<string>>)
      requires Valid()
      modifies csvParser, csvParser.rollingData
      ensures Valid()
      ensures csvParser.Contents() == DrainIds(old(csvParser.Contents())).0
      ensures response == Ok(DrainIds(old(csvParser.Contents())).1)
    {
      ghost var start, taken := csvParser.Contents(), 0;
      var ids: seq<string> := [];
      var row: ResultOr<CsvRow>;
      row, taken := NextIdRow(start, 0);
      while row.Ok?
        invariant Valid() && Took(start, csvParser.Contents(), taken)
        invariant Draining(start.rows, ids, taken, row)
        decreases row.Ok?, |csvParser.rows|
      {
        var id := row.value.GetColumn(0);
        if id.Err? {
          // Every parsed row has its one column.
          assert false;
        }
        CollectedOneMore(start.rows, ids);
        ids := ids + [id.value];
        row, taken := NextIdRow(start, taken);
      }
      DrainEnds(start, csvParser.Contents(), ids, taken, row);
      return Ok(ids);
    }

    method NextIdRow(ghost start: ParserState, ghost taken: nat)
      returns (row: ResultOr<CsvRow>, ghost taken': nat)
      requires Valid() && Took(start, csvParser.Contents(), taken)
      modifies csvParser
      ensures Valid() && Took(start, csvParser.Contents(), taken')
      ensures taken == |start.rows| ==> row.Err? && taken' == taken
      ensures taken < |start.rows| ==> taken' == taken + 1 && |csvParser.rows| < |old(csvParser.rows)|
      ensures taken < |start.rows| ==>
        row == if IsIdRow(start.rows[taken]) then Ok(CsvRow([Normalize(start.rows[taken])]))
               else Err(Failure(UnexpectedNumberOfColumns))
    {
      ghost var now := csvParser.Contents();
      taken' := taken;
      row := csvParser.GetNextRow();
      if taken < |start.rows| {
        IdRowParses(start.rows[taken]);
        TookOneMore(start, now, csvParser.Contents(), taken);
        taken' := taken + 1;
      }
    }
  }

  /** A list the fetcher reads in full: it fits, ends in a line break, and every line is one id. */
  ghost predicate IsIdList(blob: string) {
    && |blob| <= MAX_BUFFERED_BYTES
    && |Complete(blob, '\n')| <= QUEUE_CAPACITY
    && Rest(blob, '\n') == ""
    && forall i :: 0 <= i < |Complete(blob, '\n')| ==> IsIdRow(Complete(blob, '\n')[i])
  }

  /** The ids are those of the rows before the first one that is no id row; that one is lost, those after it stay. */
  ghost predicate DrainsTo(rows: seq<string>, ids: seq<string>, left: seq<string>) {
    && |ids| <= |rows|
    && (forall i :: 0 <= i < |ids| ==> IsIdRow(rows[i]) && ids[i] == Normalize(rows[i]))
    && if |ids| == |rows| then left == [] else !IsIdRow(rows[|ids|]) && left == rows[|ids| + 1..]
  }

  /** What a fetch answers and leaves, whatever is in the parser and whatever the client answers: the client's own
      error; or the error of a blob that does not fit beside what is counted; or, when the lines of tail and blob
      do not fit the row queue, the error of that, with the queue filled up; or a success with the leading ids.
      The parser stays fit for the next fetch. */
  lemma FetchAnswers(p: ParserState, blob: ResultOr<string>)
    requires Consistent(ID_LIST_CONFIG, p)
    ensures
      var (q, response) := Fetch(p, blob);
      match blob
      case Err(error) => response == Err(error) && q == p
      case Ok(text) =>
        var lines, room := Complete(p.tail + text, '\n'), QUEUE_CAPACITY - |p.rows|;
        if p.buffered + |text| > MAX_BUFFERED_BYTES then
          response == Err(Retry(BufferAtCapacity)) && q == p
        else if |lines| > room then
          response == Err(Failure(QueueFull)) && q.rows == p.rows + lines[..room] && q.tail == ""
        else
          response.Ok? && DrainsTo(p.rows + lines, response.value, q.rows) && q.tail == Rest(p.tail + text, '\n')
    ensures Consistent(ID_LIST_CONFIG, Fetch(p, blob).0)
  {
    if blob.Ok? {
      AddChunkConsistent(ID_LIST_CONFIG, p, blob.value);
      DrainConsistent(AddChunk(ID_LIST_CONFIG, p, blob.value).0);
    }
  }

  lemma DrainConsistent(p: ParserState)
    requires Consistent(ID_LIST_CONFIG, p)
    ensures Consistent(ID_LIST_CONFIG, DrainIds(p).0)
  {
    var ids := Leading(p.rows);
    var taken := if ids < |p.rows| then ids + 1 else ids;
    UnlinesCut(p.rows, taken, '\n');
    SizeSubExact(p.buffered, |Unlines(p.rows[..taken], '\n')|);
  }

  /** On an empty parser, a fetch returns exactly the blob's normalised lines, in order, and leaves
      the parser empty (no row, no tail, counter zero), if and only if the blob is an id list. */
  lemma FetchExact(blob: string)
    ensures Fetch(EMPTY, Ok(blob)) == (EMPTY, Ok(NormalizeAll(Complete(blob, '\n')))) <==> IsIdList(blob)
  {
    if |blob| <= MAX_BUFFERED_BYTES && |Complete(blob, '\n')| <= QUEUE_CAPACITY {
      FetchDrains(blob, Complete(blob, '\n'), Rest(blob, '\n'));
    } else {
      FetchRefused(EMPTY, blob);
    }
  }

  lemma FetchDrains(blob: string, lines: seq<string>, rest: string)
    requires lines == Complete(blob, '\n') && rest == Rest(blob, '\n')
    requires |blob| <= MAX_BUFFERED_BYTES && |lines| <= QUEUE_CAPACITY
    ensures Fetch(EMPTY, Ok(blob)) == (EMPTY, Ok(NormalizeAll(lines)))
      <==> rest == "" && forall i :: 0 <= i < |lines| ==> IsIdRow(lines[i])
  {
    FetchOnEmpty(blob, lines, rest);
    SplitJoins(blob, '\n');
    DrainExact(lines, rest, |blob|);
  }

  lemma FetchOnEmpty(blob: string, lines: seq<string>, rest: string)
    requires lines == Complete(blob, '\n') && rest == Rest(blob, '\n')
    requires |blob| <= MAX_BUFFERED_BYTES && |lines| <= QUEUE_CAPACITY
    ensures Fetch(EMPTY, Ok(blob)) == Drained(ParserState(lines, rest, |blob|))
  {
    assert [] + lines == lines;
    assert WithBlob(EMPTY, blob) == ParserState(lines, rest, |blob|);
    FetchAccepted(EMPTY, blob);
  }

  lemma FetchRefused(p: ParserState, blob: string)
    requires p.tail == ""
    requires p.buffered + |blob| > MAX_BUFFERED_BYTES || |p.rows| + |Complete(blob, '\n')| > QUEUE_CAPACITY
    ensures Fetch(p, Ok(blob)).1.Err?
  {
    assert "" + blob == blob;
  }

  lemma DrainExact(lines: seq<string>, rest: string, buffered: nat)
    requires buffered == |Unlines(lines, '\n')| + |rest| <= MAX_BUFFERED_BYTES
    ensures DrainIds(ParserState(lines, rest, buffered)) == (EMPTY, NormalizeAll(lines))
      <==> rest == "" && forall i :: 0 <= i < |lines| ==> IsIdRow(lines[i])
  {
    if Leading(lines) == |lines| {
      DrainEverything(lines, rest, buffered);
    } else {
      LeadingShort(lines);
      assert |DrainIds(ParserState(lines, rest, buffered)).1| < |lines|;
    }
  }

  /** The parser, which has no tail, with the lines and the rest of an accepted blob added. */
  function WithBlob(p: ParserState, blob: string): ParserState {
    ParserState(p.rows + Complete(blob, '\n'), Rest(blob, '\n'), p.buffered + |blob|)
  }

  lemma ChunkAccepted(p: ParserState, blob: string)
    requires p.tail == "" && p.buffered + |blob| <= MAX_BUFFERED_BYTES
    requires |p.rows| + |Complete(blob, '\n')| <= QUEUE_CAPACITY
    ensures AddChunk(ID_LIST_CONFIG, p, blob) == (WithBlob(p, blob), Success)
  {
    assert "" + blob == blob;
  }

  /** An accepted blob on a parser without a tail is drained line by line. */
  lemma FetchAccepted(p: ParserState, blob: string)
    requires p.tail == "" && p.buffered + |blob| <= MAX_BUFFERED_BYTES
    requires |p.rows| + |Complete(blob, '\n')| <= QUEUE_CAPACITY
    ensures Fetch(p, Ok(blob)) == Drained(WithBlob(p, blob))
  {
    ChunkAccepted(p, blob);
  }

  lemma DrainEverything(lines: seq<string>, rest: string, buffered: nat)
    requires Leading(lines) == |lines| && buffered == |Unlines(lines, '\n')| + |rest| <= MAX_BUFFERED_BYTES
    ensures DrainIds(ParserState(lines, rest, buffered)) == (ParserState([], rest, |rest|), NormalizeAll(lines))
  {
    SizeSubExact(buffered, |Unlines(lines, '\n')|);
    assert lines[..|lines|] == lines && lines[|lines|..] == [];
  }

  lemma {:induction false} LeadingShort(rows: seq<string>)
    requires Leading(rows) < |rows|
    ensures !(forall i :: 0 <= i < |rows| ==> IsIdRow(rows[i]))
  {
    assert !IsIdRow(rows[Leading(rows)]);
  }

  /** The answers of a sequence of fetches on one parser. */
  function FetchAll(p: ParserState, blobs: seq<string>): (ParserState, seq<ResultOr<seq<string>>>)
    decreases blobs
  {
    if blobs == [] then (p, [])
    else
      var (q, response) := Fetch(p, Ok(blobs[0]));
      var (end, later) := FetchAll(q, blobs[1..]);
      (end, [response] + later)
  }

  lemma FetchAllNext(p: ParserState, blobs: seq<string>, q: ParserState, response: ResultOr<seq<string>>)
    requires blobs != [] && Fetch(p, Ok(blobs[0])) == (q, response)
    ensures FetchAll(p, blobs) == (FetchAll(q, blobs[1..]).0, [response] + FetchAll(q, blobs[1..]).1)
  {
  }

  /** The answer a fetch owes its own blob. */
  function Answer(blob: string): ResultOr<seq<string>> {
    Ok(NormalizeAll(Complete(blob, '\n')))
  }

  lemma FetchesItsOwn(blob: string)
    requires IsIdList(blob)
    ensures Fetch(EMPTY, Ok(blob)) == (EMPTY, Answer(blob))
  {
    FetchExact(blob);
  }

  lemma AnswersNext(blobs: seq<string>, responses: seq<ResultOr<seq<string>>>)
    requires blobs != [] && |responses| == |blobs| - 1
    requires forall i :: 0 <= i < |responses| ==> responses[i] == Answer(blobs[1..][i])
    ensures forall i :: 0 <= i < |blobs| ==> ([Answer(blobs[0])] + responses)[i] == Answer(blobs[i])
  {
    forall i | 0 <= i < |blobs| ensures ([Answer(blobs[0])] + responses)[i] == Answer(blobs[i]) {
      if i > 0 {
        assert responses[i - 1] == Answer(blobs[1..][i - 1]);
      }
    }
  }

  /** Jobs do not see each other: over any sequence of id lists, each fetch answers with its own
      blob's normalised lines, and the shared parser ends empty. */
  lemma {:induction false} JobsAreIndependent(blobs: seq<string>)
    requires forall i :: 0 <= i < |blobs| ==> IsIdList(blobs[i])
    ensures FetchAll(EMPTY, blobs).0 == EMPTY
    ensures |FetchAll(EMPTY, blobs).1| == |blobs|
    ensures forall i :: 0 <= i < |blobs| ==> FetchAll(EMPTY, blobs).1[i] == Answer(blobs[i])
  {
    if blobs != [] {
      FetchesItsOwn(blobs[0]);
      JobsAreIndependent(blobs[1..]);
      FetchAllNext(EMPTY, blobs, EMPTY, Answer(blobs[0]));
      AnswersNext(blobs, FetchAll(EMPTY, blobs[1..]).1);
    }
  }

  /** A parser that holds whole rows only. */
  function HoldsRows(rows: seq<string>): ParserState {
    ParserState(rows, "", |Unlines(rows, '\n')|)
  }

  /** Draining stops at the first row that is no id row, and loses it. */
  lemma DrainStops(rows: seq<string>, n: nat, buffered: nat)
    requires n < |rows| && !IsIdRow(rows[n]) && forall i :: 0 <= i < n ==> IsIdRow(rows[i])
    requires buffered == |Unlines(rows, '\n')| <= MAX_BUFFERED_BYTES
    ensures DrainIds(ParserState(rows, "", buffered))
      == (HoldsRows(rows[n + 1..]), NormalizeAll(rows[..n]))
  {
    LeadingIs(rows, n);
    UnlinesCut(rows, n + 1, '\n');
    SizeSubExact(buffered, |Unlines(rows[..n + 1], '\n')|);
  }

  lemma DrainAll(rows: seq<string>, buffered: nat)
    requires buffered == |Unlines(rows, '\n')| <= MAX_BUFFERED_BYTES && AreIdRows(rows)
    ensures DrainIds(ParserState(rows, "", buffered)) == (EMPTY, NormalizeAll(rows))
  {
    LeadingIs(rows, |rows|);
    DrainEverything(rows, "", buffered);
  }

  /** A blob of whole lines is queued behind the rows that are still there, and then drained. */
  lemma FetchLines(left: seq<string>, lines: seq<string>)
    requires AllFree(lines, '\n') && |left + lines| <= QUEUE_CAPACITY
    requires |Unlines(left + lines, '\n')| <= MAX_BUFFERED_BYTES
    ensures Fetch(HoldsRows(left), Ok(Unlines(lines, '\n'))) == Drained(HoldsRows(left + lines))
  {
    SplitWhole(lines, '\n');
    UnlinesAppend(left, lines, '\n');
    FetchAccepted(HoldsRows(left), Unlines(lines, '\n'));
    assert WithBlob(HoldsRows(left), Unlines(lines, '\n')) == HoldsRows(left + lines);
  }

  /** A fetch whose blob has a row that is no id row: the rows after it are still queued. */
  lemma FetchCutShort(rows: seq<string>, n: nat)
    requires AllFree(rows, '\n') && |rows| <= QUEUE_CAPACITY && |Unlines(rows, '\n')| <= MAX_BUFFERED_BYTES
    requires n < |rows| && !IsIdRow(rows[n]) && forall i :: 0 <= i < n ==> IsIdRow(rows[i])
    ensures Fetch(EMPTY, Ok(Unlines(rows, '\n')))
      == (HoldsRows(rows[n + 1..]), Ok(NormalizeAll(rows[..n])))
  {
    assert [] + rows == rows;
    FetchLines([], rows);
    DrainStops(rows, n, |Unlines(rows, '\n')|);
  }

  /** The next fetch answers with the rows that are still queued and then with its own. */
  lemma FetchWithLeftovers(left: seq<string>, more: seq<string>)
    requires AllFree(more, '\n') && |left + more| <= QUEUE_CAPACITY
    requires |Unlines(left + more, '\n')| <= MAX_BUFFERED_BYTES
    requires AreIdRows(left + more)
    ensures Fetch(HoldsRows(left), Ok(Unlines(more, '\n')))
      == (EMPTY, Ok(NormalizeAll(left + more)))
  {
    FetchLines(left, more);
    DrainAll(left + more, |Unlines(left + more, '\n')|);
  }

  /** Otherwise jobs do see each other: the first row that is no id row cuts its own job short, without an error,
      and hands all the rows after it to the next job. */
  lemma MalformedLineLeaks(rows: seq<string>, n: nat, more: seq<string>)
    requires AllFree(rows, '\n') && |rows| <= QUEUE_CAPACITY && |Unlines(rows, '\n')| <= MAX_BUFFERED_BYTES
    requires n < |rows| && !IsIdRow(rows[n]) && forall i :: 0 <= i < n ==> IsIdRow(rows[i])
    requires AllFree(more, '\n') && |rows[n + 1..] + more| <= QUEUE_CAPACITY
    requires |Unlines(rows[n + 1..] + more, '\n')| <= MAX_BUFFERED_BYTES
    requires AreIdRows(rows[n + 1..] + more)
    ensures FetchAll(EMPTY, [Unlines(rows, '\n'), Unlines(more, '\n')])
      == (EMPTY, [Ok(NormalizeAll(rows[..n])), Ok(NormalizeAll(rows[n + 1..] + more))])
  {
    FetchCutShort(rows, n);
    FetchWithLeftovers(rows[n + 1..], more);
    TwoFetches(Unlines(rows, '\n'), Unlines(more, '\n'),
               HoldsRows(rows[n + 1..]), EMPTY,
               Ok(NormalizeAll(rows[..n])), Ok(NormalizeAll(rows[n + 1..] + more)));
  }

  /** The unfinished line of one blob and the first line of the next are one row. */
  function Glued(tail: string, more: seq<string>): seq<string>
    requires more != []
  {
    [tail + more[0]] + more[1..]
  }

  lemma GluedLines(tail: string, more: seq<string>)
    requires more != [] && '\n' !in tail && AllFree(more, '\n')
    ensures tail + Unlines(more, '\n') == Unlines(Glued(tail, more), '\n') && AllFree(Glued(tail, more), '\n')
  {
    UnlinesCons(tail + more[0], more[1..], '\n');
    Regroup(tail, more[0] + ['\n'], Unlines(more[1..], '\n'));
    Regroup(tail, more[0], ['\n']);
  }

  /** A fetch of whole lines on a parser that holds an unfinished line only. */
  lemma FetchAfterTail(tail: string, more: seq<string>)
    requires more != [] && '\n' !in tail && AllFree(more, '\n') && AreIdRows(Glued(tail, more))
    requires |more| <= QUEUE_CAPACITY && |tail| + |Unlines(more, '\n')| <= MAX_BUFFERED_BYTES
    ensures Fetch(ParserState([], tail, |tail|), Ok(Unlines(more, '\n')))
      == (EMPTY, Ok(NormalizeAll(Glued(tail, more))))
  {
    var p, rows, blob := ParserState([], tail, |tail|), Glued(tail, more), Unlines(more, '\n');
    GluedLines(tail, more);
    SplitWhole(rows, '\n');
    assert [] + rows == rows;
    assert AddChunk(ID_LIST_CONFIG, p, blob) == (ParserState(rows, "", |tail| + |blob|), Success);
    DrainAll(rows, |tail| + |blob|);
  }

  /** An unfinished last line is no error either: its job does not answer with it, and it becomes the beginning of the
      first id of the next job. */
  lemma UnterminatedLineLeaks(blob: string, more: seq<string>)
    requires |blob| <= MAX_BUFFERED_BYTES && |Complete(blob, '\n')| <= QUEUE_CAPACITY && AreIdRows(Complete(blob, '\n'))
    requires more != [] && AllFree(more, '\n') && |more| <= QUEUE_CAPACITY && AreIdRows(Glued(Rest(blob, '\n'), more))
    requires |Rest(blob, '\n')| + |Unlines(more, '\n')| <= MAX_BUFFERED_BYTES
    ensures FetchAll(EMPTY, [blob, Unlines(more, '\n')])
      == (EMPTY, [Answer(blob), Ok(NormalizeAll(Glued(Rest(blob, '\n'), more)))])
  {
    var lines, tail := Complete(blob, '\n'), Rest(blob, '\n');
    SplitJoins(blob, '\n');
    LeadingIs(lines, |lines|);
    FetchOnEmpty(blob, lines, tail);
    DrainEverything(lines, tail, |blob|);
    FetchAfterTail(tail, more);
    TwoFetches(blob, Unlines(more, '\n'), ParserState([], tail, |tail|), EMPTY,
               Answer(blob), Ok(NormalizeAll(Glued(tail, more))));
  }

  lemma TwoFetches(first: string, second: string, p: ParserState, q: ParserState,
                   one: ResultOr<seq<string>>, two: ResultOr<seq<string>>)
    requires Fetch(EMPTY, Ok(first)) == (p, one) && Fetch(p, Ok(second)) == (q, two)
    ensures FetchAll(EMPTY, [first, second]) == (q, [one, two])
  {
    assert [first, second][1..] == [second] && [second][1..] == [];
    assert [two] + [] == [two] && [one] + [two] == [one, two];
    FetchAllNext(EMPTY, [first, second], p, one);
    FetchAllNext(p, [second], q, two);
  }
}

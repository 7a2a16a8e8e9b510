/** The whole data path: a publisher list is fetched, paired with UUIDs, printed and parsed back;
    an advertiser list is downloaded, matched against it, and the UUIDs of its ids are uploaded. */
module EndToEnd {
  import opened Results
  import opened Lines
  import opened Whitespace
  import opened Rows
  import opened Parser
  import opened MatchTable
  import opened Fetcher
  import opened Worker
  import opened Mapping
  import Upload
  import Pipeline
  import Progress
  import Outputs
  import Matching
  import ExportSystem
  import Schedules

  /** The UUID an id was paired with. */
  function UuidOf(pairs: seq<PlaintextAndEncrypted>, id: string): Option<Uuid> {
    if pairs == [] then None
    else if pairs[0].plaintext == id then Some(pairs[0].encryptedId)
    else UuidOf(pairs[1..], id)
  }

  /** One line of the join: the UUID of an advertiser row's id, if the publisher has that id. */
  function JoinLine(pairs: seq<PlaintextAndEncrypted>, row: string): string {
    match UuidOf(pairs, Normalize(row))
    case None => ""
    case Some(uuid) => uuid + "\n"
  }

  /** The join of a publisher mapping with advertiser rows: in row order, with repetitions. */
  function Join(pairs: seq<PlaintextAndEncrypted>, rows: seq<string>): string {
    if rows == [] then "" else Join(pairs, rows[..|rows| - 1]) + JoinLine(pairs, rows[|rows| - 1])
  }

  lemma {:induction false} UuidOfIs(pairs: seq<PlaintextAndEncrypted>, id: string)
    requires DistinctIds(pairs)
    ensures forall i :: 0 <= i < |pairs| && pairs[i].plaintext == id ==> UuidOf(pairs, id) == Some(pairs[i].encryptedId)
    ensures (forall i :: 0 <= i < |pairs| ==> pairs[i].plaintext != id) ==> UuidOf(pairs, id) == None
  {
    if pairs != [] {
      var rest := pairs[1..];
      forall i, j | 0 <= i < j < |rest| ensures rest[i].plaintext != rest[j].plaintext {
        assert pairs[i + 1].plaintext != pairs[j + 1].plaintext;
      }
      UuidOfIs(rest, id);
      forall i | 0 <= i < |pairs| && pairs[i].plaintext == id
        ensures UuidOf(pairs, id) == Some(pairs[i].encryptedId)
      {
        if i > 0 {
          assert rest[i - 1].plaintext == id && pairs[0].plaintext != pairs[i].plaintext;
        }
      }
    }
  }

  lemma {:induction false} EmitIsJoin(table: Table, pairs: seq<PlaintextAndEncrypted>, rows: seq<string>)
    requires Holds(table, pairs) && DistinctIds(pairs)
    ensures Emit(table, rows) == Join(pairs, rows)
  {
    if rows != [] {
      EmitIsJoin(table, pairs, rows[..|rows| - 1]);
      var key := Normalize(rows[|rows| - 1]);
      UuidOfIs(pairs, key);
      if key in table {
        var i :| 0 <= i < |pairs| && pairs[i].plaintext == key;
      }
    }
  }

  /** What a fetched id list holds survives printing and parsing. */
  lemma FetchedIdsArePlain(blob: string)
    requires IsIdList(blob)
    ensures forall i :: 0 <= i < |Complete(blob, '\n')| ==> IsPlainId(NormalizeAll(Complete(blob, '\n'))[i])
  {
    var lines := Complete(blob, '\n');
    SplitJoins(blob, '\n');
    forall i | 0 <= i < |lines| ensures IsPlainId(NormalizeAll(lines)[i]) {
      NormalizeIsNormal(lines[i]);
      assert IsIdRow(lines[i]);
    }
  }

  ghost predicate Distinct(ids: seq<string>) {
    forall i, j :: 0 <= i < j < |ids| ==> ids[i] != ids[j]
  }

  /** The ids of a publisher blob. */
  function IdsOf(blob: string): seq<string> {
    NormalizeAll(Complete(blob, '\n'))
  }

  /** What the generator produces from a blob in one of the sessions of a history, whatever may have failed in it. */
  ghost predicate Generates(blob: string, history: seq<Pipeline.Step>, output: Pipeline.Output) {
    && IsIdList(blob)
    && Outputs.SessionsBeginClean(Pipeline.INITIAL, history)
    && output in Pipeline.Exec(Pipeline.INITIAL, history).outputs
    && Fetch(EMPTY, Ok(blob)).1 == Ok(output.ids)
  }

  lemma GeneratedMapping(blob: string, history: seq<Pipeline.Step>, output: Pipeline.Output)
    requires Generates(blob, history, output)
    ensures output.ids == IdsOf(blob) && Pipeline.IsFaithful(output) && ArePlain(output.pairs)
    ensures Distinct(IdsOf(blob)) <==> DistinctIds(output.pairs)
  {
    FetchExact(blob);
    FetchedIdsArePlain(blob);
    Outputs.PipelinePairsEveryId(history);
    assert output.ids == IdsOf(blob) && Pipeline.IsFaithful(output);
    forall i | 0 <= i < |output.pairs| ensures IsPlainId(output.pairs[i].plaintext) {
      assert output.pairs[i].plaintext == IdsOf(blob)[i];
    }
    if DistinctIds(output.pairs) {
      forall i, j | 0 <= i < j < |output.ids| ensures output.ids[i] != output.ids[j] {
        assert output.pairs[i].plaintext != output.pairs[j].plaintext;
      }
    }
  }

  /** No fetch answers with more ids than the pair queue holds: the parser's row queue is no larger. */
  lemma FetchedFitPairQueue(p: ParserState, blob: ResultOr<string>)
    requires Consistent(ID_LIST_CONFIG, p) && Fetch(p, blob).1.Ok?
    ensures |Fetch(p, blob).1.value| <= Pipeline.PAIR_QUEUE_CAPACITY
  {
    AddChunkConsistent(ID_LIST_CONFIG, p, blob.value);
  }

  /** Every id list is generated in some session, given enough UUIDs. */
  lemma SomeHistoryGenerates(blob: string, supply: seq<Uuid>)
    returns (history: seq<Pipeline.Step>, output: Pipeline.Output)
    requires IsIdList(blob)
    requires Progress.AllFresh(supply, {}) && |supply| >= |IdsOf(blob)|
    ensures Generates(blob, history, output)
  {
    FetchExact(blob);
    var begin := [Pipeline.Begin(IdsOf(blob), true)];
    var s := Pipeline.Apply(Pipeline.INITIAL, begin[0]);
    assert Pipeline.Exec(Pipeline.INITIAL, begin) == Pipeline.Exec(s, []) == s;
    var more := Progress.NoDeadEnd(begin, supply);
    Pipeline.ExecAppend(Pipeline.INITIAL, begin, more);
    history := begin + more;
    Outputs.FaultlessIsClean(history);
    output := Pipeline.Exec(Pipeline.INITIAL, history).outputs[0];
  }

  lemma {:induction false} OutputUuidsDistinct(outputs: seq<Pipeline.Output>, output: Pipeline.Output)
    requires output in outputs && Pipeline.DistinctUuids(Pipeline.AllPairs(outputs))
    ensures Pipeline.DistinctUuids(output.pairs)
  {
    var init, last := outputs[..|outputs| - 1], outputs[|outputs| - 1];
    var all, before := Pipeline.AllPairs(outputs), Pipeline.AllPairs(init);
    assert all == before + last.pairs;
    if output == last {
      forall i, j | 0 <= i < j < |last.pairs| ensures last.pairs[i].encryptedId != last.pairs[j].encryptedId {
        assert all[|before| + i] == last.pairs[i] && all[|before| + j] == last.pairs[j];
      }
    } else {
      forall i, j | 0 <= i < j < |before| ensures before[i].encryptedId != before[j].encryptedId {
        assert all[i] == before[i] && all[j] == before[j];
      }
      OutputUuidsDistinct(init, output);
    }
  }

  /** Every printed line is 37 bytes longer than its id: a comma and the UUID. */
  lemma {:induction false} PrintedSize(pairs: seq<PlaintextAndEncrypted>)
    ensures |PrintMapping(pairs)| == |Unlines(Plain(pairs), '\n')| + 37 * |pairs|
  {
    if pairs != [] {
      assert PrintLines(pairs)[1..] == PrintLines(pairs[1..]) && Plain(pairs)[1..] == Plain(pairs[1..]);
      PrintedSize(pairs[1..]);
    }
  }

  /** The match worker accepts a generated mapping if and only if the publisher's normalised ids are distinct and the
      printed lines, each 37 bytes longer than its id, fit the parser's buffer. */
  lemma MappingAcceptedIff(blob: string, history: seq<Pipeline.Step>, output: Pipeline.Output)
    requires Generates(blob, history, output)
    ensures ParseMapping(PrintMapping(output.pairs)).1 == Success <==>
      && Distinct(IdsOf(blob))
      && |Unlines(IdsOf(blob), '\n')| + 37 * |IdsOf(blob)| <= MAX_BUFFERED_BYTES
  {
    GeneratedMapping(blob, history, output);
    PrintedSize(output.pairs);
    assert Plain(output.pairs) == IdsOf(blob);
    if |PrintMapping(output.pairs)| <= MAX_BUFFERED_BYTES {
      MappingRoundTrip(output.pairs);
    }
  }

  /** The table of an accepted mapping holds exactly the publisher's ids, each with its UUID. */
  lemma AcceptedTable(blob: string, history: seq<Pipeline.Step>, output: Pipeline.Output, table: Table)
    requires Generates(blob, history, output) && ParseMapping(PrintMapping(output.pairs)) == (table, Success)
    ensures Holds(table, output.pairs) && DistinctIds(output.pairs) && Matching.NoneMatched(table)
    ensures Plain(output.pairs) == IdsOf(blob)
  {
    MappingAcceptedIff(blob, history, output);
    PrintedSize(output.pairs);
    GeneratedMapping(blob, history, output);
    assert Plain(output.pairs) == IdsOf(blob);
    MappingRoundTrip(output.pairs);
    HeldIsUnmatched(table, output.pairs);
  }

  lemma GeneratedUuidsDistinct(history: seq<Pipeline.Step>, output: Pipeline.Output)
    requires Outputs.SessionsBeginClean(Pipeline.INITIAL, history)
    requires output in Pipeline.Exec(Pipeline.INITIAL, history).outputs
    ensures Pipeline.DistinctUuids(output.pairs)
  {
    Outputs.PipelinePairsEveryId(history);
    OutputUuidsDistinct(Pipeline.Exec(Pipeline.INITIAL, history).outputs, output);
  }

  /** End to end: for every publisher list and every schedule of the generator, and for every advertiser list that fits
      the parser, every way the client cuts it into responses and every schedule of client, download task and
      worker, if the worker accepted the mapping and its export succeeded, it uploaded exactly the join: for
      each advertiser row whose id the publisher has, in order and with repetitions, the one UUID that id was
      paired with. The pairs are the publisher's ids in order, and no two of them share a UUID. */
  lemma EndToEndJoin(blob: string, history: seq<Pipeline.Step>, output: Pipeline.Output, table: Table,
                     advertiser: string, steps: seq<ExportSystem.Step>)
    requires Generates(blob, history, output) && ParseMapping(PrintMapping(output.pairs)) == (table, Success)
    requires ExportSystem.FitsParser(advertiser) && ExportSystem.Honest(steps)
    requires
      var s := ExportSystem.Exec(ExportSystem.Initial(table), steps);
      && !s.download.late && Concat(s.download.pushed) == advertiser
      && s.matching.pc == Matching.Returned(Success)
    ensures
      var s := ExportSystem.Exec(ExportSystem.Initial(table), steps);
      Upload.Data(s.matching.log) == Join(output.pairs, Complete(advertiser, '\n'))
    ensures Plain(output.pairs) == IdsOf(blob) && Pipeline.DistinctUuids(output.pairs)
  {
    AcceptedTable(blob, history, output, table);
    ExportSystem.ExportComputesJoin(table, advertiser, steps);
    EmitIsJoin(table, output.pairs, Complete(advertiser, '\n'));
    GeneratedUuidsDistinct(history, output);
  }

  /** Some advertiser row holds an id the publisher has. */
  ghost predicate Shares(rows: seq<string>, ids: seq<string>) {
    exists i :: 0 <= i < |rows| && Normalize(rows[i]) in ids
  }

  lemma SharesIff(table: Table, pairs: seq<PlaintextAndEncrypted>, rows: seq<string>)
    requires Holds(table, pairs)
    ensures Shares(rows, Plain(pairs)) <==> !(Keys(rows) !! table.Keys)
  {
    forall i | 0 <= i < |rows| ensures Normalize(rows[i]) in Plain(pairs) <==> Normalize(rows[i]) in table {
      var key := Normalize(rows[i]);
      if key in table {
        var j :| 0 <= j < |pairs| && pairs[j].plaintext == key;
        assert Plain(pairs)[j] == key;
      }
      if key in Plain(pairs) {
        var j :| 0 <= j < |Plain(pairs)| && Plain(pairs)[j] == key;
        assert pairs[j].plaintext == key;
      }
    }
    if !(Keys(rows) !! table.Keys) {
      var key :| key in Keys(rows) && key in table.Keys;
      var i :| 0 <= i < |rows| && key == Normalize(rows[i]);
      assert Normalize(rows[i]) in Plain(pairs);
    }
    if Shares(rows, Plain(pairs)) {
      var i :| 0 <= i < |rows| && Normalize(rows[i]) in Plain(pairs);
      assert Normalize(rows[i]) in Keys(rows) && Normalize(rows[i]) in table.Keys;
    }
  }

  /** With an accepted mapping and an advertiser list that fits the parser, however the client cuts it, some run of
      client, download task and worker succeeds, if and only if the download does, every advertiser row is an id
      row, and the two lists share an id. */
  lemma EndToEndSucceedsIff(blob: string, history: seq<Pipeline.Step>, output: Pipeline.Output, table: Table,
                            chunks: seq<string>, outcome: ExecutionResult)
    requires Generates(blob, history, output) && ParseMapping(PrintMapping(output.pairs)) == (table, Success)
    requires ExportSystem.FitsParser(Concat(chunks))
    ensures Schedules.CanEnd(table, Matching.Stream(chunks, outcome), Matching.Returned(Success)) <==>
      && outcome == Success
      && AreIdRows(Complete(Concat(chunks), '\n'))
      && Shares(Complete(Concat(chunks), '\n'), IdsOf(blob))
  {
    AcceptedTable(blob, history, output, table);
    SharesIff(table, output.pairs, Complete(Concat(chunks), '\n'));
    Schedules.ExportEndsIff(table, chunks, outcome);
  }

  function Plain(pairs: seq<PlaintextAndEncrypted>): seq<string> {
    Pipeline.Plaintexts(pairs)
  }

  lemma HeldIsUnmatched(table: Table, pairs: seq<PlaintextAndEncrypted>)
    requires Holds(table, pairs)
    ensures Matching.NoneMatched(table)
  {
    forall k | k in table ensures !table[k].isMatched {
      var i :| 0 <= i < |pairs| && pairs[i].plaintext == k;
    }
  }
}

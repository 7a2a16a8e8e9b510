/** The sequential methods of the match worker and its callback are runs of the two actors; and there is a
    successful run whenever there is something to upload. */
module ExportRuns {
  import opened Results
  import opened Lines
  import opened Whitespace
  import opened Parser
  import opened MatchTable
  import opened Upload
  import opened Fetcher
  import opened Worker
  import opened Matching
  import opened Losses
  import CP = ConcurrentParser

  const TAKEN := Answer(true, Success)

  /** Appends a run to a run. */
  lemma FollowUp(stream: Stream, s: State, before: seq<Step>, t: State, more: seq<Step>) returns (steps: seq<Step>)
    requires t == Exec(stream, s, before)
    ensures steps == before + more && Exec(stream, s, steps) == Exec(stream, t, more)
    ensures Honest(before) && Honest(more) ==> Honest(steps)
    ensures WorkOnly(before) && WorkOnly(more) ==> WorkOnly(steps)
  {
    steps := before + more;
    ExecAppend(stream, s, before, more);
  }

  lemma OneWork(stream: Stream, s: State, answer: Answer)
    ensures Exec(stream, s, [Work(answer)]) == WorkStep(s, answer)
  {
    assert Exec(stream, WorkStep(s, answer), []) == WorkStep(s, answer);
  }

  // `GetExistingRows` is a run of the worker alone.

  ghost predicate WorkOnly(steps: seq<Step>) {
    forall i :: 0 <= i < |steps| ==> steps[i].Work?
  }

  /** Where the worker is after a drain that returned `result`. */
  function AfterDrain(result: ExecutionResult, final: bool): Pc {
    if result != Success then Returned(result) else if final then FinishUpload else ReadFlag
  }

  /** The first two accesses of a drain that finds a row. */
  function RowTaken(s: State, final: bool): State {
    s.(parser := CP.Apply(ADVERTISER_CONFIG, s.parser, CP.Dequeue), pc := ParseRow(final))
  }

  lemma DrainStarts(stream: Stream, s: State, final: bool, a: Answer)
    requires s.pc == LookForRow(final) && s.parser.inFlight == None && s.parser.rows != []
    ensures Exec(stream, s, [Work(a), Work(a), Work(a)])
      == ParseStep(RowTaken(s, final), s.parser.rows[0], IdOf(s.parser.rows[0]), final)
  {
    var s1, s2 := s.(pc := TakeRow(final)), RowTaken(s, final);
    assert Apply(stream, s, Work(a)) == s1 && Apply(stream, s1, Work(a)) == s2;
    assert [Work(a), Work(a), Work(a)][1..] == [Work(a), Work(a)] && [Work(a), Work(a)][1..] == [Work(a)];
    assert Exec(stream, s2, [Work(a)]) == Apply(stream, s2, Work(a));
    assert Exec(stream, s1, [Work(a), Work(a)]) == Exec(stream, s2, [Work(a)]);
  }

  lemma ParsedParser(s: State, row: string, id: ResultOr<string>, final: bool)
    requires s.parser.inFlight == None && s.parser.rows != [] && row == s.parser.rows[0]
    ensures
      var t := ParseStep(RowTaken(s, final), row, id, final);
      CP.AsParser(t.parser) == NextRow(ADVERTISER_CONFIG, CP.AsParser(s.parser)).0 && t.parser.inFlight == None
  {
  }

  /** The machine's state after it parsed the first row. */
  function Parsed(s: State, final: bool): State
    requires s.parser.rows != []
  {
    ParseStep(RowTaken(s, final), s.parser.rows[0], IdOf(s.parser.rows[0]), final)
  }

  /** A row that matches takes a fourth access, which sends its value. */
  function Handled(s: State, final: bool, answer: Answer): State
    requires s.parser.rows != []
  {
    var t := Parsed(s, final);
    if t.pc.SendValue? then WorkStep(t, answer) else t
  }

  lemma HandledIsARun(stream: Stream, s: State, final: bool, answer: Answer) returns (steps: seq<Step>)
    requires s.pc == LookForRow(final) && s.parser.inFlight == None && s.parser.rows != []
    ensures WorkOnly(steps) && (IsHonest(answer) ==> Honest(steps))
    ensures Exec(stream, s, steps) == Handled(s, final, answer)
  {
    var a := Work(answer);
    DrainStarts(stream, s, final, answer);
    steps := [a, a, a];
    if Parsed(s, final).pc.SendValue? {
      OneWork(stream, Parsed(s, final), answer);
      steps := FollowUp(stream, s, steps, Parsed(s, final), [a]);
    }
  }

  lemma HandledParser(s: State, final: bool, answer: Answer)
    requires s.parser.inFlight == None && s.parser.rows != []
    ensures
      var t := Handled(s, final, answer);
      CP.AsParser(t.parser) == NextRow(ADVERTISER_CONFIG, CP.AsParser(s.parser)).0 && t.parser.inFlight == None
  {
    ParsedParser(s, s.parser.rows[0], IdOf(s.parser.rows[0]), final);
  }

  lemma HandledBadRow(s: State, final: bool, answer: Answer)
    requires s.parser.inFlight == None && s.parser.rows != [] && !IsIdRow(s.parser.rows[0])
    ensures
      var t, bad := Handled(s, final, answer), Failure(UnexpectedNumberOfColumns);
      t.table == s.table && t.log == CancelIfStarted(s.log, bad) && t.pc == Returned(bad)
  {
    IdOfRow(s.parser.rows[0]);
  }

  lemma HandledMiss(s: State, final: bool, answer: Answer)
    requires s.parser.inFlight == None && s.parser.rows != []
    requires IsIdRow(s.parser.rows[0]) && Normalize(s.parser.rows[0]) !in s.table
    ensures
      var t := Handled(s, final, answer);
      t.table == Mark(s.table, Normalize(s.parser.rows[0])) && t.log == s.log && t.pc == LookForRow(final)
  {
    IdOfRow(s.parser.rows[0]);
  }

  lemma HandledHit(s: State, final: bool, answer: Answer)
    requires s.parser.inFlight == None && s.parser.rows != []
    requires IsIdRow(s.parser.rows[0]) && Normalize(s.parser.rows[0]) in s.table
    ensures
      var t, key := Handled(s, final, answer), Normalize(s.parser.rows[0]);
      var (log, sent) := Send(s.log, s.table[key].value + "\n", answer);
      && t.table == Mark(s.table, key) && t.log == log
      && t.pc == if sent != Success then Returned(sent) else LookForRow(final)
  {
    IdOfRow(s.parser.rows[0]);
    var u := Parsed(s, final);
    assert u.pc == SendValue(final, s.parser.rows[0]) && u.log == s.log;
    assert Handled(s, final, answer) == SendStep(u, s.parser.rows[0], final, answer);
  }

  /** What the machine does with the first row is what `ExistingRows` does with it. */
  lemma FirstRowRuns(stream: Stream, s: State, final: bool, client: nat -> Answer) returns (steps: seq<Step>, t: State)
    requires s.pc == LookForRow(final) && s.parser.inFlight == None && s.parser.rows != []
    ensures WorkOnly(steps) && t == Exec(stream, s, steps) && t.parser.inFlight == None
    ensures (forall n :: IsHonest(client(n))) ==> Honest(steps)
    ensures CP.AsParser(t.parser) == NextRow(ADVERTISER_CONFIG, CP.AsParser(s.parser)).0
    ensures
      var (p, table, log, result) := ExistingRows(CP.AsParser(s.parser), s.table, s.log, client);
      if t.pc == LookForRow(final) then
        ExistingRows(CP.AsParser(t.parser), t.table, t.log, client) == (p, table, log, result)
      else
        CP.AsParser(t.parser) == p && t.table == table && t.log == log && result != Success && t.pc == Returned(result)
  {
    var answer := client(|s.log|);
    FirstRow(CP.AsParser(s.parser), s.table, s.log, client);
    steps := HandledIsARun(stream, s, final, answer);
    HandledParser(s, final, answer);
    t := Handled(s, final, answer);
    if !IsIdRow(s.parser.rows[0]) {
      HandledBadRow(s, final, answer);
    } else if Normalize(s.parser.rows[0]) in s.table {
      HandledHit(s, final, answer);
    } else {
      HandledMiss(s, final, answer);
    }
  }

  /** Draining without interruption, as the sequential method does it, is a run of the worker alone. */
  lemma {:induction false} ExistingRowsIsARun(stream: Stream, s: State, final: bool, client: nat -> Answer)
    returns (steps: seq<Step>)
    requires s.pc == LookForRow(final) && s.parser.inFlight == None
    ensures WorkOnly(steps) && ((forall n :: IsHonest(client(n))) ==> Honest(steps))
    ensures
      var (p, table, log, result) := ExistingRows(CP.AsParser(s.parser), s.table, s.log, client);
      var t := Exec(stream, s, steps);
      CP.AsParser(t.parser) == p && t.table == table && t.log == log && t.pc == AfterDrain(result, final)
    decreases |s.parser.rows|
  {
    if s.parser.rows == [] {
      steps := [Work(TAKEN)];
      assert Exec(stream, s, steps) == Apply(stream, s, Work(TAKEN));
    } else {
      var first, t := FirstRowRuns(stream, s, final, client);
      steps := first;
      if t.pc == LookForRow(final) {
        var more := ExistingRowsIsARun(stream, t, final, client);
        ExecAppend(stream, s, first, more);
        steps := first + more;
      }
    }
  }

  /** The done marker, or the empty call. */
  lemma FinishIsARun(stream: Stream, s: State, answer: Answer)
    requires s.pc == FinishUpload
    ensures
      var t := Exec(stream, s, [Work(answer)]);
      && t.parser == s.parser && t.table == s.table
      && if s.log == [] then t.log == [] && t.pc == Crashed
         else t.log == Use(s.log, Ok(None), answer).0 && t.pc == Returned(Use(s.log, Ok(None), answer).1)
  {
    OneWork(stream, s, answer);
  }

  /** The end of the export, as the sequential method does it, is a run of the worker alone. */
  lemma EndExportIsARun(stream: Stream, s: State, client: nat -> Answer) returns (steps: seq<Step>)
    requires s.pc == CheckResult && s.parser.inFlight == None
    ensures WorkOnly(steps) && ((forall n :: IsHonest(client(n))) ==> Honest(steps))
    ensures
      var (p, table, log, result) := EndExport(CP.AsParser(s.parser), s.table, s.log, s.streamResult, client);
      var t := Exec(stream, s, steps);
      && CP.AsParser(t.parser) == p && t.table == table && t.log == log
      && t.pc == match result case None => Crashed case Some(r) => Returned(r)
  {
    steps := [Work(TAKEN)];
    OneWork(stream, s, TAKEN);
    if s.streamResult == Success {
      var t := s.(pc := LookForRow(true));
      var drain := ExistingRowsIsARun(stream, t, true, client);
      var u := Exec(stream, t, drain);
      steps := FollowUp(stream, s, steps, t, drain);
      if u.pc == FinishUpload {
        FinishIsARun(stream, u, client(|u.log|));
        steps := FollowUp(stream, s, steps, u, [Work(client(|u.log|))]);
      }
    }
  }

  // The callback with a chunk is a run of the streamer alone.

  /** The accesses a scan of the text takes with so many rows queued: one for each line that has room, and one
      that ends it. */
  function ScanAccesses(queued: nat, text: string): nat
    decreases |text|
  {
    var k := Find(text, '\n');
    if k == |text| || queued >= QUEUE_CAPACITY then 1 else 1 + ScanAccesses(queued + 1, text[k + 1..])
  }

  /** The accesses a callback with a chunk takes: the check, the addition, and the scan. */
  function CallAccesses(p: CP.State, chunk: string): nat {
    if |chunk| + p.buffered > ADVERTISER_CONFIG.maxBuffered then 1 else ScanAccesses(|p.rows|, p.tail + chunk) + 2
  }

  /** The state once the text has been scanned: a full queue shows in the parser and in the stream's result. */
  function AfterScan(s: State, text: string): State
    requires |s.parser.rows| <= QUEUE_CAPACITY
  {
    var full := |s.parser.rows| + |Complete(text, '\n')| > QUEUE_CAPACITY;
    s.(parser := CP.Scanned(ADVERTISER_CONFIG, s.parser, text),
       streamResult := if full then Failure(QueueFull) else s.streamResult)
  }

  /** So many callbacks end the scan of the text. */
  ghost predicate Scans(stream: Stream, s: State, text: string, n: nat) {
    && s.parser.producer == CP.Scanning(text) && |s.parser.rows| <= QUEUE_CAPACITY
    && Exec(stream, s, Callbacks(n)) == AfterScan(s, text)
  }

  lemma {:induction false} ScanCallbacks(stream: Stream, s: State, text: string)
    requires s.parser.producer == CP.Scanning(text) && s.parser.tail == "" && |s.parser.rows| <= QUEUE_CAPACITY
    ensures Scans(stream, s, text, ScanAccesses(|s.parser.rows|, text))
    decreases |text|
  {
    var k := Find(text, '\n');
    if k == |text| || |s.parser.rows| == QUEUE_CAPACITY {
      ScanEnds(stream, s, text);
    } else {
      var left := text[k + 1..];
      var n := ScanAccesses(|s.parser.rows| + 1, left);
      assert Scans(stream, LineQueued(s, text[..k], left), left, n) by {
        ScanCallbacks(stream, LineQueued(s, text[..k], left), left);
      }
      LineFirst(stream, s, text, k, n);
    }
  }

  /** A line that is queued, and then the rest of the scan. */
  lemma LineFirst(stream: Stream, s: State, text: string, k: nat, n: nat)
    requires s.parser.producer == CP.Scanning(text) && k == Find(text, '\n') < |text|
    requires |s.parser.rows| < QUEUE_CAPACITY
    requires Scans(stream, LineQueued(s, text[..k], text[k + 1..]), text[k + 1..], n)
    ensures Scans(stream, s, text, n + 1)
  {
    var t := LineQueued(s, text[..k], text[k + 1..]);
    LineScanned(s, text, k);
    LineCallback(stream, s, text, k);
    CallbackFirst(stream, s, t, n);
  }

  function LineQueued(s: State, line: string, left: string): State {
    s.(parser := s.parser.(rows := s.parser.rows + [line], producer := CP.Scanning(left)))
  }

  /** One access queues the first line. */
  lemma LineCallback(stream: Stream, s: State, text: string, k: nat)
    requires s.parser.producer == CP.Scanning(text) && k == Find(text, '\n') < |text|
    requires |s.parser.rows| < QUEUE_CAPACITY
    ensures CallbackStep(stream, s) == LineQueued(s, text[..k], text[k + 1..])
  {
  }

  /** Scanning what is left after the first line ends as scanning it all does. */
  lemma LineScanned(s: State, text: string, k: nat)
    requires k == Find(text, '\n') < |text| && |s.parser.rows| < QUEUE_CAPACITY
    ensures AfterScan(LineQueued(s, text[..k], text[k + 1..]), text[k + 1..]) == AfterScan(s, text)
  {
    FirstLine(text, k, text[k + 1..], '\n');
    CP.ScannedLine(ADVERTISER_CONFIG, s.parser, text, text[..k], text[k + 1..]);
  }

  lemma CallbackFirst(stream: Stream, s: State, t: State, n: nat)
    requires CallbackStep(stream, s) == t
    ensures Exec(stream, s, Callbacks(n + 1)) == Exec(stream, t, Callbacks(n))
  {
    assert Callbacks(n + 1)[1..] == Callbacks(n);
  }

  lemma ScanEnds(stream: Stream, s: State, text: string)
    requires s.parser.producer == CP.Scanning(text) && s.parser.tail == "" && |s.parser.rows| <= QUEUE_CAPACITY
    requires Find(text, '\n') == |text| || |s.parser.rows| == QUEUE_CAPACITY
    ensures Exec(stream, s, Callbacks(1)) == AfterScan(s, text)
  {
    CP.ScannedAtOnce(ADVERTISER_CONFIG, s.parser, text);
    CallbackFirst(stream, s, CallbackStep(stream, s), 0);
  }

  /** A callback with a chunk, as the sequential method does it, is a run of the streamer alone. */
  lemma ChunkCallbackIsARun(stream: Stream, s: State)
    requires s.parser.producer == CP.Outside && |s.parser.rows| <= QUEUE_CAPACITY
    requires s.streamer == Streaming && s.next < |stream.chunks|
    ensures
      var chunk := stream.chunks[s.next];
      var (p, added) := AddChunk(ADVERTISER_CONFIG, CP.AsParser(s.parser), chunk);
      var t := Exec(stream, s, Callbacks(CallAccesses(s.parser, chunk)));
      && CP.AsParser(t.parser) == p && t.streamResult == ResultAfterChunk(s.streamResult, added)
      && t.parser.producer == CP.Outside && t.next == s.next + 1 && t.streamer == Streaming && t.received == s.received
      && WorkerIdle(s, t)
  {
    if |stream.chunks[s.next]| + s.parser.buffered > ADVERTISER_CONFIG.maxBuffered {
      assert Callbacks(1)[1..] == [] && Exec(stream, CallbackStep(stream, s), []) == CallbackStep(stream, s);
    } else {
      TakenCallbackIsARun(stream, s, stream.chunks[s.next]);
    }
  }

  /** A chunk that passes the check is added and scanned. */
  lemma TakenCallbackIsARun(stream: Stream, s: State, chunk: string)
    requires s.parser.producer == CP.Outside && |s.parser.rows| <= QUEUE_CAPACITY
    requires s.streamer == Streaming && s.next < |stream.chunks| && chunk == stream.chunks[s.next]
    requires |chunk| + s.parser.buffered <= ADVERTISER_CONFIG.maxBuffered
    ensures
      var (p, added) := AddChunk(ADVERTISER_CONFIG, CP.AsParser(s.parser), chunk);
      var t := Exec(stream, s, Callbacks(CallAccesses(s.parser, chunk)));
      && CP.AsParser(t.parser) == p && t.streamResult == ResultAfterChunk(s.streamResult, added)
      && t.parser.producer == CP.Outside && t.next == s.next + 1 && t.streamer == Streaming && t.received == s.received
      && WorkerIdle(s, t)
  {
    var t := StartCall(s, chunk);
    var u := s.(parser := Started(s.parser, chunk), next := s.next + 1);
    CallStarts(s, chunk);
    ScanCallbacks(stream, u, s.parser.tail + chunk);
    TwoCallbacksFirst(stream, s, t, u, ScanAccesses(|s.parser.rows|, s.parser.tail + chunk));
    ScannedIsAdded(s.parser, chunk);
  }

  /** The parser once the chunk has been added to what is to be scanned. */
  function Started(p: CP.State, chunk: string): CP.State {
    p.(buffered := p.buffered + |chunk|, producer := CP.Scanning(p.tail + chunk), tail := "",
       accepted := p.accepted + chunk)
  }

  lemma CallStarts(s: State, chunk: string)
    requires s.parser.producer == CP.Outside && |chunk| + s.parser.buffered <= ADVERTISER_CONFIG.maxBuffered
    ensures StartCall(s, chunk).parser.producer == CP.Checked(chunk)
    ensures ContinueCall(StartCall(s, chunk)) == s.(parser := Started(s.parser, chunk), next := s.next + 1)
  {
  }

  lemma TwoCallbacksFirst(stream: Stream, s: State, t: State, u: State, m: nat)
    requires CallbackStep(stream, s) == t && CallbackStep(stream, t) == u
    ensures Exec(stream, s, Callbacks(m + 2)) == Exec(stream, u, Callbacks(m))
  {
    assert Callbacks(m + 2)[1..] == Callbacks(m + 1) && Callbacks(m + 1)[1..] == Callbacks(m);
    assert Exec(stream, t, Callbacks(m + 1)) == Exec(stream, u, Callbacks(m));
  }

  /** The parser after a chunk that passed was added and scanned. */
  lemma ScannedIsAdded(p: CP.State, chunk: string)
    requires |p.rows| <= QUEUE_CAPACITY && |chunk| + p.buffered <= ADVERTISER_CONFIG.maxBuffered
    ensures
      var text := p.tail + chunk;
      var q := CP.Scanned(ADVERTISER_CONFIG, Started(p, chunk), text);
      var (r, added) := AddChunk(ADVERTISER_CONFIG, CP.AsParser(p), chunk);
      && CP.AsParser(q) == r && q.producer == CP.Outside
      && (added == if |p.rows| + |Complete(text, '\n')| > QUEUE_CAPACITY then Failure(QueueFull) else Success)
  {
  }

  // A successful run exists whenever there is something to upload.

  /** The stream succeeds and every row is an id row. */
  ghost predicate Readable(stream: Stream) {
    stream.outcome == Success && forall i :: 0 <= i < |RowsOf(stream)| ==> IsIdRow(RowsOf(stream)[i])
  }

  /** The streamer finishes before the worker does anything; every row is then queued. */
  lemma StreamerFirst(stream: Stream, table: Table) returns (n: nat)
    requires NoneMatched(table) && Readable(stream)
    requires forall steps :: NothingLost(Exec(stream, Initial(table), steps))
    ensures
      var t := Exec(stream, Initial(table), Callbacks(n));
      && t.pc == ReadFlag && t.received && t.streamResult == Success
      && t.parser.rows == RowsOf(stream) && t.parser.inFlight == None
  {
    n := StreamerFinishes(stream, Initial(table));
    var t := Reached(stream, table, Callbacks(n));
    AllRowsQueued(stream, t);
  }

  /** With everything received, the worker alone drains the id rows that are queued. */
  lemma LookAndDrain(stream: Stream, t: State) returns (steps: seq<Step>)
    requires t.pc == ReadFlag && t.received && t.streamResult == Success && t.parser.inFlight == None
    requires forall i :: 0 <= i < |t.parser.rows| ==> IsIdRow(t.parser.rows[i])
    ensures Honest(steps) && Exec(stream, t, steps).pc == FinishUpload
  {
    var t1, t2 := t.(pc := CheckResult), t.(pc := LookForRow(true));
    OneWork(stream, t, TAKEN);
    OneWork(stream, t1, TAKEN);
    ExistingRowsEmits(CP.AsParser(t2.parser), t2.table, t2.log, _ => TAKEN);
    var drain := ExistingRowsIsARun(stream, t2, true, _ => TAKEN);
    steps := FollowUp(stream, t, [Work(TAKEN)], t1, [Work(TAKEN)]);
    steps := FollowUp(stream, t, steps, t2, drain);
  }

  /** The schedule that lets the streamer finish first reaches the end of the worker's drain. */
  lemma DrainIsReachable(stream: Stream, table: Table) returns (steps: seq<Step>)
    requires NoneMatched(table) && Readable(stream)
    requires forall steps :: NothingLost(Exec(stream, Initial(table), steps))
    ensures Honest(steps) && Exec(stream, Initial(table), steps).pc == FinishUpload
  {
    var n := StreamerFirst(stream, table);
    var t := Exec(stream, Initial(table), Callbacks(n));
    var drain := LookAndDrain(stream, t);
    steps := FollowUp(stream, Initial(table), Callbacks(n), t, drain);
  }

  /** One more access ends the run: by the done marker if a row matched, by the empty call if none did. */
  lemma EndIsReachable(stream: Stream, table: Table) returns (steps: seq<Step>)
    requires NoneMatched(table) && Readable(stream)
    requires forall steps :: NothingLost(Exec(stream, Initial(table), steps))
    ensures Honest(steps)
    ensures Exec(stream, Initial(table), steps).pc ==
      if Keys(RowsOf(stream)) !! table.Keys then Crashed else Returned(Success)
  {
    var most := DrainIsReachable(stream, table);
    var u := Reached(stream, table, most);
    DrainedSawEverything(stream, table, u);
    FinishIsARun(stream, u, TAKEN);
    steps := FollowUp(stream, Initial(table), most, u, [Work(TAKEN)]);
  }

  /** For a blob that fits the parser, the export can succeed exactly when the stream does, every advertiser row
      is an id row, and some row matches. */
  lemma ExportSucceedsIff(stream: Stream, table: Table)
    requires NoneMatched(table) && FitsParser(stream)
    ensures (exists steps :: Honest(steps) && Exec(stream, Initial(table), steps).pc == Returned(Success))
      <==> Readable(stream) && !(Keys(RowsOf(stream)) !! table.Keys)
  {
    NothingLostIff(stream, table);
    if Readable(stream) && !(Keys(RowsOf(stream)) !! table.Keys) {
      var steps := EndIsReachable(stream, table);
    }
    if steps :| Honest(steps) && Exec(stream, Initial(table), steps).pc == Returned(Success) {
      MatchingComputesJoin(stream, table, steps);
      CrashesIffNoMatch(stream, table, steps);
    }
  }

  /** For a blob that fits the parser, the export can call the empty function object exactly when the stream
      succeeds, every advertiser row is an id row, and none matches. */
  lemma ExportCrashesIff(stream: Stream, table: Table)
    requires NoneMatched(table) && FitsParser(stream)
    ensures (exists steps :: Honest(steps) && Exec(stream, Initial(table), steps).pc == Crashed)
      <==> Readable(stream) && Keys(RowsOf(stream)) !! table.Keys
  {
    NothingLostIff(stream, table);
    if Readable(stream) && Keys(RowsOf(stream)) !! table.Keys {
      var steps := EndIsReachable(stream, table);
    }
    if steps :| Honest(steps) && Exec(stream, Initial(table), steps).pc == Crashed {
      var s := Reached(stream, table, steps);
      DrainedSawEverything(stream, table, s);
      CrashesIffNoMatch(stream, table, steps);
    }
  }

  // A chunk that is lost.

  /** The streamer's two accesses of the done call. */
  lemma DoneCall(stream: Stream, s: State)
    requires s.parser.producer == CP.Outside && s.streamer == Streaming && s.next == |stream.chunks|
    ensures Exec(stream, s, Callbacks(2))
      == s.(streamResult := ResultAfterDone(s.streamResult, stream.outcome), streamer := Finished, received := true)
  {
    assert Callbacks(2) == [Callback, Callback] && Callbacks(2)[1..] == [Callback] && [Callback][1..] == [];
    var t := s.(streamResult := ResultAfterDone(s.streamResult, stream.outcome), streamer := Assigned);
    assert CallbackStep(stream, s) == t;
    assert Exec(stream, t, [Callback]) == CallbackStep(stream, t);
  }

  /** No response is larger than the worker asked for. */
  predicate AsRequested(stream: Stream) {
    forall i :: 0 <= i < |stream.chunks| ==> |stream.chunks[i]| <= BYTES_PER_RESPONSE
  }

  /** The rows, one in each chunk. */
  function LineChunks(rows: seq<string>): (chunks: seq<string>)
    ensures |chunks| == |rows|
  {
    seq(|rows|, i requires 0 <= i < |rows| => rows[i] + "\n")
  }

  lemma {:induction false} LineChunksJoin(rows: seq<string>)
    ensures Concat(LineChunks(rows)) == Unlines(rows, '\n')
  {
    if rows != [] {
      assert LineChunks(rows)[1..] == LineChunks(rows[1..]);
      LineChunksJoin(rows[1..]);
    }
  }

  /** A parser that holds whole rows only takes one more. */
  lemma RowChunk(rows: seq<string>, row: string)
    requires '\n' !in row && |rows| < QUEUE_CAPACITY && |Unlines(rows, '\n')| + |row| + 1 <= MAX_BUFFERED_BYTES
    ensures AddChunk(ADVERTISER_CONFIG, ParserState(rows, "", |Unlines(rows, '\n')|), row + "\n")
      == (ParserState(rows + [row], "", |Unlines(rows + [row], '\n')|), Success)
  {
    UnlinesAppend(rows, [row], '\n');
    UnlinesOne(row, '\n');
    SplitWhole([row], '\n');
    assert "" + (row + "\n") == row + "\n";
  }

  /** The streamer alone has queued rows that came one in each chunk; nothing else has happened. */
  ghost predicate Queued(t: State, table: Table, rows: seq<string>) {
    && CP.AsParser(t.parser) == ParserState(rows, "", |Unlines(rows, '\n')|) && t.parser.producer == CP.Outside
    && t.next == |rows| && t.streamer == Streaming && !t.received && t.streamResult == DEFAULT_RESULT
    && WorkerIdle(Initial(table), t)
  }

  lemma NextRowQueued(stream: Stream, s: State, table: Table, rows: seq<string>, row: string)
    requires Queued(s, table, rows) && '\n' !in row && |rows| < |stream.chunks| && stream.chunks[|rows|] == row + "\n"
    requires |rows| < QUEUE_CAPACITY && |Unlines(rows, '\n')| + |row| + 1 <= MAX_BUFFERED_BYTES
    ensures Queued(Exec(stream, s, Callbacks(CallAccesses(s.parser, row + "\n"))), table, rows + [row])
  {
    RowChunk(rows, row);
    ChunkCallbackIsARun(stream, s);
  }

  lemma {:induction false} LinesDownload(stream: Stream, table: Table, rows: seq<string>) returns (n: nat)
    requires LineChunks(rows) <= stream.chunks && AllFree(rows, '\n')
    requires |rows| <= QUEUE_CAPACITY && |Unlines(rows, '\n')| <= MAX_BUFFERED_BYTES
    ensures Queued(Exec(stream, Initial(table), Callbacks(n)), table, rows)
    decreases |rows|
  {
    if rows == [] {
      n := 0;
    } else {
      var init, last := rows[..|rows| - 1], rows[|rows| - 1];
      assert init + [last] == rows;
      UnlinesAppend(init, [last], '\n');
      UnlinesOne(last, '\n');
      assert LineChunks(init) == LineChunks(rows)[..|init|];
      var before := LinesDownload(stream, table, init);
      var s := Exec(stream, Initial(table), Callbacks(before));
      var more := CallAccesses(s.parser, last + "\n");
      assert stream.chunks[|init|] == LineChunks(rows)[|init|];
      NextRowQueued(stream, s, table, init, last);
      n := before + more;
      CallbacksAppend(before, more);
      ExecAppend(stream, Initial(table), Callbacks(before), Callbacks(more));
    }
  }

  lemma {:induction false} CallbacksAppend(n: nat, m: nat)
    ensures Callbacks(n + m) == Callbacks(n) + Callbacks(m)
  {
    if n > 0 {
      CallbacksAppend(n - 1, m);
    }
  }

  /** The streamer alone: it queues the rows, has its last chunk refused and makes its done call. */
  lemma LossyDownload(stream: Stream, table: Table, rows: seq<string>, last: string) returns (n: nat)
    requires stream == Stream(LineChunks(rows) + [last], Success) && AllFree(rows, '\n') && |rows| <= QUEUE_CAPACITY
    requires |Unlines(rows, '\n')| <= MAX_BUFFERED_BYTES < |Unlines(rows, '\n')| + |last|
    ensures
      var t := Exec(stream, Initial(table), Callbacks(n));
      && t.parser.rows == rows && t.received && t.streamResult == Success && WorkerIdle(Initial(table), t)
  {
    var queued := LinesDownload(stream, table, rows);
    var s := Exec(stream, Initial(table), Callbacks(queued));
    var refused := CallAccesses(s.parser, last);
    ChunkCallbackIsARun(stream, s);
    var t := Exec(stream, s, Callbacks(refused));
    assert CP.AsParser(t.parser) == CP.AsParser(s.parser);
    DoneCall(stream, t);
    n := queued + refused + 2;
    CallbacksAppend(queued, refused);
    CallbacksAppend(queued + refused, 2);
    ExecAppend(stream, Initial(table), Callbacks(queued), Callbacks(refused));
    ExecAppend(stream, Initial(table), Callbacks(queued + refused), Callbacks(2));
  }

  /** A row that fills a response. */
  function Filler(): string {
    seq(BYTES_PER_RESPONSE - 1, _ => 'a')
  }

  /** The row, and six that fill a response each: about 480 MiB. */
  function ManyRows(row: string): seq<string> {
    [row] + [Filler(), Filler(), Filler(), Filler(), Filler(), Filler()]
  }

  /** The row again, and the beginning of another one: 20 MiB more, for which the parser has no room. */
  function LastChunk(row: string): string {
    row + "\n" + seq(MAX_BUFFERED_BYTES - 6 * BYTES_PER_RESPONSE, _ => 'a')
  }

  function LossyStream(row: string): Stream {
    Stream(LineChunks(ManyRows(row)) + [LastChunk(row)], Success)
  }

  lemma ManyRowsSize(row: string)
    ensures |Unlines(ManyRows(row), '\n')| == |row| + 1 + 6 * BYTES_PER_RESPONSE
  {
    var fillers := [Filler(), Filler(), Filler(), Filler(), Filler(), Filler()];
    UnlinesCons(row, fillers, '\n');
    UnlinesExactly(fillers, '\n', BYTES_PER_RESPONSE);
  }

  lemma LossyRows(row: string)
    requires '\n' !in row
    ensures AllFree(ManyRows(row), '\n') && RowsOf(LossyStream(row)) == ManyRows(row) + [row]
  {
    var rows, filler := ManyRows(row), seq(MAX_BUFFERED_BYTES - 6 * BYTES_PER_RESPONSE, _ => 'a');
    ConcatAppend(LineChunks(rows), [LastChunk(row)]);
    ConcatOne(LastChunk(row));
    LineChunksJoin(rows);
    SplitPrefix(rows, LastChunk(row), '\n');
    SplitCons(row, filler, '\n');
    FindNone(filler, '\n');
  }

  lemma LossyIsAsRequested(row: string)
    requires |row| < MAX_BUFFERED_BYTES - 6 * BYTES_PER_RESPONSE
    ensures AsRequested(LossyStream(row))
  {
    var rows := ManyRows(row);
    forall i | 0 <= i < |rows| ensures |LineChunks(rows)[i]| <= BYTES_PER_RESPONSE {
    }
  }

  /** A refused chunk is not only forgotten: for every table and every row of less than 20 MiB that matches, there is
      a stream, in responses no larger than the worker asks for, and an honest run over it that reports success
      and lacks the last line of the join. */
  lemma LostChunkShortensUpload(table: Table, row: string) returns (stream: Stream, steps: seq<Step>)
    requires NoneMatched(table) && IsIdRow(row) && '\n' !in row && Normalize(row) in table
    requires |row| < MAX_BUFFERED_BYTES - 6 * BYTES_PER_RESPONSE
    ensures AsRequested(stream)
    ensures Honest(steps) && Exec(stream, Initial(table), steps).pc == Returned(Success)
    ensures
      var s := Exec(stream, Initial(table), steps);
      Emit(table, RowsOf(stream)) == Data(s.log) + (table[Normalize(row)].value + "\n")
  {
    stream := LossyStream(row);
    LossyIsAsRequested(row);
    LossyJoin(table, row);
    steps := LossyExport(stream, table, ManyRows(row), LastChunk(row));
  }

  /** What the join consists of: the first rows, and the row whose chunk is refused. */
  lemma LossyJoin(table: Table, row: string)
    requires IsIdRow(row) && '\n' !in row && Normalize(row) in table
    ensures AllFree(ManyRows(row), '\n') && AreIdRows(ManyRows(row)) && Emit(table, ManyRows(row)) != ""
    ensures |Unlines(ManyRows(row), '\n')| == |row| + 1 + 6 * BYTES_PER_RESPONSE
    ensures Emit(table, RowsOf(LossyStream(row))) == Emit(table, ManyRows(row)) + (table[Normalize(row)].value + "\n")
  {
    var rows, fillers := ManyRows(row), [Filler(), Filler(), Filler(), Filler(), Filler(), Filler()];
    LossyRows(row);
    ManyRowsSize(row);
    EmitNext(table, rows, row);
    EmitCons(table, row, fillers);
    assert IsIdRow(Filler());
  }

  lemma LossyExport(stream: Stream, table: Table, rows: seq<string>, last: string) returns (steps: seq<Step>)
    requires stream == Stream(LineChunks(rows) + [last], Success) && |rows| <= QUEUE_CAPACITY
    requires AllFree(rows, '\n') && AreIdRows(rows) && Emit(table, rows) != ""
    requires |Unlines(rows, '\n')| <= MAX_BUFFERED_BYTES < |Unlines(rows, '\n')| + |last|
    ensures Honest(steps) && Exec(stream, Initial(table), steps).pc == Returned(Success)
    ensures Data(Exec(stream, Initial(table), steps).log) == Emit(table, rows)
  {
    var n := LossyDownload(stream, table, rows, last);
    var t := Exec(stream, Initial(table), Callbacks(n));
    var more := RowsExport(stream, t);
    steps := FollowUp(stream, Initial(table), Callbacks(n), t, more);
  }

  /** The worker alone exports the rows that are queued. */
  lemma RowsExport(stream: Stream, t: State) returns (steps: seq<Step>)
    requires t.pc == ReadFlag && t.received && t.streamResult == Success && t.log == []
    requires t.parser.inFlight == None && AreIdRows(t.parser.rows) && Emit(t.table, t.parser.rows) != ""
    ensures Honest(steps) && Exec(stream, t, steps).pc == Returned(Success)
    ensures Data(Exec(stream, t, steps).log) == Emit(t.table, t.parser.rows)
  {
    var u, client := t.(pc := CheckResult), (_: nat) => TAKEN;
    ExistingRowsEmits(CP.AsParser(u.parser), u.table, u.log, client);
    var log := ExistingRows(CP.AsParser(u.parser), u.table, u.log, client).2;
    assert Data(log) == "" + Emit(t.table, t.parser.rows) && log != [];
    DataOfNext(log, MarkedDone);
    assert Data(log) + "" == Data(log);
    var more := EndExportIsARun(stream, u, client);
    OneWork(stream, t, TAKEN);
    steps := FollowUp(stream, t, [Work(TAKEN)], u, more);
  }

  // A dishonest client.

  /** Three accesses take the worker from looking for a row to sending the value of a row that matches. */
  lemma HitRun(stream: Stream, s: State, final: bool, a: Answer) returns (t: State)
    requires s.pc == LookForRow(final) && s.parser.inFlight == None && s.parser.rows != []
    requires IsIdRow(s.parser.rows[0]) && Normalize(s.parser.rows[0]) in s.table
    ensures t == Exec(stream, s, [Work(a), Work(a), Work(a)])
    ensures t.pc == SendValue(final, s.parser.rows[0]) && t.log == s.log && t.table.Keys == s.table.Keys
    ensures t.parser.rows == s.parser.rows[1..] && t.parser.inFlight == None
  {
    IdOfRow(s.parser.rows[0]);
    DrainStarts(stream, s, final, a);
    t := ParseStep(RowTaken(s, final), s.parser.rows[0], IdOf(s.parser.rows[0]), final);
  }

  /** A row that matches, its value sent with the given answer. */
  lemma HitAndSend(stream: Stream, s: State, final: bool, answer: Answer) returns (t: State)
    requires s.pc == LookForRow(final) && s.parser.inFlight == None && s.parser.rows != []
    requires IsIdRow(s.parser.rows[0]) && Normalize(s.parser.rows[0]) in s.table
    ensures t == Exec(stream, s, [Work(answer), Work(answer), Work(answer), Work(answer)])
    ensures exists data :: t.log == Send(s.log, data, answer).0
    ensures (answer.accepted || (s.log != [] && answer.outcome == Success)) ==>
      && t.pc == LookForRow(final) && t.table.Keys == s.table.Keys
      && t.parser.rows == s.parser.rows[1..] && t.parser.inFlight == None
  {
    var row, a := s.parser.rows[0], Work(answer);
    var u := HitRun(stream, s, final, answer);
    var data := u.table[Normalize(row)].value + "\n";
    t := SendStep(u, row, final, answer);
    assert t.log == Send(s.log, data, answer).0;
    assert Exec(stream, u, [a]) == WorkStep(u, answer) == t;
    assert [a, a, a] + [a] == [a, a, a, a];
    ExecAppend(stream, s, [a, a, a], [a]);
  }

  lemma SendPhases(log: seq<Event>, data: string, answer: Answer)
    ensures log == [] && answer.accepted ==>
      PhaseOf(Send(log, data, answer).0) == Open && Send(log, data, answer).0 != []
    ensures PhaseOf(log) == Open && log != [] && !answer.accepted ==>
      PhaseOf(Send(log, data, answer).0) == Ended && Send(log, data, answer).0 != []
    ensures PhaseOf(log) == Ended && log != [] ==> PhaseOf(Send(log, data, answer).0) == Broken
  {
    PhaseOfNext([], Opened(data));
    PhaseOfNext(log, Pushed(data));
    PhaseOfNext(log, Cancelled);
  }

  function ThreeRows(row: string): Stream {
    Stream(LineChunks([row, row, row]), Success)
  }

  /** The honesty of the client is needed: for every table and every row that matches and fits a response, there is a
      stream and a run in which the client takes the first value, refuses the second, ends that upload as a
      success, and is pushed the third. */
  lemma DishonestClientBreaksProtocol(table: Table, row: string) returns (stream: Stream, steps: seq<Step>)
    requires IsIdRow(row) && '\n' !in row && Normalize(row) in table && |row| < BYTES_PER_RESPONSE
    ensures AsRequested(stream) && PhaseOf(Exec(stream, Initial(table), steps).log) == Broken
  {
    stream := ThreeRows(row);
    var s := Initial(table);
    var rows, dishonest := [row, row, row], Answer(false, Success);
    UnlinesExactly(rows, '\n', |row| + 1);
    var n := LinesDownload(stream, table, rows);
    var t := Exec(stream, s, Callbacks(n));
    var u := t.(pc := LookForRow(false));
    OneWork(stream, t, TAKEN);
    var u1 := HitAndSend(stream, u, false, TAKEN);
    var u2 := HitAndSend(stream, u1, false, dishonest);
    var u3 := HitAndSend(stream, u2, false, TAKEN);
    var d1 :| u1.log == Send(u.log, d1, TAKEN).0;
    var d2 :| u2.log == Send(u1.log, d2, dishonest).0;
    var d3 :| u3.log == Send(u2.log, d3, TAKEN).0;
    SendPhases(u.log, d1, TAKEN);
    SendPhases(u1.log, d2, dishonest);
    SendPhases(u2.log, d3, TAKEN);
    steps := FollowUp(stream, s, Callbacks(n), t, [Work(TAKEN)]);
    steps := FollowUp(stream, s, steps, u, FourTimes(TAKEN));
    steps := FollowUp(stream, s, steps, u1, FourTimes(dishonest));
    steps := FollowUp(stream, s, steps, u2, FourTimes(TAKEN));
  }

  function FourTimes(answer: Answer): seq<Step> {
    [Work(answer), Work(answer), Work(answer), Work(answer)]
  }
}

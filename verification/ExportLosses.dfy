/** What an export can lose: chunks that the parser refuses and rows that its queue has no room for. */
module Losses {
  import opened Results
  import opened Lines
  import opened Parser
  import opened Fetcher
  import opened Upload
  import opened Worker
  import opened Matching
  import CP = ConcurrentParser

  lemma StreamSideKeeps(stream: Stream, s: State, step: Step)
    requires CP.Inv(ADVERTISER_CONFIG, s.parser) && StreamInv(stream, s)
    ensures CP.Inv(ADVERTISER_CONFIG, Apply(stream, s, step).parser) && StreamInv(stream, Apply(stream, s, step))
  {
    ParserKeeps(s.parser, Some(CP.Subtract));
    ParserKeeps(s.parser, ParserStep(stream, s, step));
    ParserMoves(stream, s, step);
    match step
    case Callback => CallbackKeepsStream(stream, s);
    case Work(answer) => WorkKeepsStream(stream, s, answer);
  }

  lemma {:induction false} StreamSideHolds(stream: Stream, s: State, steps: seq<Step>)
    requires CP.Inv(ADVERTISER_CONFIG, s.parser) && StreamInv(stream, s)
    ensures CP.Inv(ADVERTISER_CONFIG, Exec(stream, s, steps).parser) && StreamInv(stream, Exec(stream, s, steps))
    decreases steps
  {
    if steps != [] {
      StreamSideKeeps(stream, s, steps[0]);
      StreamSideHolds(stream, Apply(stream, s, steps[0]), steps[1..]);
    }
  }

  /** A refused chunk or a full row queue is forgotten: when the flag is up, the result the worker reads
      is the stream's own, whatever happened to the chunks. */
  lemma LostChunksAreForgotten(stream: Stream, table: Table, steps: seq<Step>)
    ensures
      var s := Exec(stream, Initial(table), steps);
      s.received ==> s.streamResult == stream.outcome
  {
    assert stream.chunks[..0] == [];
    StreamSideHolds(stream, Initial(table), steps);
  }

  lemma ConcatPrefix(chunks: seq<string>, n: nat)
    requires n < |chunks|
    ensures |Concat(chunks[..n])| + |chunks[n]| <= |Concat(chunks)|
  {
    assert chunks == chunks[..n] + ([chunks[n]] + chunks[n + 1..]);
    ConcatAppend(chunks[..n], [chunks[n]] + chunks[n + 1..]);
    ConcatAppend([chunks[n]], chunks[n + 1..]);
    ConcatOne(chunks[n]);
  }

  lemma {:induction false} SmallBlobNeverRefused(stream: Stream, s: State, steps: seq<Step>)
    requires |Concat(stream.chunks)| <= MAX_BUFFERED_BYTES
    requires CP.Inv(ADVERTISER_CONFIG, s.parser) && StreamInv(stream, s) && s.parser.refusals == 0
    ensures Exec(stream, s, steps).parser.refusals == 0
    decreases steps
  {
    if steps != [] {
      var step := steps[0];
      if step.Callback? && s.parser.producer == CP.Outside && s.streamer == Streaming && s.next < |stream.chunks| {
        ConcatPrefix(stream.chunks, s.next);
        assert s.parser.accepted + "" == s.parser.accepted;
      } else if step.Work? {
        WorkFrame(s, step.answer);
      }
      StreamSideKeeps(stream, s, step);
      SmallBlobNeverRefused(stream, Apply(stream, s, step), steps[1..]);
    }
  }

  /** `n` accesses of the streamer in a row. */
  function Callbacks(n: nat): (steps: seq<Step>)
    ensures |steps| == n && Honest(steps)
  {
    if n == 0 then [] else [Callback] + Callbacks(n - 1)
  }

  /** The streamer alone: the worker has taken nothing off the parser. */
  ghost predicate Untouched(stream: Stream, s: State) {
    && s.streamer == Streaming && s.next <= |stream.chunks|
    && s.parser.buffered + |InCheck(s.parser)| == |Concat(stream.chunks[..s.next])|
  }

  /** How far the streamer is from being outside `AddCsvChunk` again. */
  function Distance(p: CP.State): nat {
    match p.producer
    case Outside => 0
    case Checked(chunk) => |p.tail| + |chunk| + 2
    case Scanning(text) => |text| + 1
  }

  /** Without the worker, a blob larger than the buffer gets one of its chunks refused. */
  lemma {:induction false} LargeBlobRefused(stream: Stream, s: State) returns (n: nat)
    requires Untouched(stream, s) && s.parser.buffered + |InCheck(s.parser)| <= MAX_BUFFERED_BYTES
    requires |Concat(stream.chunks)| > MAX_BUFFERED_BYTES
    ensures Exec(stream, s, Callbacks(n)).parser.refusals > s.parser.refusals
    decreases |stream.chunks| - s.next, Distance(s.parser)
  {
    TakeAll(stream.chunks, s.next);
    var t := CallbackStep(stream, s);
    StaysUntouched(stream, s);
    if t.parser.refusals > s.parser.refusals {
      n := 1;
      assert Callbacks(1)[1..] == [];
    } else {
      var m := LargeBlobRefused(stream, t);
      n := m + 1;
      assert Callbacks(n)[1..] == Callbacks(m);
    }
  }

  lemma TakeAll<T>(items: seq<T>, n: nat)
    ensures n == |items| ==> items[..n] == items
  {
  }

  /** An access of the streamer refuses a chunk or brings it nearer to the next one. */
  lemma StaysUntouched(stream: Stream, s: State)
    requires Untouched(stream, s) && s.parser.buffered + |InCheck(s.parser)| <= MAX_BUFFERED_BYTES
    requires s.parser.producer == CP.Outside ==> s.next < |stream.chunks|
    ensures
      var t := CallbackStep(stream, s);
      if t.parser.refusals > s.parser.refusals then
        s.parser.producer == CP.Outside
      else
        && Untouched(stream, t) && t.parser.buffered + |InCheck(t.parser)| <= MAX_BUFFERED_BYTES
        && t.parser.refusals == s.parser.refusals
        && if s.parser.producer == CP.Outside then t.next == s.next + 1
           else t.next == s.next && Distance(t.parser) < Distance(s.parser)
  {
    if s.parser.producer == CP.Outside {
      assert stream.chunks[..s.next + 1] == stream.chunks[..s.next] + [stream.chunks[s.next]];
      ConcatAppend(stream.chunks[..s.next], [stream.chunks[s.next]]);
      ConcatOne(stream.chunks[s.next]);
    }
  }

  /** No schedule refuses a chunk exactly when the whole advertiser blob fits the buffer. */
  lemma NothingRefusedIff(stream: Stream, table: Table)
    ensures (forall steps :: Exec(stream, Initial(table), steps).parser.refusals == 0)
      <==> |Concat(stream.chunks)| <= MAX_BUFFERED_BYTES
  {
    var s := Initial(table);
    assert stream.chunks[..0] == [];
    if |Concat(stream.chunks)| <= MAX_BUFFERED_BYTES {
      forall steps ensures Exec(stream, s, steps).parser.refusals == 0 {
        SmallBlobNeverRefused(stream, s, steps);
      }
    } else {
      var n := LargeBlobRefused(stream, s);
      assert Exec(stream, s, Callbacks(n)).parser.refusals > 0;
    }
  }

  /** The parser's own schedule inside a schedule of this machine. */
  function ParserSchedule(stream: Stream, s: State, steps: seq<Step>): seq<CP.Step>
    decreases steps
  {
    if steps == [] then []
    else
      var first := ParserStep(stream, s, steps[0]);
      (if first.Some? then [first.value] else [])
      + ParserSchedule(stream, Apply(stream, s, steps[0]), steps[1..])
  }

  lemma {:induction false} ParserRunsAlone(stream: Stream, s: State, steps: seq<Step>)
    ensures Exec(stream, s, steps).parser == CP.Exec(ADVERTISER_CONFIG, s.parser, ParserSchedule(stream, s, steps))
    decreases steps
  {
    if steps != [] {
      var t, first := Apply(stream, s, steps[0]), ParserStep(stream, s, steps[0]);
      var later := ParserSchedule(stream, t, steps[1..]);
      ParserMoves(stream, s, steps[0]);
      ParserRunsAlone(stream, t, steps[1..]);
      if first.Some? {
        assert ([first.value] + later)[1..] == later;
      } else {
        assert [] + later == later;
      }
    }
  }

  // Lost rows.

  /** The advertiser's blob fits the parser: its bytes the buffer, its rows the row queue. */
  predicate FitsParser(stream: Stream) {
    |Concat(stream.chunks)| <= MAX_BUFFERED_BYTES && |RowsOf(stream)| <= QUEUE_CAPACITY
  }

  lemma CompletePrefix(text: string, whole: string)
    requires text <= whole
    ensures Complete(text, '\n') <= Complete(whole, '\n')
  {
    assert whole == text + whole[|text|..];
    SplitConcat(text, whole[|text|..], '\n');
  }

  lemma AcceptedIsPrefix(stream: Stream, s: State)
    requires StreamInv(stream, s) && s.parser.refusals == 0
    ensures s.parser.accepted <= Concat(stream.chunks)
  {
    assert stream.chunks == stream.chunks[..s.next] + stream.chunks[s.next..];
    ConcatAppend(stream.chunks[..s.next], stream.chunks[s.next..]);
    assert s.parser.accepted <= s.parser.accepted + InCheck(s.parser);
  }

  /** While a row of a fitting blob is still to be queued there is room for it. */
  lemma RoomForNextRow(stream: Stream, s: State)
    requires FitsParser(stream) && CP.Inv(ADVERTISER_CONFIG, s.parser) && StreamInv(stream, s) && NothingLost(s)
    ensures !QueueIsFull(s.parser)
  {
    if QueueIsFull(s.parser) {
      AcceptedIsPrefix(stream, s);
      CompletePrefix(s.parser.accepted, Concat(stream.chunks));
      CP.FoundIsComplete(ADVERTISER_CONFIG, s.parser);
    }
  }

  lemma OverflowsOnlyWhenFull(p: CP.State, step: Option<CP.Step>)
    requires !p.overflowed && !QueueIsFull(p)
    ensures !StepParser(p, step).overflowed
  {
  }

  lemma {:induction false} FittingBlobNeverOverflows(stream: Stream, s: State, steps: seq<Step>)
    requires FitsParser(stream) && CP.Inv(ADVERTISER_CONFIG, s.parser) && StreamInv(stream, s) && NothingLost(s)
    ensures NothingLost(Exec(stream, s, steps))
    decreases steps
  {
    if steps != [] {
      var t := Apply(stream, s, steps[0]);
      RoomForNextRow(stream, s);
      ParserMoves(stream, s, steps[0]);
      OverflowsOnlyWhenFull(s.parser, ParserStep(stream, s, steps[0]));
      SmallBlobNeverRefused(stream, s, [steps[0]]);
      assert Exec(stream, s, [steps[0]]) == Exec(stream, t, []) == t;
      StreamSideKeeps(stream, s, steps[0]);
      FittingBlobNeverOverflows(stream, t, steps[1..]);
    }
  }

  /** The worker has done nothing and the streamer is `t`'s. */
  ghost predicate WorkerIdle(s: State, t: State) {
    && t.pc == s.pc && t.log == s.log && t.seen == s.seen && t.table == s.table
    && t.parser.inFlight == s.parser.inFlight && t.parser.delivered == s.parser.delivered
  }

  lemma {:induction false} StreamerFinishes(stream: Stream, s: State) returns (n: nat)
    requires s.next <= |stream.chunks|
    requires s.streamer == Finished ==> s.parser.producer == CP.Outside
    ensures var t := Exec(stream, s, Callbacks(n)); t.streamer == Finished && WorkerIdle(s, t)
    decreases match s.streamer case Streaming => 2 case Assigned => 1 case Finished => 0,
      |stream.chunks| - s.next, Distance(s.parser)
  {
    if s.streamer == Finished {
      n := 0;
    } else {
      var m := StreamerFinishes(stream, CallbackStep(stream, s));
      n := m + 1;
      assert Callbacks(n)[1..] == Callbacks(m);
    }
  }

  /** When the streamer is done and the worker has done nothing, every row that was not lost is queued. */
  lemma AllRowsQueued(stream: Stream, t: State)
    requires CP.Inv(ADVERTISER_CONFIG, t.parser) && StreamInv(stream, t) && NothingLost(t)
    requires t.streamer == Finished && t.parser.inFlight == None && t.parser.delivered == []
    ensures t.parser.rows == RowsOf(stream)
  {
    CP.FoundIsComplete(ADVERTISER_CONFIG, t.parser);
    assert t.parser.accepted + "" == t.parser.accepted && stream.chunks[..t.next] == stream.chunks;
    assert CP.Found(t.parser) == t.parser.rows;
  }

  /** No schedule loses a chunk or a row, if and only if the advertiser's blob fits the parser's buffer and its
      rows the parser's queue. */
  lemma NothingLostIff(stream: Stream, table: Table)
    ensures (forall steps :: NothingLost(Exec(stream, Initial(table), steps))) <==> FitsParser(stream)
  {
    var s := Initial(table);
    assert stream.chunks[..0] == [];
    if FitsParser(stream) {
      forall steps ensures NothingLost(Exec(stream, s, steps)) {
        FittingBlobNeverOverflows(stream, s, steps);
      }
    } else {
      NothingRefusedIff(stream, table);
      var n := StreamerFinishes(stream, s);
      StreamSideHolds(stream, s, Callbacks(n));
      if NothingLost(Exec(stream, s, Callbacks(n))) {
        AllRowsQueued(stream, Exec(stream, s, Callbacks(n)));
      }
    }
  }

  // What has been uploaded at any moment.

  lemma SeenWasDelivered(stream: Stream, table: Table, s: State, step: Step)
    requires Inv(stream, table, s) && s.seen <= s.parser.delivered && (step.Work? ==> IsHonest(step.answer))
    ensures Apply(stream, s, step).seen <= Apply(stream, s, step).parser.delivered
  {
    var t := Apply(stream, s, step);
    ApplyKeeps(stream, table, s, step);
    if !Working(t.pc) {
      StopsWithoutSeeing(stream, s, step);
    }
  }

  /** The step that ends the worker's run, and the steps after it, handle no row. */
  lemma StopsWithoutSeeing(stream: Stream, s: State, step: Step)
    requires !Working(Apply(stream, s, step).pc)
    ensures Apply(stream, s, step).seen == s.seen
    ensures s.parser.delivered <= Apply(stream, s, step).parser.delivered
  {
    ParserMoves(stream, s, step);
    DeliveredGrows(s.parser, ParserStep(stream, s, step));
    match step
    case Callback =>
    case Work(answer) => WorkStopsWithoutSeeing(s, answer);
  }

  lemma DeliveredGrows(p: CP.State, step: Option<CP.Step>)
    ensures p.delivered <= StepParser(p, step).delivered
  {
  }

  lemma WorkStopsWithoutSeeing(s: State, answer: Answer)
    requires !Working(WorkStep(s, answer).pc)
    ensures WorkStep(s, answer).seen == s.seen
  {
    match s.pc
    case ParseRow(final) =>
      if s.parser.inFlight.Some? {
        ParseStopsWithoutSeeing(s, s.parser.inFlight.value, IdOf(s.parser.inFlight.value), final);
      }
    case _ =>
  }

  lemma ParseStopsWithoutSeeing(s: State, row: string, id: ResultOr<string>, final: bool)
    requires !Working(ParseStep(s, row, id, final).pc)
    ensures ParseStep(s, row, id, final).seen == s.seen
  {
  }

  lemma {:induction false} SeenAlwaysDelivered(stream: Stream, table: Table, s: State, steps: seq<Step>)
    requires Inv(stream, table, s) && s.seen <= s.parser.delivered && Honest(steps)
    ensures Exec(stream, s, steps).seen <= Exec(stream, s, steps).parser.delivered
    decreases steps
  {
    if steps != [] {
      SeenWasDelivered(stream, table, s, steps[0]);
      ApplyKeeps(stream, table, s, steps[0]);
      SeenAlwaysDelivered(stream, table, Apply(stream, s, steps[0]), steps[1..]);
    }
  }

  /** At every moment of every honest run, also of one that fails, the bytes uploaded are the join of a prefix of the
      rows the parser handed out; while nothing has been lost, of a prefix of the advertiser's rows. */
  lemma UploadIsJoinOfPrefix(stream: Stream, table: Table, steps: seq<Step>)
    requires NoneMatched(table) && Honest(steps)
    ensures
      var s := Exec(stream, Initial(table), steps);
      && Data(s.log) == Emit(table, s.seen)
      && s.seen <= s.parser.delivered
      && (NothingLost(s) ==> s.seen <= RowsOf(stream))
  {
    InitialHolds(stream, table);
    SeenAlwaysDelivered(stream, table, Initial(table), steps);
    var s := Reached(stream, table, steps);
    if NothingLost(s) {
      DeliveredIsPrefix(stream, s);
    }
  }

  lemma DeliveredIsPrefix(stream: Stream, s: State)
    requires CP.Inv(ADVERTISER_CONFIG, s.parser) && StreamInv(stream, s) && NothingLost(s)
    ensures s.parser.delivered <= RowsOf(stream)
  {
    CP.FoundIsComplete(ADVERTISER_CONFIG, s.parser);
    AcceptedIsPrefix(stream, s);
    CompletePrefix(s.parser.accepted, Concat(stream.chunks));
    assert s.parser.delivered <= CP.Found(s.parser);
  }
}

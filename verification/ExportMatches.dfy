/** `ExportMatches` as two actors over shared state: the streamer task, which calls back with chunks of
    the advertiser list and finally with the result, and the worker thread, which drains the parser. */
module Matching {
  import opened Results
  import opened Lines
  import opened Whitespace
  import opened Rows
  import opened Parser
  import opened MatchTable
  import opened Upload
  import opened Fetcher
  import opened Worker
  import CP = ConcurrentParser

  /** The streamer still has chunks to deliver or its done call to make, has made the done call's
      assignment, or has also raised the flag. */
  datatype Streamer = Streaming | Assigned | Finished

  /** The worker's next access; `final` tells the drain after the loop from the drains inside it. */
  datatype Pc =
    | ReadFlag
    | LookForRow(final: bool)
    | TakeRow(final: bool)
    | ParseRow(final: bool)
    | SendValue(final: bool, row: string)
    | CheckResult
    | FinishUpload
    | Returned(result: ExecutionResult)
    | Crashed  // calling an empty function object

  /** What the streamer delivers: the chunks in order, then the stream's final result. */
  datatype Stream = Stream(chunks: seq<string>, outcome: ExecutionResult)

  datatype State = State(
    parser: CP.State,
    next: nat,                      // chunks passed to the callback
    streamer: Streamer,
    streamResult: ExecutionResult,  // get_stream_result
    received: bool,                 // all_advertiser_ids_received
    pc: Pc,
    table: Table,
    log: seq<Event>,                // what the upload client saw
    seen: seq<string>)              // rows handled to the end

  datatype Step = Callback | Work(answer: Answer)

  function Initial(table: Table): State {
    State(CP.INITIAL, 0, Streaming, DEFAULT_RESULT, false, ReadFlag, table, [], [])
  }

  function Apply(stream: Stream, s: State, step: Step): State {
    match step
    case Callback => CallbackStep(stream, s)
    case Work(answer) => WorkStep(s, answer)
  }

  /** The callback with a chunk starts: the parser's capacity check. */
  function StartCall(s: State, chunk: string): State {
    var parser := CP.Apply(ADVERTISER_CONFIG, s.parser, CP.Check(chunk));
    s.(parser := parser,
       next := s.next + 1,
       streamResult := if parser.producer == CP.Outside then Retry(BufferAtCapacity) else s.streamResult)
  }

  /** The callback with a chunk goes on inside `AddCsvChunk`. */
  function ContinueCall(s: State): State {
    s.(parser := CP.ProduceStep(ADVERTISER_CONFIG, s.parser),
       streamResult := if QueueIsFull(s.parser) then Failure(QueueFull) else s.streamResult)
  }

  /** The done call overwrites any result that is not a success; then it raises the flag. */
  function AssignResult(s: State, outcome: ExecutionResult): State {
    s.(streamResult := ResultAfterDone(s.streamResult, outcome), streamer := Assigned)
  }

  function RaiseFlag(s: State): State {
    s.(received := true, streamer := Finished)
  }

  /** The streamer's next access: inside `AddCsvChunk`, at the start of a callback, or in the done call. */
  function CallbackStep(stream: Stream, s: State): State {
    if s.parser.producer != CP.Outside then ContinueCall(s)
    else if s.streamer == Streaming && s.next < |stream.chunks| then StartCall(s, stream.chunks[s.next])
    else if s.streamer == Streaming then AssignResult(s, stream.outcome)
    else if s.streamer == Assigned then RaiseFlag(s)
    else s
  }

  /** The producer is about to insert into a full queue. */
  predicate QueueIsFull(p: CP.State) {
    && p.producer.Scanning?
    && Find(p.producer.unscanned, '\n') < |p.producer.unscanned|
    && |p.rows| >= QUEUE_CAPACITY
  }

  /** The worker's next access. */
  function WorkStep(s: State, answer: Answer): State {
    match s.pc
    case ReadFlag => s.(pc := if s.received then CheckResult else LookForRow(false))
    case LookForRow(final) =>
      s.(pc := if s.parser.rows != [] then TakeRow(final) else if final then FinishUpload else ReadFlag)
    case TakeRow(final) =>
      if s.parser.rows == [] then Fail(s, Failure(NoRowAvailable))
      else s.(parser := CP.Apply(ADVERTISER_CONFIG, s.parser, CP.Dequeue), pc := ParseRow(final))
    case ParseRow(final) =>
      if s.parser.inFlight == None then s
      else ParseStep(s, s.parser.inFlight.value, IdOf(s.parser.inFlight.value), final)
    case SendValue(final, row) => SendStep(s, row, final, answer)
    case CheckResult => if s.streamResult != Success then Fail(s, s.streamResult) else s.(pc := LookForRow(true))
    case FinishUpload =>
      if s.log == [] then s.(pc := Crashed)
      else
        var (log, result) := Use(s.log, Ok(None), answer);
        s.(log := log, pc := Returned(result))
    case _ => s
  }

  /** Cancels the upload if it has started and returns the failure. */
  function Fail(s: State, result: ExecutionResult): State {
    s.(log := CancelIfStarted(s.log, result), pc := Returned(result))
  }

  /** `GetNextRow` and `GetColumn(0)`: the id in a row. */
  function IdOf(row: string): ResultOr<string> {
    var built := BuildRow(row, 1, true, ',');
    if built.Err? then Err(built.result) else built.value.GetColumn(0)
  }

  lemma IdOfRow(row: string)
    ensures IdOf(row) == if IsIdRow(row) then Ok(Normalize(row)) else Err(Failure(UnexpectedNumberOfColumns))
  {
    IdRowParses(row);
  }

  /** Gives the row's bytes back and looks its id up. */
  function ParseStep(s: State, row: string, id: ResultOr<string>, final: bool): State {
    var t := s.(parser := CP.Apply(ADVERTISER_CONFIG, s.parser, CP.Subtract));
    if id.Err? then Fail(t, id.result)
    else
      var u := t.(table := Mark(t.table, id.value));
      if id.value in t.table then u.(pc := SendValue(final, row))
      else u.(seen := u.seen + [row], pc := LookForRow(final))
  }

  /** Uploads the value of a row that matched. */
  function SendStep(s: State, row: string, final: bool, answer: Answer): State {
    if Normalize(row) !in s.table then s
    else
      var (log, sent) := Send(s.log, s.table[Normalize(row)].value + "\n", answer);
      if sent != Success then s.(log := log, pc := Returned(sent))
      else s.(log := log, seen := s.seen + [row], pc := LookForRow(final))
  }

  function Exec(stream: Stream, s: State, steps: seq<Step>): State
    decreases steps
  {
    if steps == [] then s else Exec(stream, Apply(stream, s, steps[0]), steps[1..])
  }

  lemma {:induction false} ExecAppend(stream: Stream, s: State, a: seq<Step>, b: seq<Step>)
    ensures Exec(stream, s, a + b) == Exec(stream, Exec(stream, s, a), b)
    decreases a
  {
    if a == [] {
      assert a + b == b;
    } else {
      assert (a + b)[1..] == a[1..] + b;
      ExecAppend(stream, Apply(stream, s, a[0]), a[1..], b);
    }
  }

  /** An upload that did not take a piece of data, and so was cancelled, does not end as a success. */
  ghost predicate Honest(steps: seq<Step>) {
    forall i :: 0 <= i < |steps| && steps[i].Work? ==> IsHonest(steps[i].answer)
  }

  ghost predicate IsHonest(answer: Answer) {
    answer.accepted || answer.outcome != Success
  }

  // The parser's own invariant.

  /** The parser step that a step of this machine makes, if any. */
  function ParserStep(stream: Stream, s: State, step: Step): Option<CP.Step> {
    if step.Callback? then
      if s.parser.producer != CP.Outside then Some(CP.Produce)
      else if s.streamer == Streaming && s.next < |stream.chunks| then Some(CP.Check(stream.chunks[s.next]))
      else None
    else if s.pc.TakeRow? then (if s.parser.rows == [] then None else Some(CP.Dequeue))
    else if s.pc.ParseRow? then (if s.parser.inFlight == None then None else Some(CP.Subtract))
    else None
  }

  function StepParser(p: CP.State, step: Option<CP.Step>): CP.State {
    if step == None then p else CP.Apply(ADVERTISER_CONFIG, p, step.value)
  }

  lemma ParserMoves(stream: Stream, s: State, step: Step)
    ensures Apply(stream, s, step).parser == StepParser(s.parser, ParserStep(stream, s, step))
  {
  }

  lemma ParserKeeps(p: CP.State, step: Option<CP.Step>)
    requires CP.Inv(ADVERTISER_CONFIG, p)
    ensures CP.Inv(ADVERTISER_CONFIG, StepParser(p, step))
    ensures step == Some(CP.Subtract) ==> StepParser(p, step).buffered <= p.buffered
  {
    if step.Some? {
      CP.ApplyKeeps(ADVERTISER_CONFIG, p, step.value);
      if step.value == CP.Subtract {
        CP.SubtractKeeps(ADVERTISER_CONFIG, p);
      }
    }
  }

  // The streamer's side.

  ghost predicate StreamInv(stream: Stream, s: State) {
    && s.next <= |stream.chunks|
    && s.parser.buffered <= |s.parser.accepted|
    && (s.parser.refusals == 0 ==> s.parser.accepted + InCheck(s.parser) == Concat(stream.chunks[..s.next]))
    && (s.streamer == Streaming ==> s.streamResult != Success)
    && (s.streamer != Streaming ==>
          s.next == |stream.chunks| && s.parser.producer == CP.Outside && s.streamResult == stream.outcome)
    && (s.received <==> s.streamer == Finished)
  }

  /** The chunk between the capacity check and the addition. */
  function InCheck(p: CP.State): string {
    if p.producer.Checked? then p.producer.chunk else ""
  }

  lemma CallbackKeepsStream(stream: Stream, s: State)
    requires StreamInv(stream, s)
    ensures StreamInv(stream, CallbackStep(stream, s))
  {
    var p := s.parser;
    if p.producer == CP.Outside && s.streamer == Streaming && s.next < |stream.chunks| {
      var chunk := stream.chunks[s.next];
      assert stream.chunks[..s.next + 1] == stream.chunks[..s.next] + [chunk];
      ConcatAppend(stream.chunks[..s.next], [chunk]);
      ConcatOne(chunk);
      assert p.accepted + "" == p.accepted;
    } else if p.producer.Checked? {
      assert p.accepted + p.producer.chunk + "" == p.accepted + p.producer.chunk;
    }
  }

  /** The worker touches nothing of the streamer's, and of the parser only the consumer's side. */
  ghost predicate WorkerOnly(s: State, t: State) {
    && t.next == s.next && t.streamer == s.streamer && t.streamResult == s.streamResult && t.received == s.received
    && t.parser.producer == s.parser.producer && t.parser.accepted == s.parser.accepted
    && t.parser.refusals == s.parser.refusals && t.parser.overflowed == s.parser.overflowed
    && (t.parser.buffered == s.parser.buffered
        || t.parser.buffered == StepParser(s.parser, Some(CP.Subtract)).buffered)
  }

  lemma ParseFrame(s: State, row: string, id: ResultOr<string>, final: bool)
    ensures WorkerOnly(s, ParseStep(s, row, id, final))
  {
  }

  lemma WorkFrame(s: State, answer: Answer)
    ensures WorkerOnly(s, WorkStep(s, answer))
  {
    if s.pc.ParseRow? && s.parser.inFlight.Some? {
      ParseFrame(s, s.parser.inFlight.value, IdOf(s.parser.inFlight.value), s.pc.final);
    }
  }

  lemma WorkKeepsStream(stream: Stream, s: State, answer: Answer)
    requires StreamInv(stream, s)
    requires StepParser(s.parser, Some(CP.Subtract)).buffered <= s.parser.buffered
    ensures StreamInv(stream, WorkStep(s, answer))
  {
    WorkFrame(s, answer);
  }

  // The worker's side.

  ghost predicate Working(pc: Pc) {
    !pc.Returned? && !pc.Crashed?
  }

  /** Rows the worker has taken and not finished with. */
  function InWork(s: State): seq<string> {
    if s.pc.SendValue? then [s.pc.row] else []
  }

  /** After the worker saw the flag and then an empty queue, the queue stays empty. */
  ghost predicate Drained(s: State) {
    && s.received && s.streamResult == Success
    && s.parser.rows == [] && s.parser.inFlight == None
    && s.parser.delivered == s.seen
  }

  ghost predicate InFinalDrain(pc: Pc) {
    match pc
    case LookForRow(final) => final
    case TakeRow(final) => final
    case ParseRow(final) => final
    case SendValue(final, _) => final
    case FinishUpload => true
    case _ => false
  }

  ghost predicate DrainInv(s: State) {
    && (Working(s.pc) ==> (s.parser.inFlight.Some? <==> s.pc.ParseRow?))
    && (Working(s.pc) ==> s.parser.delivered == s.seen + InWork(s))
    && (s.pc.TakeRow? ==> s.parser.rows != [])
    && (s.pc == CheckResult ==> s.received)
    && (InFinalDrain(s.pc) ==> s.received && s.streamResult == Success)
    && (s.pc == FinishUpload || s.pc == Crashed || s.pc == Returned(Success) ==> Drained(s))
    && (s.log != [] && s.log[|s.log| - 1] == MarkedDone ==> Drained(s))
  }

  ghost predicate UploadInv(s: State) {
    && PhaseOf(s.log) != Broken
    && (PhaseOf(s.log) == NotStarted <==> s.log == [])
    && (Working(s.pc) ==> PhaseOf(s.log) == NotStarted || PhaseOf(s.log) == Open)
    && (!Working(s.pc) ==> PhaseOf(s.log) == NotStarted || PhaseOf(s.log) == Ended)
    && (s.pc == Crashed ==> s.log == [])
    && (s.pc == Returned(Success) ==> s.log != [])
  }

  /** What has been uploaded is what the rows handled so far emit; the keys they hold are flagged. */
  ghost predicate JoinInv(table: Table, s: State) {
    && (forall i :: 0 <= i < |s.seen| ==> IsIdRow(s.seen[i]))
    && (s.pc.SendValue? ==> IsIdRow(s.pc.row) && Normalize(s.pc.row) in table)
    && s.table.Keys == table.Keys
    && Data(s.log) == Emit(table, s.seen)
    && (Working(s.pc) || s.pc == Crashed || s.pc == Returned(Success) ==>
          && s.table == Marked(table, Keys(s.seen + InWork(s)))
          && (s.log == [] <==> Keys(s.seen) !! table.Keys))
  }

  // Each step keeps the worker's side.

  lemma CallbackKeepsDrain(stream: Stream, s: State)
    requires StreamInv(stream, s) && DrainInv(s)
    ensures DrainInv(CallbackStep(stream, s))
  {
  }

  lemma FailKeeps(table: Table, s: State, result: ExecutionResult)
    requires Working(s.pc) && UploadInv(s) && result != Success && Data(s.log) == Emit(table, s.seen)
    ensures UploadInv(Fail(s, result))
    ensures Data(Fail(s, result).log) == Emit(table, s.seen)
    ensures Fail(s, result).log == [] || Fail(s, result).log[|Fail(s, result).log| - 1] == Cancelled
  {
    if s.log != [] {
      PhaseOfNext(s.log, Cancelled);
      DataOfNext(s.log, Cancelled);
    }
  }

  lemma SendKeeps(log: seq<Event>, data: string, answer: Answer)
    requires PhaseOf(log) == NotStarted || PhaseOf(log) == Open
    requires PhaseOf(log) == NotStarted <==> log == []
    requires IsHonest(answer)
    ensures
      var (log', sent) := Send(log, data, answer);
      if sent == Success then
        PhaseOf(log') == Open && log' != [] && log'[|log'| - 1] != MarkedDone && Data(log') == Data(log) + data
      else
        && (PhaseOf(log') == NotStarted || PhaseOf(log') == Ended) && (PhaseOf(log') == NotStarted <==> log' == [])
        && (log' != [] ==> log'[|log'| - 1] == Cancelled) && Data(log') == Data(log)
  {
    PhaseOfNext(log, Pushed(data));
    DataOfNext(log, Pushed(data));
    PhaseOfNext(log, Cancelled);
    DataOfNext(log, Cancelled);
    PhaseOfNext([], Opened(data));
    DataOfNext([], Opened(data));
  }

  /** The three parts of the worker's side together. */
  ghost predicate WorkInv(table: Table, s: State) {
    DrainInv(s) && UploadInv(s) && JoinInv(table, s)
  }

  lemma FailStepKeeps(table: Table, s: State, t: State, result: ExecutionResult)
    requires WorkInv(table, s) && Working(s.pc) && result != Success
    requires t.seen == s.seen && t.log == s.log && t.pc == s.pc && t.table.Keys == s.table.Keys
    ensures WorkInv(table, Fail(t, result))
  {
    FailKeeps(table, t, result);
  }

  lemma ParseStepKeeps(table: Table, s: State, row: string, id: ResultOr<string>, final: bool)
    requires WorkInv(table, s) && s.pc == ParseRow(final) && s.parser.inFlight == Some(row)
    requires id == if IsIdRow(row) then Ok(Normalize(row)) else Err(Failure(UnexpectedNumberOfColumns))
    ensures WorkInv(table, ParseStep(s, row, id, final))
  {
    var t := s.(parser := CP.Apply(ADVERTISER_CONFIG, s.parser, CP.Subtract));
    assert s.seen + [] == s.seen;
    if !IsIdRow(row) {
      FailStepKeeps(table, s, t, Failure(UnexpectedNumberOfColumns));
    } else if Normalize(row) in table {
      HitKeeps(table, s, row, final);
    } else {
      MissKeeps(table, s, row, final);
    }
  }

  lemma HitKeeps(table: Table, s: State, row: string, final: bool)
    requires WorkInv(table, s) && s.pc == ParseRow(final) && s.parser.inFlight == Some(row)
    requires IsIdRow(row) && Normalize(row) in table
    ensures WorkInv(table, ParseStep(s, row, Ok(Normalize(row)), final))
  {
    var t := ParseStep(s, row, Ok(Normalize(row)), final);
    HitJoins(table, s, t, row);
    HitDrains(s, row, final);
  }

  lemma HitDrains(s: State, row: string, final: bool)
    requires DrainInv(s) && s.pc == ParseRow(final) && s.parser.inFlight == Some(row) && Normalize(row) in s.table
    ensures DrainInv(ParseStep(s, row, Ok(Normalize(row)), final))
  {
    assert s.seen + [] + [row] == s.seen + [row];
  }

  lemma HitJoins(table: Table, s: State, t: State, row: string)
    requires JoinInv(table, s) && s.pc.ParseRow? && t.pc.SendValue? && t.pc.row == row
    requires IsIdRow(row) && Normalize(row) in table
    requires t.table == Mark(s.table, Normalize(row)) && t.seen == s.seen && t.log == s.log
    ensures JoinInv(table, t)
  {
    assert s.seen + [] == s.seen;
    KeysNext(s.seen, row);
    MarkOne(table, Keys(s.seen), Normalize(row));
  }

  lemma MissKeeps(table: Table, s: State, row: string, final: bool)
    requires WorkInv(table, s) && s.pc == ParseRow(final) && s.parser.inFlight == Some(row)
    requires IsIdRow(row) && Normalize(row) !in table
    ensures WorkInv(table, ParseStep(s, row, Ok(Normalize(row)), final))
  {
    var t := ParseStep(s, row, Ok(Normalize(row)), final);
    MissJoins(table, s, t, row);
    assert t.parser.delivered == s.seen + [] + [row];
    assert s.seen + [] == s.seen && s.seen + [row] + [] == s.seen + [row];
  }

  lemma MissJoins(table: Table, s: State, t: State, row: string)
    requires JoinInv(table, s) && s.pc.ParseRow? && t.pc.LookForRow?
    requires IsIdRow(row) && Normalize(row) !in table
    requires t.table == Mark(s.table, Normalize(row)) && t.seen == s.seen + [row] && t.log == s.log
    ensures JoinInv(table, t)
  {
    assert s.seen + [] == s.seen && s.seen + [row] + [] == s.seen + [row];
    KeysNext(s.seen, row);
    MarkOne(table, Keys(s.seen), Normalize(row));
    EmitNext(table, s.seen, row);
    assert Emit(table, s.seen) + "" == Emit(table, s.seen);
  }

  lemma SendStepKeeps(table: Table, s: State, row: string, final: bool, answer: Answer)
    requires WorkInv(table, s) && s.pc == SendValue(final, row) && IsHonest(answer)
    ensures WorkInv(table, SendStep(s, row, final, answer))
  {
    var (log, sent) := Send(s.log, EmitOne(table, row), answer);
    SendKeeps(s.log, EmitOne(table, row), answer);
    if sent == Success {
      SentKeeps(table, s, s.(log := log, seen := s.seen + [row], pc := LookForRow(final)), row, final);
    } else {
      NotSentKeeps(table, s, s.(log := log, pc := Returned(sent)), row);
    }
  }

  lemma SentKeeps(table: Table, s: State, t: State, row: string, final: bool)
    requires WorkInv(table, s) && s.pc == SendValue(final, row)
    requires t == s.(log := t.log, seen := s.seen + [row], pc := LookForRow(final))
    requires PhaseOf(t.log) == Open && t.log != [] && t.log[|t.log| - 1] != MarkedDone
    requires Data(t.log) == Data(s.log) + EmitOne(table, row)
    ensures WorkInv(table, t)
  {
    SentJoins(table, s, t, row);
    assert s.seen + [row] + [] == s.seen + [row];
  }

  lemma NotSentKeeps(table: Table, s: State, t: State, row: string)
    requires WorkInv(table, s) && s.pc.SendValue? && t.pc.Returned? && t.pc.result != Success
    requires t == s.(log := t.log, pc := t.pc)
    requires PhaseOf(t.log) == NotStarted || PhaseOf(t.log) == Ended
    requires PhaseOf(t.log) == NotStarted <==> t.log == []
    requires t.log != [] ==> t.log[|t.log| - 1] == Cancelled
    requires Data(t.log) == Data(s.log)
    ensures WorkInv(table, t)
  {
  }

  lemma SentJoins(table: Table, s: State, t: State, row: string)
    requires JoinInv(table, s) && s.pc.SendValue? && s.pc.row == row && t.pc.LookForRow?
    requires t.table == s.table && t.seen == s.seen + [row]
    requires t.log != [] && Data(t.log) == Data(s.log) + EmitOne(table, row)
    ensures JoinInv(table, t)
  {
    EmitNext(table, s.seen, row);
    KeysNext(s.seen, row);
    assert Normalize(row) in Keys(s.seen + [row]);
    assert s.seen + [row] + [] == s.seen + [row];
  }

  lemma FinishKeeps(table: Table, s: State, answer: Answer)
    requires WorkInv(table, s) && s.pc == FinishUpload
    ensures WorkInv(table, WorkStep(s, answer))
  {
    if s.log != [] {
      var log := s.log + [MarkedDone];
      PhaseOfNext(s.log, MarkedDone);
      DataOfNext(s.log, MarkedDone);
      assert Data(log) == Data(s.log) && PhaseOf(log) == Ended;
      assert log[|log| - 1] == MarkedDone;
    }
  }

  lemma TakeRowKeeps(table: Table, s: State, answer: Answer)
    requires WorkInv(table, s) && s.pc.TakeRow?
    ensures WorkInv(table, WorkStep(s, answer))
  {
  }

  lemma CheckResultKeeps(table: Table, s: State, answer: Answer)
    requires WorkInv(table, s) && s.pc == CheckResult
    ensures WorkInv(table, WorkStep(s, answer))
  {
    if s.streamResult != Success {
      FailStepKeeps(table, s, s, s.streamResult);
    }
  }

  lemma ReadFlagKeeps(table: Table, s: State, answer: Answer)
    requires WorkInv(table, s) && s.pc == ReadFlag
    ensures WorkInv(table, WorkStep(s, answer))
  {
  }

  lemma LookKeeps(table: Table, s: State, answer: Answer)
    requires WorkInv(table, s) && s.pc.LookForRow?
    ensures WorkInv(table, WorkStep(s, answer))
  {
    assert s.seen + [] == s.seen;
  }

  lemma WorkKeeps(table: Table, s: State, answer: Answer)
    requires WorkInv(table, s) && IsHonest(answer)
    ensures WorkInv(table, WorkStep(s, answer))
  {
    match s.pc
    case ReadFlag => ReadFlagKeeps(table, s, answer);
    case LookForRow(_) => LookKeeps(table, s, answer);
    case TakeRow(_) => TakeRowKeeps(table, s, answer);
    case ParseRow(final) =>
      var row := s.parser.inFlight.value;
      IdOfRow(row);
      ParseStepKeeps(table, s, row, IdOf(row), final);
    case SendValue(final, row) => SendStepKeeps(table, s, row, final, answer);
    case CheckResult => CheckResultKeeps(table, s, answer);
    case FinishUpload => FinishKeeps(table, s, answer);
    case _ =>
  }

  lemma CallbackKeepsWork(table: Table, stream: Stream, s: State)
    requires StreamInv(stream, s) && WorkInv(table, s)
    ensures WorkInv(table, CallbackStep(stream, s))
  {
    CallbackKeepsDrain(stream, s);
  }

  ghost predicate Inv(stream: Stream, table: Table, s: State) {
    CP.Inv(ADVERTISER_CONFIG, s.parser) && StreamInv(stream, s) && WorkInv(table, s)
  }

  lemma ApplyKeeps(stream: Stream, table: Table, s: State, step: Step)
    requires Inv(stream, table, s) && (step.Work? ==> IsHonest(step.answer))
    ensures Inv(stream, table, Apply(stream, s, step))
  {
    ParserKeeps(s.parser, Some(CP.Subtract));
    ParserKeeps(s.parser, ParserStep(stream, s, step));
    ParserMoves(stream, s, step);
    match step
    case Callback =>
      CallbackKeepsStream(stream, s);
      CallbackKeepsWork(table, stream, s);
    case Work(answer) =>
      WorkKeepsStream(stream, s, answer);
      WorkKeeps(table, s, answer);
  }

  lemma {:induction false} ExecKeeps(stream: Stream, table: Table, s: State, steps: seq<Step>)
    requires Inv(stream, table, s) && Honest(steps)
    ensures Inv(stream, table, Exec(stream, s, steps))
    decreases steps
  {
    if steps != [] {
      ApplyKeeps(stream, table, s, steps[0]);
      ExecKeeps(stream, table, Apply(stream, s, steps[0]), steps[1..]);
    }
  }

  lemma InitialHolds(stream: Stream, table: Table)
    requires NoneMatched(table)
    ensures Inv(stream, table, Initial(table))
  {
    MarkNone(table);
    assert stream.chunks[..0] == [];
  }

  ghost predicate NoneMatched(table: Table) {
    forall k :: k in table ==> !table[k].isMatched
  }

  lemma Reached(stream: Stream, table: Table, steps: seq<Step>) returns (s: State)
    requires NoneMatched(table) && Honest(steps)
    ensures s == Exec(stream, Initial(table), steps) && Inv(stream, table, s)
  {
    InitialHolds(stream, table);
    ExecKeeps(stream, table, Initial(table), steps);
    s := Exec(stream, Initial(table), steps);
  }

  /** The advertiser's rows: the complete lines of the chunks put together. */
  function RowsOf(stream: Stream): seq<string> {
    Complete(Concat(stream.chunks), '\n')
  }

  /** A run in which every chunk was taken in full. */
  predicate NothingLost(s: State) {
    s.parser.refusals == 0 && !s.parser.overflowed
  }

  /** Once drained, the rows handled are all the rows there are. */
  lemma DrainedSawEverything(stream: Stream, table: Table, s: State)
    requires Inv(stream, table, s) && Drained(s) && NothingLost(s)
    ensures s.seen == RowsOf(stream)
  {
    CP.FoundIsComplete(ADVERTISER_CONFIG, s.parser);
    assert CP.Found(s.parser) == s.seen;
    assert s.parser.accepted + "" == s.parser.accepted;
    assert stream.chunks[..s.next] == stream.chunks;
  }

  /** Every run that succeeds and loses no chunk, under whatever interleaving of the streamer and the worker,
      uploads exactly the values of the matching advertiser rows, in order and with repetitions;
      it met only id rows, at least one of which matched, and flagged exactly the keys that occurred. */
  lemma MatchingComputesJoin(stream: Stream, table: Table, steps: seq<Step>)
    requires NoneMatched(table) && Honest(steps)
    requires var s := Exec(stream, Initial(table), steps); s.pc == Returned(Success) && NothingLost(s)
    ensures
      var s, rows := Exec(stream, Initial(table), steps), RowsOf(stream);
      && stream.outcome == Success
      && (forall i :: 0 <= i < |rows| ==> IsIdRow(rows[i]))
      && Data(s.log) == Emit(table, rows)
      && s.table == Marked(table, Keys(rows))
      && MatchedKeys(s.table) == Keys(rows) * table.Keys
  {
    var s := Reached(stream, table, steps);
    DrainedSawEverything(stream, table, s);
    assert s.seen + [] == s.seen;
  }

  /** After a successful export that lost no chunk, visiting the matched pairs meets each id that is both in the
      table and among the advertiser's once, with its value, however often the id occurred. */
  lemma MatchedAreVisitedOnce(stream: Stream, table: Table, steps: seq<Step>, visits: seq<(string, string)>)
    requires NoneMatched(table) && Honest(steps)
    requires var s := Exec(stream, Initial(table), steps); s.pc == Returned(Success) && NothingLost(s)
    requires VisitsMatched(Exec(stream, Initial(table), steps).table, visits)
    ensures forall i, j :: 0 <= i < j < |visits| ==> visits[i].0 != visits[j].0
    ensures forall i :: 0 <= i < |visits| ==> visits[i].0 in table && visits[i].1 == table[visits[i].0].value
    ensures forall k :: Visited(visits, k) <==> k in table && k in Keys(RowsOf(stream))
  {
    MatchingComputesJoin(stream, table, steps);
  }

  /** How the bytes were cut into chunks and how the threads interleaved does not show in the upload. */
  lemma UploadIsScheduleIndependent(stream: Stream, stream': Stream, table: Table, steps: seq<Step>, steps': seq<Step>)
    requires NoneMatched(table) && Honest(steps) && Honest(steps')
    requires Concat(stream.chunks) == Concat(stream'.chunks)
    requires var s := Exec(stream, Initial(table), steps); s.pc == Returned(Success) && NothingLost(s)
    requires var s' := Exec(stream', Initial(table), steps'); s'.pc == Returned(Success) && NothingLost(s')
    ensures Data(Exec(stream, Initial(table), steps).log) == Data(Exec(stream', Initial(table), steps').log)
    ensures Exec(stream, Initial(table), steps).table == Exec(stream', Initial(table), steps').table
  {
    MatchingComputesJoin(stream, table, steps);
    MatchingComputesJoin(stream', table, steps');
  }

  /** A run that reaches the end of the drain calls the empty function object exactly when no row matched. */
  lemma CrashesIffNoMatch(stream: Stream, table: Table, steps: seq<Step>)
    requires NoneMatched(table) && Honest(steps) && NothingLost(Exec(stream, Initial(table), steps))
    requires
      var s := Exec(stream, Initial(table), steps);
      s.pc == Crashed || s.pc == Returned(Success)
    ensures Exec(stream, Initial(table), steps).pc == Crashed <==> Keys(RowsOf(stream)) !! table.Keys
  {
    var s := Reached(stream, table, steps);
    DrainedSawEverything(stream, table, s);
    EndTellsMatch(table, s);
  }

  lemma EndTellsMatch(table: Table, s: State)
    requires UploadInv(s) && JoinInv(table, s) && (s.pc == Crashed || s.pc == Returned(Success))
    ensures s.pc == Crashed <==> Keys(s.seen) !! table.Keys
  {
  }

  /** Under every schedule the upload is opened at most once, receives data only while it is open, is ended at
      most once and then left alone, and is not left open by a return; it is finished, rather than
      cancelled, only after a successful stream whose rows have all been handled. */
  lemma UploadProtocol(stream: Stream, table: Table, steps: seq<Step>)
    requires NoneMatched(table) && Honest(steps)
    ensures
      var s := Exec(stream, Initial(table), steps);
      && PhaseOf(s.log) != Broken
      && (s.pc.Returned? || s.pc == Crashed ==> PhaseOf(s.log) != Open)
      && (s.log != [] && s.log[|s.log| - 1] == MarkedDone ==>
            && stream.outcome == Success && s.next == |stream.chunks|
            && s.parser.producer == CP.Outside && s.parser.rows == [] && s.parser.inFlight == None
            && s.parser.delivered == s.seen)
  {
    var s := Reached(stream, table, steps);
  }
}

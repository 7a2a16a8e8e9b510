/** Every schedule of the streamer and the worker is one of client, download task and worker: what some schedule of
    the two can reach, some schedule of the three does. */
module Schedules {
  import opened Results
  import opened Lines
  import opened Parser
  import opened Upload
  import opened Fetcher
  import opened Worker
  import opened MatchTable
  import opened ExportSystem
  import D = Delivery
  import M = Matching
  import L = Losses
  import R = ExportRuns
  import CP = ConcurrentParser

  lemma {:induction false} ExecAppend(s: State, a: seq<Step>, b: seq<Step>)
    ensures Exec(s, a + b) == Exec(Exec(s, a), b)
    decreases a
  {
    if a == [] {
      assert a + b == b;
    } else {
      assert (a + b)[1..] == a[1..] + b;
      ExecAppend(Apply(s, a[0]), a[1..], b);
    }
  }

  /** Appends a run to a run. */
  lemma FollowUp(s: State, before: seq<Step>, t: State, more: seq<Step>) returns (steps: seq<Step>)
    requires t == Exec(s, before)
    ensures steps == before + more && Exec(s, steps) == Exec(t, more)
    ensures Honest(before) && Honest(more) ==> Honest(steps)
  {
    steps := before + more;
    ExecAppend(s, before, more);
  }

  lemma OneStep(s: State, step: Step)
    ensures Exec(s, [step]) == Apply(s, step)
  {
    assert Exec(Apply(s, step), []) == Apply(s, step);
  }

  // The client pushes everything, marks the stream done and finishes it.

  function Pushed(d: D.State, chunks: seq<string>): D.State {
    d.(queue := d.queue + chunks, pushed := d.pushed + chunks)
  }

  lemma {:induction false} PushRun(s: State, chunks: seq<string>) returns (steps: seq<Step>)
    requires !s.download.marked
    ensures Honest(steps) && Exec(s, steps) == s.(download := Pushed(s.download, chunks))
    decreases chunks
  {
    var d := s.download;
    if chunks == [] {
      assert Pushed(d, chunks) == d;
      steps := [];
    } else {
      var step, t := Client(D.ClientPush(chunks[0])), s.(download := Pushed(d, [chunks[0]]));
      OneStep(s, step);
      assert Apply(s, step) == t && [chunks[0]] + chunks[1..] == chunks;
      Regroup(d.queue, [chunks[0]], chunks[1..]);
      Regroup(d.pushed, [chunks[0]], chunks[1..]);
      assert Pushed(Pushed(d, [chunks[0]]), chunks[1..]) == Pushed(d, chunks);
      var more := PushRun(t, chunks[1..]);
      steps := FollowUp(s, [step], t, more);
    }
  }

  /** The task has done nothing, and there is nothing left for the client to do. */
  function Offered(table: Table, stream: M.Stream): State {
    var chunks := stream.chunks;
    var d := D.INITIAL.(queue := chunks, pushed := chunks, marked := true, finished := Some(stream.outcome));
    State(d, M.Initial(table))
  }

  lemma OfferRun(table: Table, stream: M.Stream) returns (steps: seq<Step>)
    ensures Honest(steps) && Exec(Initial(table), steps) == Offered(table, stream)
  {
    var mark, finish := Client(D.ClientMarkDone), Client(D.ClientFinish(stream.outcome));
    steps := PushRun(Initial(table), stream.chunks);
    var d := Pushed(D.INITIAL, stream.chunks);
    assert [] + stream.chunks == stream.chunks;
    var t := State(d, M.Initial(table));
    OneStep(t, mark);
    steps := FollowUp(Initial(table), steps, t, [mark]);
    t := State(d.(marked := true), M.Initial(table));
    OneStep(t, finish);
    steps := FollowUp(Initial(table), steps, t, [finish]);
  }

  // Each callback of the streamer is a few accesses of the task.

  /** Where the task is between two accesses of the streamer. */
  predicate AtRest(d: D.State, e: M.State) {
    if e.parser.producer != CP.Outside then d.pc.Deliver? && e.streamer == M.Streaming
    else match e.streamer
      case Streaming => d.pc == D.CheckStop
      case Assigned => d.pc == D.CheckFinished
      case Finished => d.pc == D.Exited(true)
  }

  predicate Offers(d: D.State, stream: M.Stream) {
    d.pushed == stream.chunks && d.marked && d.finished == Some(stream.outcome) && !d.stopped && !d.late
  }

  ghost predicate Follows(s: State, stream: M.Stream) {
    && Offers(s.download, stream) && AtRest(s.download, s.matching)
    && s.matching.next <= |stream.chunks| && s.download.queue == stream.chunks[s.matching.next..]
  }

  /** The steps are the task's, and take the two machines where the streamer's access takes them. */
  ghost predicate Lifts(s: State, stream: M.Stream, steps: seq<Step>) {
    && Honest(steps)
    && Follows(Exec(s, steps), stream) && Exec(s, steps).matching == M.CallbackStep(stream, s.matching)
  }

  lemma InsideCall(s: State, stream: M.Stream)
    requires Follows(s, stream) && s.matching.parser.producer != CP.Outside
    ensures Lifts(s, stream, [Task])
  {
    OneStep(s, Task);
  }

  lemma ChunkCall(s: State, stream: M.Stream)
    requires Follows(s, stream) && s.matching.parser.producer == CP.Outside
    requires s.matching.streamer == M.Streaming && s.matching.next < |stream.chunks|
    ensures Lifts(s, stream, [Task, Task] + [Task])
  {
    var d, chunk := s.download, stream.chunks[s.matching.next];
    assert d.queue[0] == chunk && d.queue[1..] == stream.chunks[s.matching.next + 1..];
    var s1 := s.(download := d.(pc := D.Fetch));
    var s2 := s.(download := d.(pc := D.Deliver(chunk), queue := d.queue[1..]));
    assert Apply(s, Task) == s1 && Apply(s1, Task) == s2;
    TwoSteps(s, Task, Task);
    OneStep(s2, Task);
    ExecAppend(s, [Task, Task], [Task]);
  }

  lemma TwoSteps(s: State, a: Step, b: Step)
    ensures Exec(s, [a, b]) == Apply(Apply(s, a), b)
  {
    assert [a, b][1..] == [b];
    OneStep(Apply(s, a), b);
  }

  lemma DoneCall(s: State, stream: M.Stream)
    requires Follows(s, stream) && s.matching.parser.producer == CP.Outside
    requires s.matching.streamer == M.Streaming && s.matching.next == |stream.chunks|
    ensures Lifts(s, stream, [Task, Task] + [Task, Task] + [Task])
  {
    var d := s.download;
    var s2 := s.(download := d.(pc := D.CheckMarked));
    var s4 := s.(download := d.(pc := D.CheckFinished));
    assert Apply(s, Task) == s.(download := d.(pc := D.Fetch));
    assert Apply(s2, Task) == s.(download := d.(pc := D.FetchAgain));
    TwoSteps(s, Task, Task);
    TwoSteps(s2, Task, Task);
    OneStep(s4, Task);
    ExecAppend(s, [Task, Task], [Task, Task]);
    ExecAppend(s, [Task, Task] + [Task, Task], [Task]);
  }

  lemma FlagCall(s: State, stream: M.Stream)
    requires Follows(s, stream) && s.matching.parser.producer == CP.Outside && s.matching.streamer == M.Assigned
    ensures Lifts(s, stream, [Task])
  {
    OneStep(s, Task);
  }

  lemma CallbackLifts(s: State, stream: M.Stream) returns (steps: seq<Step>)
    requires Follows(s, stream)
    ensures Lifts(s, stream, steps)
  {
    var e := s.matching;
    if e.parser.producer != CP.Outside {
      InsideCall(s, stream);
      steps := [Task];
    } else if e.streamer == M.Assigned {
      FlagCall(s, stream);
      steps := [Task];
    } else if e.streamer == M.Finished {
      steps := [];
    } else if e.next < |stream.chunks| {
      ChunkCall(s, stream);
      steps := [Task, Task] + [Task];
    } else {
      DoneCall(s, stream);
      steps := [Task, Task] + [Task, Task] + [Task];
    }
  }

  lemma StepLifts(s: State, stream: M.Stream, step: M.Step) returns (steps: seq<Step>)
    requires Follows(s, stream)
    ensures M.Honest([step]) ==> Honest(steps)
    ensures Follows(Exec(s, steps), stream) && Exec(s, steps).matching == M.Apply(stream, s.matching, step)
  {
    match step
    case Callback => steps := CallbackLifts(s, stream);
    case Work(answer) =>
      M.WorkFrame(s.matching, answer);
      OneStep(s, Work(answer));
      assert M.Honest([step]) ==> M.IsHonest([step][0].answer);
      steps := [Work(answer)];
  }

  lemma {:induction false} RunLifts(s: State, stream: M.Stream, matching: seq<M.Step>) returns (steps: seq<Step>)
    requires Follows(s, stream)
    ensures M.Honest(matching) ==> Honest(steps)
    ensures Follows(Exec(s, steps), stream) && Exec(s, steps).matching == M.Exec(stream, s.matching, matching)
    decreases matching
  {
    if matching == [] {
      steps := [];
    } else {
      var first := StepLifts(s, stream, matching[0]);
      var t := Exec(s, first);
      var more := RunLifts(t, stream, matching[1..]);
      steps := FollowUp(s, first, t, more);
      assert M.Honest(matching) ==> M.Honest([matching[0]]) && M.Honest(matching[1..]);
    }
  }

  /** The client has pushed the stream's chunks and finished the stream as it ends. */
  predicate Delivers(s: State, stream: M.Stream) {
    s.download.pushed == stream.chunks && s.download.finished == Some(stream.outcome) && !s.download.late
  }

  /** Every run of the streamer and the worker is what some run of client, download task and worker does. */
  lemma RunsLift(table: Table, stream: M.Stream, matching: seq<M.Step>) returns (steps: seq<Step>)
    ensures M.Honest(matching) ==> Honest(steps)
    ensures
      var s := Exec(Initial(table), steps);
      Delivers(s, stream) && s.matching == M.Exec(stream, M.Initial(table), matching)
  {
    var start := Offered(table, stream);
    var offer := OfferRun(table, stream);
    assert stream.chunks[0..] == stream.chunks;
    var more := RunLifts(start, stream, matching);
    steps := FollowUp(Initial(table), offer, start, more);
  }

  /** Some honest run of the three, over this stream, takes the export there. */
  ghost predicate Reaches(table: Table, stream: M.Stream, e: M.State) {
    exists steps :: Honest(steps) && Delivers(Exec(Initial(table), steps), stream)
      && Exec(Initial(table), steps).matching == e
  }

  /** Over a stream that is delivered, the three together reach exactly what streamer and worker reach. */
  lemma ReachesIff(table: Table, stream: M.Stream, e: M.State)
    ensures Reaches(table, stream, e)
      <==> exists matching :: M.Honest(matching) && M.Exec(stream, M.Initial(table), matching) == e
  {
    if matching :| M.Honest(matching) && M.Exec(stream, M.Initial(table), matching) == e {
      var steps := RunsLift(table, stream, matching);
    }
    if Reaches(table, stream, e) {
      var steps :| Honest(steps) && Delivers(Exec(Initial(table), steps), stream)
        && Exec(Initial(table), steps).matching == e;
      var download, matching := RunsProject(table, steps);
      assert StreamOf(Exec(Initial(table), steps).download) == stream;
    }
  }

  /** Some honest run of the three ends there. */
  ghost predicate CanEnd(table: Table, stream: M.Stream, pc: M.Pc) {
    exists steps :: Honest(steps) && Delivers(Exec(Initial(table), steps), stream)
      && Exec(Initial(table), steps).matching.pc == pc
  }

  lemma CanEndIff(table: Table, stream: M.Stream, pc: M.Pc)
    ensures CanEnd(table, stream, pc)
      <==> exists matching :: M.Honest(matching) && M.Exec(stream, M.Initial(table), matching).pc == pc
  {
    if matching :| M.Honest(matching) && M.Exec(stream, M.Initial(table), matching).pc == pc {
      ReachesIff(table, stream, M.Exec(stream, M.Initial(table), matching));
    }
    if CanEnd(table, stream, pc) {
      var steps :| Honest(steps) && Delivers(Exec(Initial(table), steps), stream)
        && Exec(Initial(table), steps).matching.pc == pc;
      ReachesIff(table, stream, Exec(Initial(table), steps).matching);
    }
  }

  /** The advertiser's list can be read to its end: the download succeeds and every row is an id row. */
  ghost predicate Readable(advertiser: string, outcome: ExecutionResult) {
    outcome == Success && AreIdRows(Complete(advertiser, '\n'))
  }

  /** For an advertiser list that fits the parser, however the client cuts it, some run of client, download task and
      worker succeeds, if and only if the list can be read to its end and some row matches; and some run calls the
      empty function object, if and only if it can be read and none matches. */
  lemma ExportEndsIff(table: Table, chunks: seq<string>, outcome: ExecutionResult)
    requires M.NoneMatched(table) && FitsParser(Concat(chunks))
    ensures
      var stream, rows := M.Stream(chunks, outcome), Complete(Concat(chunks), '\n');
      && (CanEnd(table, stream, M.Returned(Success)) <==>
            Readable(Concat(chunks), outcome) && !(Keys(rows) !! table.Keys))
      && (CanEnd(table, stream, M.Crashed) <==> Readable(Concat(chunks), outcome) && Keys(rows) !! table.Keys)
  {
    var stream := M.Stream(chunks, outcome);
    CanEndIff(table, stream, M.Returned(Success));
    CanEndIff(table, stream, M.Crashed);
    R.ExportSucceedsIff(stream, table);
    R.ExportCrashesIff(stream, table);
  }
}

/** The download task with the callback inside it, the client that pushes responses, and the worker, all at the same
    time; every run of the three is a run of the download machine and a run of the streamer and the worker. */
module ExportSystem {
  import opened Results
  import opened Lines
  import opened Parser
  import opened Upload
  import opened Worker
  import opened MatchTable
  import D = Delivery
  import M = Matching
  import L = Losses
  import CP = ConcurrentParser

  datatype State = State(download: D.State, matching: M.State)

  datatype Step =
    | Client(step: D.Step)
    | Task
    | Work(answer: Answer)

  function Initial(table: Table): State {
    State(D.INITIAL, M.Initial(table))
  }

  function Apply(s: State, step: Step): State {
    match step
    case Client(c) => if c == D.Task then s else s.(download := D.Apply(s.download, c))
    case Task => TaskStep(s)
    case Work(answer) => s.(matching := M.WorkStep(s.matching, answer))
  }

  /** The task's next access: its own, or one inside the callback it has called. The task moves on when the
      callback returns. */
  function TaskStep(s: State): State {
    var d, e := s.download, s.matching;
    match d.pc
    case Deliver(data) =>
      var e' := CallChunk(e, data);
      State(if e'.parser.producer == CP.Outside then D.TaskStep(d) else d, e')
    case CheckFinished =>
      if d.finished == None then s.(download := D.TaskStep(d))
      else if e.streamer == M.Streaming then s.(matching := M.AssignResult(e, d.finished.value))
      else State(D.TaskStep(d), M.RaiseFlag(e))
    case _ => s.(download := D.TaskStep(d))
  }

  /** The callback with a chunk: its first access, or the next one. */
  function CallChunk(e: M.State, data: string): M.State {
    if e.parser.producer == CP.Outside then M.StartCall(e, data) else M.ContinueCall(e)
  }

  function Exec(s: State, steps: seq<Step>): State
    decreases steps
  {
    if steps == [] then s else Exec(Apply(s, steps[0]), steps[1..])
  }

  ghost predicate Honest(steps: seq<Step>) {
    forall i :: 0 <= i < |steps| && steps[i].Work? ==> M.IsHonest(steps[i].answer)
  }

  /** A callback with a chunk is under way. */
  predicate Calling(s: State) {
    s.matching.parser.producer != CP.Outside
  }

  /** Where the task is and where the callback is agree. */
  ghost predicate InStep(s: State) {
    var d, e := s.download, s.matching;
    && e.next == d.delivered + (if Calling(s) then 1 else 0)
    && (Calling(s) ==> d.pc.Deliver?)
    && (e.streamer == M.Streaming ==> d.pc != D.Exited(true))
    && (e.streamer == M.Assigned ==> d.pc == D.CheckFinished && d.finished.Some?)
    && (e.streamer == M.Finished ==> d.pc == D.Exited(true))
  }

  ghost predicate Inv(s: State) {
    D.Inv(s.download) && InStep(s)
  }

  lemma WorkKeeps(s: State, answer: Answer)
    requires Inv(s)
    ensures Inv(Apply(s, Work(answer)))
  {
    M.WorkFrame(s.matching, answer);
  }

  lemma ChunkKeeps(s: State)
    requires Inv(s) && s.download.pc.Deliver?
    ensures InStep(TaskStep(s))
  {
  }

  lemma DoneKeeps(s: State)
    requires Inv(s) && s.download.pc == D.CheckFinished
    ensures InStep(TaskStep(s))
  {
  }

  lemma TaskKeeps(s: State)
    requires Inv(s)
    ensures Inv(TaskStep(s))
  {
    D.ApplyKeeps(s.download, D.Task);
    match s.download.pc
    case Deliver(_) => ChunkKeeps(s);
    case CheckFinished => DoneKeeps(s);
    case _ =>
  }

  lemma ClientKeeps(s: State, c: D.Step)
    requires Inv(s) && c != D.Task
    ensures Inv(Apply(s, Client(c)))
  {
    D.ApplyKeeps(s.download, c);
  }

  lemma ApplyKeeps(s: State, step: Step)
    requires Inv(s)
    ensures Inv(Apply(s, step))
  {
    match step
    case Client(c) => if c != D.Task { ClientKeeps(s, c); }
    case Task => TaskKeeps(s);
    case Work(answer) => WorkKeeps(s, answer);
  }

  // Projection onto the download.

  /** The step of the download machine that a step of the whole makes, if any. */
  function DownloadStep(s: State, step: Step): seq<D.Step> {
    match step
    case Client(c) => if c == D.Task then [] else [c]
    case Task => if TaskStep(s).download == s.download then [] else [D.Task]
    case Work(_) => []
  }

  function DownloadSteps(s: State, steps: seq<Step>): seq<D.Step>
    decreases steps
  {
    if steps == [] then [] else DownloadStep(s, steps[0]) + DownloadSteps(Apply(s, steps[0]), steps[1..])
  }

  lemma DownloadMoves(s: State, step: Step)
    ensures Apply(s, step).download == D.Exec(s.download, DownloadStep(s, step))
  {
    match step
    case Client(c) => assert D.Exec(D.Apply(s.download, c), []) == D.Apply(s.download, c);
    case Task => assert D.Exec(D.TaskStep(s.download), []) == D.TaskStep(s.download);
    case Work(_) =>
  }

  lemma {:induction false} DownloadProjects(s: State, steps: seq<Step>)
    ensures Exec(s, steps).download == D.Exec(s.download, DownloadSteps(s, steps))
    decreases steps
  {
    if steps != [] {
      var t := Apply(s, steps[0]);
      DownloadMoves(s, steps[0]);
      DownloadProjects(t, steps[1..]);
      D.ExecAppend(s.download, DownloadStep(s, steps[0]), DownloadSteps(t, steps[1..]));
    }
  }

  // Projection onto the streamer and the worker.

  /** The step of the streamer or the worker that a step of the whole makes, if any. */
  function ExportStep(s: State, step: Step): seq<M.Step> {
    match step
    case Client(_) => []
    case Task => if Calls(s.download) then [M.Callback] else []
    case Work(answer) => [M.Work(answer)]
  }

  /** The task is at a callback. */
  predicate Calls(d: D.State) {
    d.pc.Deliver? || (d.pc == D.CheckFinished && d.finished.Some?)
  }

  function ExportSteps(s: State, steps: seq<Step>): seq<M.Step>
    decreases steps
  {
    if steps == [] then [] else ExportStep(s, steps[0]) + ExportSteps(Apply(s, steps[0]), steps[1..])
  }

  /** The stream as far as it is known: what was pushed, and once the done call is under way, how it ended. */
  ghost predicate Agrees(s: State, stream: M.Stream) {
    && s.download.pushed <= stream.chunks
    && (s.matching.streamer != M.Streaming ==>
          s.download.pushed == stream.chunks && s.download.finished == Some(stream.outcome))
  }

  /** What is pushed stays pushed; a final result and a late push stay; after the mark only late pushes come. */
  ghost predicate Grows(s: State, t: State) {
    && s.download.pushed <= t.download.pushed
    && (s.download.finished.Some? ==> t.download.finished == s.download.finished)
    && (s.download.late ==> t.download.late)
    && (s.download.marked ==> t.download.marked && (!t.download.late ==> t.download.pushed == s.download.pushed))
    && (s.matching.streamer != M.Streaming ==> t.matching.streamer != M.Streaming)
  }

  lemma TaskGrows(s: State)
    ensures Grows(s, TaskStep(s))
  {
    match s.download.pc
    case Deliver(_) =>
    case CheckFinished =>
    case _ =>
  }

  lemma ApplyGrows(s: State, step: Step)
    ensures Grows(s, Apply(s, step))
  {
    match step
    case Client(_) =>
    case Task => TaskGrows(s);
    case Work(answer) => M.WorkFrame(s.matching, answer);
  }

  lemma {:induction false} ExecGrows(s: State, steps: seq<Step>)
    ensures Grows(s, Exec(s, steps))
    decreases steps
  {
    if steps != [] {
      ApplyGrows(s, steps[0]);
      ExecGrows(Apply(s, steps[0]), steps[1..]);
    }
  }

  lemma AgreedBefore(s: State, end: State, stream: M.Stream)
    requires Inv(s) && Grows(s, end) && Agrees(end, stream) && !end.download.late
    ensures Agrees(s, stream)
  {
    if s.matching.streamer != M.Streaming {
      assert s.download.marked;
    }
  }

  lemma ChunkProjects(s: State, stream: M.Stream)
    requires Inv(s) && Agrees(s, stream) && s.download.pc.Deliver?
    ensures TaskStep(s).matching == M.CallbackStep(stream, s.matching)
  {
    var d := s.download;
    assert d.pushed[d.delivered..][0] == (D.InHand(d) + d.queue)[0] == d.pc.data;
  }

  lemma DoneProjects(s: State, end: State, stream: M.Stream)
    requires Inv(s) && Grows(TaskStep(s), end) && Agrees(end, stream) && !end.download.late
    requires s.download.pc == D.CheckFinished && s.download.finished.Some?
    ensures TaskStep(s).matching == M.CallbackStep(stream, s.matching)
  {
    var d := s.download;
    assert d.marked && d.queue == [];
    assert d.pushed[d.delivered..] == [];
  }

  lemma ExportMoves(s: State, step: Step, end: State, stream: M.Stream)
    requires Inv(s) && Grows(s, end) && Grows(Apply(s, step), end) && Agrees(end, stream) && !end.download.late
    ensures Apply(s, step).matching == M.Exec(stream, s.matching, ExportStep(s, step))
  {
    var t := Apply(s, step).matching;
    assert M.Exec(stream, t, []) == t;
    AgreedBefore(s, end, stream);
    if step.Task? && s.download.pc.Deliver? {
      ChunkProjects(s, stream);
    } else if step.Task? && Calls(s.download) {
      DoneProjects(s, end, stream);
    }
  }

  lemma {:induction false} ExportProjects(s: State, steps: seq<Step>, stream: M.Stream)
    requires Inv(s) && Agrees(Exec(s, steps), stream) && !Exec(s, steps).download.late
    ensures Exec(s, steps).matching == M.Exec(stream, s.matching, ExportSteps(s, steps))
    decreases steps
  {
    if steps != [] {
      var t, end := Apply(s, steps[0]), Exec(s, steps);
      ExecGrows(s, steps);
      ExecGrows(t, steps[1..]);
      ExportMoves(s, steps[0], end, stream);
      ApplyKeeps(s, steps[0]);
      ExportProjects(t, steps[1..], stream);
      M.ExecAppend(stream, s.matching, ExportStep(s, steps[0]), ExportSteps(t, steps[1..]));
    }
  }

  lemma {:induction false} HonestProjects(s: State, steps: seq<Step>)
    requires Honest(steps)
    ensures M.Honest(ExportSteps(s, steps))
    decreases steps
  {
    if steps != [] {
      HonestProjects(Apply(s, steps[0]), steps[1..]);
    }
  }

  /** What the client has pushed, and how it says the stream ended. */
  function StreamOf(d: D.State): M.Stream {
    M.Stream(d.pushed, if d.finished.Some? then d.finished.value else DEFAULT_RESULT)
  }

  /** Every run of client, download task and worker together, in which nothing is pushed after the mark, is a run
      of the download machine and a run of the streamer and the worker over what the client pushed. */
  lemma RunsProject(table: Table, steps: seq<Step>) returns (download: seq<D.Step>, matching: seq<M.Step>)
    requires !Exec(Initial(table), steps).download.late
    ensures
      var s := Exec(Initial(table), steps);
      && s.download == D.Exec(D.INITIAL, download)
      && s.matching == M.Exec(StreamOf(s.download), M.Initial(table), matching)
    ensures Honest(steps) ==> M.Honest(matching)
  {
    var s0, s := Initial(table), Exec(Initial(table), steps);
    download, matching := DownloadSteps(s0, steps), ExportSteps(s0, steps);
    DownloadProjects(s0, steps);
    InvHolds(s0, steps);
    ExportProjects(s0, steps, StreamOf(s.download));
    if Honest(steps) {
      HonestProjects(s0, steps);
    }
  }

  lemma {:induction false} InvHolds(s: State, steps: seq<Step>)
    requires Inv(s)
    ensures Inv(Exec(s, steps))
    decreases steps
  {
    if steps != [] {
      ApplyKeeps(s, steps[0]);
      InvHolds(Apply(s, steps[0]), steps[1..]);
    }
  }

  /** The advertiser's list as a whole fits the parser: its bytes the buffer, its rows the row queue. */
  predicate FitsParser(advertiser: string) {
    |advertiser| <= MAX_BUFFERED_BYTES && |Complete(advertiser, '\n')| <= QUEUE_CAPACITY
  }

  /** If the advertiser's list fits the parser, every successful run of client, task and worker, whatever the client
      cut the list into, has uploaded exactly the values of the matching rows and flagged exactly their keys. */
  lemma ExportComputesJoin(table: Table, advertiser: string, steps: seq<Step>)
    requires M.NoneMatched(table) && Honest(steps) && FitsParser(advertiser)
    requires
      var s := Exec(Initial(table), steps);
      !s.download.late && s.matching.pc == M.Returned(Success) && Concat(s.download.pushed) == advertiser
    ensures
      var e, rows := Exec(Initial(table), steps).matching, Complete(advertiser, '\n');
      Data(e.log) == Emit(table, rows) && MatchedKeys(e.table) == Keys(rows) * table.Keys
  {
    var download, matching := RunsProject(table, steps);
    var stream := StreamOf(Exec(Initial(table), steps).download);
    L.NothingLostIff(stream, table);
    M.MatchingComputesJoin(stream, table, matching);
  }
}

/** What an export reports: every way it can return, said of the step that makes it return. */
module Reports {
  import opened Results
  import opened Lines
  import opened Parser
  import opened Upload
  import opened Worker
  import opened Matching
  import CP = ConcurrentParser

  /** The upload, if it was started, was cancelled. */
  predicate CancelledSince(before: State, now: State) {
    now.log == if before.log == [] then [] else before.log + [Cancelled]
  }

  /** The client was told that the upload is done, and the export reports what the client answered. */
  predicate EndedByClient(before: State, answer: Answer, now: State) {
    && before.pc == FinishUpload && before.log != []
    && now.log == before.log + [MarkedDone] && now.pc == Returned(answer.outcome)
  }

  /** The client did not take a value: neither to open the upload with, in which case the answer is a failure at any
      rate, nor to go on with. */
  predicate EndedByRefusal(before: State, answer: Answer, now: State) {
    && before.pc.SendValue? && !answer.accepted && CancelledSince(before, now)
    && now.pc == Returned(if before.log == [] && answer.outcome == Success then Failure(Unknown) else answer.outcome)
  }

  /** The download ended with a failure. */
  predicate EndedByStream(stream: Stream, before: State, now: State) {
    && before.pc == CheckResult && before.received && stream.outcome != Success
    && CancelledSince(before, now) && now.pc == Returned(stream.outcome)
  }

  /** The worker took a row that does not hold exactly one id. */
  predicate EndedByRow(before: State, now: State) {
    && before.pc.ParseRow? && before.parser.inFlight.Some?
    && (before.parser.inFlight.value == "" || ',' in before.parser.inFlight.value)
    && CancelledSince(before, now) && now.pc == Returned(Failure(UnexpectedNumberOfColumns))
  }

  predicate EndedSomehow(stream: Stream, before: State, answer: Answer, now: State) {
    || EndedByClient(before, answer, now)
    || EndedByRefusal(before, answer, now)
    || EndedByStream(stream, before, now)
    || EndedByRow(before, now)
  }

  lemma ParseReports(table: Table, s: State, row: string, final: bool)
    requires WorkInv(table, s) && s.pc == ParseRow(final) && s.parser.inFlight == Some(row)
    requires ParseStep(s, row, IdOf(row), final).pc.Returned?
    ensures EndedByRow(s, ParseStep(s, row, IdOf(row), final))
  {
    IdOfRow(row);
  }

  lemma SendReports(table: Table, s: State, row: string, final: bool, answer: Answer)
    requires WorkInv(table, s) && s.pc == SendValue(final, row) && SendStep(s, row, final, answer).pc.Returned?
    ensures EndedByRefusal(s, answer, SendStep(s, row, final, answer))
  {
  }

  lemma StepReports(stream: Stream, table: Table, s: State, answer: Answer)
    requires Inv(stream, table, s) && Working(s.pc) && WorkStep(s, answer).pc.Returned?
    ensures EndedSomehow(stream, s, answer, WorkStep(s, answer))
  {
    match s.pc
    case ParseRow(final) => ParseReports(table, s, s.parser.inFlight.value, final);
    case SendValue(final, row) => SendReports(table, s, row, final, answer);
    case _ =>
  }

  lemma CallbackLeavesWorker(stream: Stream, s: State)
    ensures CallbackStep(stream, s).pc == s.pc && CallbackStep(stream, s).log == s.log
  {
  }

  lemma {:induction false} ReturnedStays(stream: Stream, s: State, steps: seq<Step>)
    requires !Working(s.pc)
    ensures Exec(stream, s, steps).pc == s.pc && Exec(stream, s, steps).log == s.log
    decreases steps
  {
    if steps != [] {
      if steps[0].Callback? {
        CallbackLeavesWorker(stream, s);
      }
      ReturnedStays(stream, Apply(stream, s, steps[0]), steps[1..]);
    }
  }

  lemma ReturnsByWork(stream: Stream, table: Table, s: State, step: Step, t: State)
    requires Inv(stream, table, s) && Working(s.pc) && t == Apply(stream, s, step) && t.pc.Returned?
    ensures step.Work? && EndedSomehow(stream, s, step.answer, t)
  {
    match step
    case Callback => CallbackLeavesWorker(stream, s);
    case Work(answer) => StepReports(stream, table, s, answer);
  }

  lemma EndedLater(stream: Stream, before: State, answer: Answer, now: State, later: State)
    requires EndedSomehow(stream, before, answer, now) && later.pc == now.pc && later.log == now.log
    ensures EndedSomehow(stream, before, answer, later)
  {
  }

  /** Step `n` made the export return. */
  ghost predicate ReturnsAt(stream: Stream, table: Table, s: State, steps: seq<Step>, n: nat) {
    && n < |steps| && steps[n].Work?
    && Inv(stream, table, Exec(stream, s, steps[..n])) && Working(Exec(stream, s, steps[..n]).pc)
    && EndedSomehow(stream, Exec(stream, s, steps[..n]), steps[n].answer, Exec(stream, s, steps))
  }

  lemma ReturnsLater(stream: Stream, table: Table, s: State, steps: seq<Step>, m: nat)
    requires steps != [] && ReturnsAt(stream, table, Apply(stream, s, steps[0]), steps[1..], m)
    ensures ReturnsAt(stream, table, s, steps, m + 1)
  {
    assert steps[..m + 1][0] == steps[0] && steps[..m + 1][1..] == steps[1..][..m];
  }

  lemma ReturnsNow(stream: Stream, table: Table, s: State, steps: seq<Step>)
    requires Inv(stream, table, s) && Working(s.pc) && steps != [] && Apply(stream, s, steps[0]).pc.Returned?
    ensures ReturnsAt(stream, table, s, steps, 0)
  {
    var t := Apply(stream, s, steps[0]);
    ReturnsByWork(stream, table, s, steps[0], t);
    ReturnedStays(stream, t, steps[1..]);
    EndedLater(stream, s, steps[0].answer, t, Exec(stream, t, steps[1..]));
    assert Exec(stream, s, steps[..0]) == s;
  }

  lemma ReturnsIfOver(stream: Stream, s: State, steps: seq<Step>)
    requires steps != [] && !Working(Apply(stream, s, steps[0]).pc) && Exec(stream, s, steps).pc.Returned?
    ensures Apply(stream, s, steps[0]).pc.Returned?
  {
    ReturnedStays(stream, Apply(stream, s, steps[0]), steps[1..]);
  }

  lemma {:induction false} ReturningStep(stream: Stream, table: Table, s: State, steps: seq<Step>) returns (n: nat)
    requires Inv(stream, table, s) && Honest(steps) && Working(s.pc) && Exec(stream, s, steps).pc.Returned?
    ensures ReturnsAt(stream, table, s, steps, n)
    decreases steps
  {
    if Working(Apply(stream, s, steps[0]).pc) {
      ApplyKeeps(stream, table, s, steps[0]);
      var m := ReturningStep(stream, table, Apply(stream, s, steps[0]), steps[1..]);
      ReturnsLater(stream, table, s, steps, m);
      n := m + 1;
    } else {
      ReturnsIfOver(stream, s, steps);
      ReturnsNow(stream, table, s, steps);
      n := 0;
    }
  }

  lemma MarkedMeansClient(stream: Stream, table: Table, before: State, answer: Answer, now: State)
    requires Inv(stream, table, before) && Working(before.pc) && IsHonest(answer)
    requires EndedSomehow(stream, before, answer, now)
    ensures now.log != [] && now.log[|now.log| - 1] == MarkedDone <==> EndedByClient(before, answer, now)
    ensures now.pc == Returned(Success) ==> EndedByClient(before, answer, now) && answer.outcome == Success
  {
  }

  /** Every export that returns does so in one of four ways, and each tells what it reports: the client's answer to the
      done marker, the client's answer to a value it did not take, the outcome of the download, or the error of
      a row that is no id row. In the last three an upload that was started is cancelled. */
  lemma ExportReports(stream: Stream, table: Table, steps: seq<Step>) returns (n: nat)
    requires NoneMatched(table) && Honest(steps) && Exec(stream, Initial(table), steps).pc.Returned?
    ensures n < |steps| && steps[n].Work?
    ensures
      var before, now := Exec(stream, Initial(table), steps[..n]), Exec(stream, Initial(table), steps);
      && Working(before.pc) && EndedSomehow(stream, before, steps[n].answer, now)
      && (now.log != [] && now.log[|now.log| - 1] == MarkedDone <==> EndedByClient(before, steps[n].answer, now))
      && (now.pc == Returned(Success) ==>
            EndedByClient(before, steps[n].answer, now) && steps[n].answer.outcome == Success)
  {
    InitialHolds(stream, table);
    n := ReturningStep(stream, table, Initial(table), steps);
    var before := Exec(stream, Initial(table), steps[..n]);
    MarkedMeansClient(stream, table, before, steps[n].answer, Exec(stream, Initial(table), steps));
  }

  /** What went wrong with the parser while the download was under way: its result is still unset as long as nothing was
      lost, and otherwise the error of the last chunk that was. */
  ghost predicate ResultTells(s: State) {
    && (s.streamer == Streaming && NothingLost(s) ==> s.streamResult == Failure(Unknown))
    && (s.streamer == Streaming && s.streamResult == Failure(Unknown) ==> NothingLost(s))
    && (s.streamer == Streaming ==>
          s.streamResult in {Failure(Unknown), Retry(BufferAtCapacity), Failure(QueueFull)})
  }

  lemma CallbackTells(stream: Stream, s: State)
    requires ResultTells(s)
    ensures ResultTells(CallbackStep(stream, s))
  {
  }

  lemma {:induction false} ResultAlwaysTells(stream: Stream, s: State, steps: seq<Step>)
    requires ResultTells(s)
    ensures ResultTells(Exec(stream, s, steps))
    decreases steps
  {
    if steps != [] {
      match steps[0] {
        case Callback => CallbackTells(stream, s);
        case Work(answer) => WorkFrame(s, answer);
      }
      ResultAlwaysTells(stream, Apply(stream, s, steps[0]), steps[1..]);
    }
  }

  /** Under every schedule, until the done call the stream's result is an error of the parser exactly if a chunk or a
      row has been lost. */
  lemma LossesAreReported(stream: Stream, table: Table, steps: seq<Step>)
    requires Exec(stream, Initial(table), steps).streamer == Streaming
    ensures
      var s := Exec(stream, Initial(table), steps);
      if NothingLost(s) then s.streamResult == Failure(Unknown)
      else s.streamResult == Retry(BufferAtCapacity) || s.streamResult == Failure(QueueFull)
  {
    ResultAlwaysTells(stream, Initial(table), steps);
  }
}

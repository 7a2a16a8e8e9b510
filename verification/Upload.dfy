/** Streaming upload: opening it, and the functor that pushes to it, finishes it or cancels it. */
module Upload {
  import opened Results
  import opened Lines

  /** What the upload client saw, in order. */
  datatype Event = Opened(data: string) | Pushed(data: string) | MarkedDone | Cancelled

  /** The client's answer to one call: whether it takes the data, and the upload's final result,
      which a call that ends the upload waits for. */
  datatype Answer = Answer(accepted: bool, outcome: ExecutionResult)

  /** An upload is opened once, pushed to while open, ended once, and then left alone. */
  datatype Phase = NotStarted | Open | Ended | Broken

  function Next(phase: Phase, event: Event): Phase {
    match (phase, event)
    case (NotStarted, Opened(_)) => Open
    case (Open, Pushed(_)) => Open
    case (Open, MarkedDone) => Ended
    case (Open, Cancelled) => Ended
    case _ => Broken
  }

  function PhaseOf(log: seq<Event>): Phase {
    if log == [] then NotStarted else Next(PhaseOf(log[..|log| - 1]), log[|log| - 1])
  }

  lemma PhaseOfNext(log: seq<Event>, event: Event)
    ensures PhaseOf(log + [event]) == Next(PhaseOf(log), event)
  {
    assert (log + [event])[..|log|] == log;
  }

  /** The bytes handed to the client. */
  function Data(log: seq<Event>): string {
    if log == [] then ""
    else
      var last := log[|log| - 1];
      Data(log[..|log| - 1]) + match last case Opened(data) => data case Pushed(data) => data case _ => ""
  }

  lemma DataOfNext(log: seq<Event>, event: Event)
    ensures Data(log + [event]) ==
      Data(log) + match event case Opened(data) => data case Pushed(data) => data case _ => ""
  {
    assert (log + [event])[..|log|] == log;
  }

  /** What one call of the functor does. */
  function Use(log: seq<Event>, more: ResultOr<Option<string>>, answer: Answer): (seq<Event>, ExecutionResult) {
    match more
    case Err(_) => (log + [Cancelled], answer.outcome)
    case Ok(None) => (log + [MarkedDone], answer.outcome)
    case Ok(Some(data)) =>
      if answer.accepted then (log + [Pushed(data)], Success) else (log + [Cancelled], answer.outcome)
  }

  /** Sends data: the first piece opens the upload, the others go through the functor. */
  function Send(log: seq<Event>, data: string, answer: Answer): (seq<Event>, ExecutionResult) {
    if log != [] then Use(log, Ok(Some(data)), answer)
    else if answer.accepted then ([Opened(data)], Success)
    else ([], if answer.outcome == Success then DEFAULT_RESULT else answer.outcome)
  }

  /** `CancelUploadIfStarted`. */
  function CancelIfStarted(log: seq<Event>, result: ExecutionResult): seq<Event> {
    if log == [] then log else Use(log, Err(result), Answer(true, result)).0
  }

  /** The producer side of an upload. */
  class ProducerStreamingContext {
    var log: seq<Event>

    constructor ()
      ensures log == []
    {
      log := [];
    }

    method TryCancel()
      modifies this
      ensures log == old(log) + [Cancelled]
    {
      log := log + [Cancelled];
    }

    method MarkDone()
      modifies this
      ensures log == old(log) + [MarkedDone]
    {
      log := log + [MarkedDone];
    }

    method TryPushRequest(data: string, accepted: bool) returns (ok: bool)
      modifies this
      ensures ok == accepted && log == if accepted then old(log) + [Pushed(data)] else old(log)
    {
      if accepted {
        log := log + [Pushed(data)];
      }
      return accepted;
    }

    /** `PutBlobStream`: opens the upload with its first data, or reports why it cannot. */
    method PutBlobStream(initial: string, answer: Answer) returns (result: ExecutionResult)
      requires log == []
      modifies this
      ensures (log, result) == Send([], initial, answer)
      ensures answer.accepted ==> log == [Opened(initial)] && result == Success
      ensures !answer.accepted ==> log == [] && result != Success
      ensures !answer.accepted && answer.outcome != Success ==> result == answer.outcome
    {
      if answer.accepted {
        log := [Opened(initial)];
        return Success;
      }
      return if answer.outcome == Success then DEFAULT_RESULT else answer.outcome;
    }

    /** `PutBlobStreamFunctor`: cancels on a failure, finishes on the done marker, pushes data otherwise. */
    method PutBlobStreamFunctor(more: ResultOr<Option<string>>, answer: Answer) returns (result: ExecutionResult)
      modifies this
      ensures (log, result) == Use(old(log), more, answer)
      ensures more.Err? ==> log == old(log) + [Cancelled] && result == answer.outcome
      ensures more == Ok(None) ==> log == old(log) + [MarkedDone] && result == answer.outcome
      ensures more.Ok? && more.value.Some? ==>
        if answer.accepted then log == old(log) + [Pushed(more.value.value)] && result == Success
        else log == old(log) + [Cancelled] && result == answer.outcome
    {
      if more.Err? {
        TryCancel();
        return answer.outcome;
      }
      if more.value == None {
        MarkDone();
        return answer.outcome;
      }
      var pushed := TryPushRequest(more.value.value, answer.accepted);
      if !pushed {
        TryCancel();
        return answer.outcome;
      }
      return Success;
    }
  }
}

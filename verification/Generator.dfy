/** The generator's own loops: pushing the ids to the encryptor and collecting what is left of the pairs.
    Both are runs of the pipeline's machine. */
module Generator {
  import opened Results
  import opened Lines
  import opened Mapping
  import opened Pipeline
  import opened Encryptor
  import Failures

  /** The machine's state as far as the encryptor holds it; what it does not hold is `rest`'s. */
  ghost function WithEncryptor(rest: State, encryptor: RandomIdEncryptor): State
    reads encryptor
  {
    State(rest.now.(pairs := encryptor.encryptedIdsQueue, doneEncrypting := encryptor.doneEncrypting,
                    doneStreaming := encryptor.doneStreaming),
          encryptor.usedIds, encryptor.made, rest.start, rest.outputs)
  }

  /** The machine's shared state when a session over `ids` has just begun with the given context. */
  ghost function Begun(rest: State, encryptor: RandomIdEncryptor, context: EncryptContext, ids: seq<string>): Shared
    reads encryptor, context
  {
    Shared(GetRequest(false), rest.now.streamer, Push(0), OpenStream, encryptor.encryptedIdsQueue,
           encryptor.doneEncrypting, encryptor.doneStreaming, ids, context.requests, context.marked, DEFAULT_RESULT,
           context.finished, context.reported, [], false, DEFAULT_RESULT, [])
  }

  /** Begins a session: the encryptor accepts it or not, and the executor takes its task or not; in each case
      what happens to the shared state is the machine's step. */
  method BeginEncryption(ghost rest: State, encryptor: RandomIdEncryptor, ids: seq<string>, scheduled: bool)
    returns (result: ExecutionResult, context: EncryptContext)
    requires rest.now.main == MainIdle && rest.now.pusher == PushIdle
    modifies encryptor`doneEncrypting, encryptor`doneStreaming
    ensures fresh(context) && context.capacity == |ids|
    ensures result == Success <==> old(Accepts(WithEncryptor(rest, encryptor).now)) && scheduled
    ensures Apply(old(WithEncryptor(rest, encryptor)), Begin(ids, scheduled)).now
      == if result == Success then Begun(rest, encryptor, context, ids) else WithEncryptor(rest, encryptor).now
  {
    context := new EncryptContext(|ids|);
    result := encryptor.Encrypt(scheduled);
  }

  /** Opens the stream of pairs: the machine's step of the main thread. */
  method OpenPairStream(ghost rest: State, encryptor: RandomIdEncryptor, numIds: nat, scheduled: bool)
    returns (result: ExecutionResult, context: StreamContext)
    requires rest.now.main == OpenStream && rest.now.responses == [] && !rest.now.streamingDone
    requires rest.now.streamingResult == DEFAULT_RESULT
    ensures fresh(context) && context.capacity == numIds
    ensures
      var n := rest.now.(responses := context.responses, streamingDone := context.finished,
                         streamingResult := context.reported);
      Apply(rest, StepMain(scheduled)) == rest.(now :=
        if result == Success then n.(streamer := GetPair(false), main := GetResponse) else n.(main := MainIdle))
  {
    context := new StreamContext(numIds);
    result := encryptor.StreamEncryptedIds(scheduled);
  }

  /** The machine's state with the pushing thread at `at`; what the context does not hold is `rest`'s. */
  ghost function WithPusher(rest: State, context: EncryptContext, at: Pusher, result: ExecutionResult): State
    reads context
  {
    rest.(now := rest.now.(pusher := at, pushingResult := result,
                           requests := context.requests, marked := context.marked))
  }

  ghost predicate PusherOnly(steps: seq<Step>) {
    forall i :: 0 <= i < |steps| ==> steps[i].StepPusher?
  }

  method PushOne(ghost rest: State, context: EncryptContext, ids: seq<string>, i: nat)
    returns (pushed: ExecutionResult)
    requires ids == rest.now.ids && context.capacity == |ids| && i < |ids|
    modifies context
    ensures pushed != Success ==> context.marked
    ensures WithPusher(rest, context, if pushed == Success then Push(i + 1) else PushIdle,
                       if pushed == Success then DEFAULT_RESULT else pushed)
      == Apply(old(WithPusher(rest, context, Push(i), DEFAULT_RESULT)), StepPusher)
    ensures pushed == Success ==>
      context.requests == old(context.requests) + [ids[i]] && context.marked == old(context.marked)
    ensures pushed == Success <==> !old(context.marked) && |old(context.requests)| < |ids|
  {
    pushed := context.TryPushRequest(ids[i]);
    if pushed != Success {
      context.MarkDone();
    }
  }

  /** The pushing thread: pushes every id, in order, and marks the requests done; a push that fails ends it. */
  method PushIds(ghost rest: State, context: EncryptContext, ids: seq<string>)
    returns (pushingResult: ExecutionResult, ghost steps: seq<Step>)
    requires ids == rest.now.ids && context.capacity == |ids|
    modifies context
    ensures PusherOnly(steps) && context.marked
    ensures WithPusher(rest, context, PushIdle, pushingResult)
      == Exec(old(WithPusher(rest, context, Push(0), DEFAULT_RESULT)), steps)
    ensures if !old(context.marked) && old(context.requests) == []
            then pushingResult == Success && context.requests == ids
            else pushingResult == Success ==> context.requests == old(context.requests) + ids
  {
    ghost var start := WithPusher(rest, context, Push(0), DEFAULT_RESULT);
    steps := [];
    for i := 0 to |ids|
      invariant PusherOnly(steps) && context.marked == old(context.marked)
      invariant WithPusher(rest, context, Push(i), DEFAULT_RESULT) == Exec(start, steps)
      invariant context.requests == old(context.requests) + ids[..i]
    {
      ghost var s := WithPusher(rest, context, Push(i), DEFAULT_RESULT);
      var pushed := PushOne(rest, context, ids, i);
      ExecThen(start, steps, s, StepPusher);
      steps := steps + [StepPusher];
      if pushed != Success {
        return pushed, steps;
      }
      assert ids[..i + 1] == ids[..i] + [ids[i]];
      Regroup(old(context.requests), ids[..i], [ids[i]]);
    }
    label AllPushed:
    ghost var last := FinishPushing(rest, context);
    pushingResult := Success;
    ExecThen(start, steps, old@AllPushed(WithPusher(rest, context, Push(|ids|), DEFAULT_RESULT)), last);
    steps := steps + [last];
    assert ids[..|ids|] == ids && [] + ids == ids;
  }

  method FinishPushing(ghost rest: State, context: EncryptContext) returns (ghost step: Step)
    modifies context
    ensures step == StepPusher && context.marked && context.requests == old(context.requests)
    ensures WithPusher(rest, context, PushIdle, Success)
      == Apply(old(WithPusher(rest, context, Push(|rest.now.ids|), DEFAULT_RESULT)), step)
  {
    step := StepPusher;
    context.MarkDone();
  }

  // The retrieval, whatever the other actors do meanwhile.

  /** A step of the pushing thread or of a task. */
  type Act = step: Step | !step.StepMain? && !step.Begin? witness StepPusher

  /** The steps of a run that are not the main thread's. */
  function ActsIn(steps: seq<Step>): seq<Step> {
    if steps == [] then [] else (if steps[0].StepMain? then [] else [steps[0]]) + ActsIn(steps[1..])
  }

  function Flat(batches: seq<seq<Act>>): seq<Step> {
    if batches == [] then [] else batches[0] + Flat(batches[1..])
  }

  lemma {:induction false} ActsInActs(acts: seq<Act>)
    ensures ActsIn(acts) == acts
  {
    if acts != [] {
      ActsInActs(acts[1..]);
    }
  }

  lemma {:induction false} ActsInAppend(a: seq<Step>, b: seq<Step>)
    ensures ActsIn(a + b) == ActsIn(a) + ActsIn(b)
  {
    if a == [] {
      assert a + b == b;
    } else {
      assert (a + b)[1..] == a[1..] + b;
      ActsInAppend(a[1..], b);
    }
  }

  /** Goes on with a run. Of the acts that were to come, those `later` are still to come. */
  lemma GoOn(s: State, before: seq<Step>, more: seq<Step>, all: seq<Step>, left: seq<Step>, later: seq<Step>)
    returns (steps: seq<Step>)
    requires ActsIn(before) + left == all && ActsIn(more) + later == left
    ensures steps == before + more && Exec(s, steps) == Exec(Exec(s, before), more)
    ensures ActsIn(steps) + later == all
  {
    steps := before + more;
    ExecAppend(s, before, more);
    ActsInAppend(before, more);
    Regroup(ActsIn(before), ActsIn(more), later);
  }

  /** The others act, and then the main thread. */
  lemma ThenMain(s: State, acts: seq<Act>, t: State) returns (steps: seq<Step>)
    requires t == Exec(s, acts)
    ensures Exec(s, steps) == Apply(t, StepMain(true)) && ActsIn(steps) == acts
  {
    steps := acts + [StepMain(true)];
    ExecThen(s, acts, t, StepMain(true));
    ActsInActs(acts);
    ActsInAppend(acts, [StepMain(true)]);
    assert ActsIn([StepMain(true)]) == [] && ActsIn(acts) + [] == acts;
  }

  lemma {:induction false} ActsLeaveMain(s: State, acts: seq<Act>)
    ensures Exec(s, acts).now.main == s.now.main && Exec(s, acts).now.collected == s.now.collected
    decreases acts
  {
    if acts != [] {
      ActLeavesMain(s, acts[0]);
      ActsLeaveMain(Apply(s, acts[0]), acts[1..]);
    }
  }

  lemma ActLeavesMain(s: State, act: Act)
    ensures Apply(s, act).now.main == s.now.main && Apply(s, act).now.collected == s.now.collected
  {
    match act
    case StepPusher => Failures.PusherSameStream(s.now);
    case StepEncrypter(_, scheduled) => Failures.EncrypterSameStream(s.now, scheduled);
    case StepStreamer(taken, scheduled) => Failures.StreamerSameFront(s.now, taken, scheduled);
  }

  // Streaming that is done stays done within a session.

  lemma {:induction false} FlatHasActsOnly(batches: seq<seq<Act>>)
    ensures forall i :: 0 <= i < |Flat(batches)| ==> !Flat(batches)[i].Begin?
  {
    if batches != [] {
      FlatHasActsOnly(batches[1..]);
    }
  }

  lemma {:induction false} BeginIsNoAct(steps: seq<Step>)
    requires forall i :: 0 <= i < |ActsIn(steps)| ==> !ActsIn(steps)[i].Begin?
    ensures forall i :: 0 <= i < |steps| ==> !steps[i].Begin?
  {
    if steps != [] {
      var all, rest := ActsIn(steps), ActsIn(steps[1..]);
      assert all == if steps[0].StepMain? then rest else [steps[0]] + rest;
      forall i | 0 <= i < |rest| ensures !rest[i].Begin? {
        assert rest[i] == all[if steps[0].StepMain? then i else i + 1];
      }
      assert steps[0].StepMain? || all[0] == steps[0];
      BeginIsNoAct(steps[1..]);
    }
  }

  lemma StreamerKeepsDone(n: Shared, taken: bool, scheduled: bool)
    ensures n.streamingDone ==> StreamerStep(n, taken, scheduled).streamingDone
  {
    match n.streamer
    case Respond(_, _) =>
    case _ =>
  }

  lemma StepKeepsDone(s: State, step: Step)
    requires !step.Begin? && s.now.streamingDone
    ensures Apply(s, step).now.streamingDone
  {
    match step
    case StepMain(scheduled) => Failures.MainSameTasks(s.now, scheduled);
    case StepPusher => Failures.PusherSameStream(s.now);
    case StepEncrypter(_, scheduled) => Failures.EncrypterSameStream(s.now, scheduled);
    case StepStreamer(taken, scheduled) => StreamerKeepsDone(s.now, taken, scheduled);
  }

  lemma {:induction false} DoneStays(s: State, steps: seq<Step>)
    requires s.now.streamingDone && forall i :: 0 <= i < |steps| ==> !steps[i].Begin?
    ensures Exec(s, steps).now.streamingDone
    decreases steps
  {
    if steps != [] {
      StepKeepsDone(s, steps[0]);
      DoneStays(Apply(s, steps[0]), steps[1..]);
    }
  }

  /** The main thread with the state it shares. Before each of its accesses the pushing thread and the tasks
      may act. */
  class Session {
    var state: State
    var others: seq<seq<Act>>  // what the other actors do before each access to come

    constructor (state: State, others: seq<seq<Act>>)
      ensures this.state == state && this.others == others
    {
      this.state := state;
      this.others := others;
    }

    /** The retrieval waits for a response or for the end of the stream, and nothing will come any more. */
    predicate Waits()
      reads this
    {
      others == [] && state.now.responses == [] && !state.now.streamingDone
    }

    /** The other actors act. */
    method Others() returns (ghost acts: seq<Act>)
      modifies this
      ensures state == Exec(old(state), acts)
      ensures state.now.main == old(state).now.main && state.now.collected == old(state).now.collected
      ensures acts + Flat(others) == old(Flat(others))
      ensures if old(others) == [] then others == [] && acts == []
              else others == old(others)[1..] && acts == old(others)[0]
    {
      acts := [];
      if others != [] {
        ActsLeaveMain(state, others[0]);
        state := Exec(state, others[0]);
        acts := others[0];
        others := others[1..];
      }
    }

    method TryGetNextResponse() returns (response: Option<Pair>, ghost steps: seq<Step>)
      requires state.now.main == GetResponse
      modifies this
      ensures ActsIn(steps) + Flat(others) == old(Flat(others))
      ensures state == Exec(old(state), steps)
      ensures state.now.main == Received(response) && state.now.collected == old(state).now.collected
      ensures |others| <= |old(others)| && (old(others) != [] ==> |others| < |old(others)|)
      ensures old(others) == [] ==>
        && others == [] && state.now.streamingDone == old(state).now.streamingDone
        && response == FirstPair(old(state).now.responses) && state.now.responses == RestPairs(old(state).now.responses)
    {
      ghost var s := state;
      ghost var acts := Others();
      steps := ThenMain(s, acts, state);
      response := FirstPair(state.now.responses);
      state := Apply(state, StepMain(true));
    }

    /** Adds a pair to the result. */
    method Collect(pairs: seq<Pair>, pair: Pair) returns (collected: seq<Pair>, ghost steps: seq<Step>)
      requires state.now.main == Received(Some(pair)) && state.now.collected == pairs
      modifies this
      ensures ActsIn(steps) + Flat(others) == old(Flat(others))
      ensures state == Exec(old(state), steps) && collected == pairs + [pair]
      ensures state.now.main == GetResponse && state.now.collected == collected
      ensures |others| <= |old(others)|
      ensures old(others) == [] ==>
        && others == [] && state.now.streamingDone == old(state).now.streamingDone
        && state.now.responses == old(state).now.responses
    {
      ghost var s := state;
      ghost var acts := Others();
      steps := ThenMain(s, acts, state);
      collected := pairs + [pair];
      state := Apply(state, StepMain(true));
    }

    method LoadStreamingDone() returns (done: bool, ghost steps: seq<Step>)
      requires state.now.main == Received(None)
      modifies this
      ensures ActsIn(steps) + Flat(others) == old(Flat(others))
      ensures state == Exec(old(state), steps)
      ensures state.now.main == (if done then GetLeftovers else GetResponse)
      ensures state.now.collected == old(state).now.collected
      ensures |others| <= |old(others)|
      ensures old(others) == [] ==>
        && others == [] && state.now.responses == old(state).now.responses
        && done == state.now.streamingDone == old(state).now.streamingDone
    {
      ghost var s := state;
      ghost var acts := Others();
      steps := ThenMain(s, acts, state);
      done := state.now.streamingDone;
      state := Apply(state, StepMain(true));
    }

    /** Takes a response that was pushed before the end was seen; if there is none, the stream's result decides. */
    method TakeLeftover() returns (response: Option<Pair>, ghost steps: seq<Step>)
      requires state.now.main == GetLeftovers
      modifies this
      ensures ActsIn(steps) + Flat(others) == old(Flat(others))
      ensures state == Exec(old(state), steps)
      ensures match response
        case Some(pair) => state.now.main == GetLeftovers && state.now.collected == old(state).now.collected + [pair]
        case None =>
          && state.now.main == (if state.now.streamingResult == Success then AwaitEncryption else MainIdle)
          && state.now.collected == old(state).now.collected
      ensures |others| <= |old(others)|
      ensures old(others) != [] ==> |others| < |old(others)|
      ensures old(others) == [] && response.Some? ==>
        others == [] && |state.now.responses| < |old(state).now.responses|
    {
      ghost var s := state;
      ghost var acts := Others();
      steps := ThenMain(s, acts, state);
      response := FirstPair(state.now.responses);
      state := Apply(state, StepMain(true));
    }

    /** The first loop of the retrieval: takes responses until the stream is seen done after none was left. */
    method CollectResponses() returns (done: bool, pairs: seq<Pair>, ghost steps: seq<Step>)
      requires state.now.main == GetResponse && state.now.collected == []
      modifies this
      ensures ActsIn(steps) + Flat(others) == old(Flat(others))
      ensures state == Exec(old(state), steps) && state.now.collected == pairs
      ensures if done then state.now.main == GetLeftovers else state.now.main == GetResponse && Waits()
    {
      ghost var start, all := state, Flat(others);
      pairs, steps := [], [];
      done := false;
      while !done && !Waits()
        invariant state == Exec(start, steps) && state.now.collected == pairs
        invariant ActsIn(steps) + Flat(others) == all
        invariant state.now.main == if done then GetLeftovers else GetResponse
        decreases !done, |others|, |state.now.responses|
      {
        ghost var left, more := Flat(others), [];
        pairs, done, more := Round(pairs);
        steps := GoOn(start, steps, more, all, left, Flat(others));
      }
    }

    /** One round of the first loop. */
    method Round(pairs: seq<Pair>) returns (collected: seq<Pair>, done: bool, ghost steps: seq<Step>)
      requires state.now.main == GetResponse && state.now.collected == pairs && !Waits()
      modifies this
      ensures ActsIn(steps) + Flat(others) == old(Flat(others))
      ensures state == Exec(old(state), steps) && state.now.collected == collected
      ensures state.now.main == if done then GetLeftovers else GetResponse
      ensures |others| <= |old(others)| && (old(others) != [] ==> |others| < |old(others)|)
      ensures old(others) == [] && !done ==> others == [] && |state.now.responses| < |old(state).now.responses|
    {
      ghost var start, all, more := state, Flat(others), [];
      var response;
      response, steps := TryGetNextResponse();
      ghost var left := Flat(others);
      collected, done := pairs, false;
      if response != None {
        collected, more := Collect(pairs, response.value);
      } else {
        done, more := LoadStreamingDone();
      }
      steps := GoOn(start, steps, more, all, left, Flat(others));
    }

    /** The second loop: whatever was pushed before streaming was seen done. */
    method CollectLeftovers(before: seq<Pair>) returns (pairs: seq<Pair>, ghost steps: seq<Step>)
      requires state.now.main == GetLeftovers && state.now.collected == before
      modifies this
      ensures ActsIn(steps) + Flat(others) == old(Flat(others))
      ensures state == Exec(old(state), steps) && state.now.collected == pairs
      ensures state.now.main == if state.now.streamingResult == Success then AwaitEncryption else MainIdle
    {
      ghost var start, all := state, Flat(others);
      pairs := before;
      var response;
      response, steps := TakeLeftover();
      while response != None
        invariant state == Exec(start, steps) && ActsIn(steps) + Flat(others) == all
        invariant state.now.collected == pairs + InHand(response)
        invariant state.now.main == if response != None then GetLeftovers
                                    else if state.now.streamingResult == Success then AwaitEncryption else MainIdle
        decreases response != None, |others|, |state.now.responses|
      {
        ghost var left, more := Flat(others), [];
        pairs := pairs + [response.value];
        response, more := TakeLeftover();
        steps := GoOn(start, steps, more, all, left, Flat(others));
      }
      assert pairs + [] == pairs;
    }

    /** `RetrieveAllIds`, whatever the other actors do meanwhile: it ends if the stream is done or gets done, with what
        the machine's main thread has collected or with the stream's failure. If it does not end, the others have
        done all they were to do, no response is left, and the stream is not done. It is a run of the machine in
        which the other actors do what they are to do, so what holds of every run holds of its result. */
    method RetrieveAllIds() returns (done: bool, result: ResultOr<seq<Pair>>, ghost steps: seq<Step>)
      requires state.now.main == GetResponse && state.now.collected == []
      modifies this
      ensures ActsIn(steps) + Flat(others) == old(Flat(others))
      ensures state == Exec(old(state), steps)
      ensures !done ==> state.now.main == GetResponse && others == [] && state.now.responses == []
      ensures old(state).now.streamingDone || state.now.streamingDone ==> done
      ensures done ==>
        if state.now.streamingResult == Success then
          result == Ok(state.now.collected) && state.now.main == AwaitEncryption
        else
          result == Err(state.now.streamingResult) && state.now.main == MainIdle
    {
      ghost var start, all, left, more := state, Flat(others), [], [];
      var pairs;
      done, pairs, steps := CollectResponses();
      result := Err(DEFAULT_RESULT);
      if done {
        left := Flat(others);
        pairs, more := CollectLeftovers(pairs);
        steps := GoOn(start, steps, more, all, left, Flat(others));
        result := if state.now.streamingResult == Success then Ok(pairs) else Err(state.now.streamingResult);
      } else if start.now.streamingDone {
        FlatHasActsOnly(old(others));
        assert ActsIn(steps) + [] == ActsIn(steps);
        BeginIsNoAct(steps);
        DoneStays(start, steps);
      }
    }
  }
}

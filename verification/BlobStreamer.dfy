/** Downloading a blob: the polling task that hands the client's responses to a callback,
    interleaved with the client that pushes them. */
module Delivery {
  import opened Results
  import opened Lines

  /** One invocation of the callback. */
  datatype Call = Chunk(data: string) | Done(result: ExecutionResult)

  /** Where the task is: at each point it has still to make the access the name tells. */
  datatype Pc =
    | CheckStop
    | Fetch
    | CheckMarked
    | FetchAgain
    | CheckFinished
    | Deliver(data: string)
    | Exited(notified: bool)

  datatype State = State(
    queue: seq<string>,                 // responses pushed and not yet fetched
    marked: bool,                       // the stream is marked done
    finished: Option<ExecutionResult>,  // set with the final result when the stream is finished
    stopped: bool,
    pc: Pc,
    pushed: seq<string>,                // every response pushed
    calls: seq<Call>,                   // every callback invocation
    delivered: nat,                     // how many of them carried a response
    late: bool)                         // a response was pushed after the stream was marked done

  datatype Step =
    | ClientPush(data: string)
    | ClientMarkDone
    | ClientFinish(result: ExecutionResult)
    | Stop
    | Task

  const INITIAL := State([], false, None, false, CheckStop, [], [], 0, false)

  function Apply(s: State, step: Step): State {
    match step
    case ClientPush(data) =>
      s.(queue := s.queue + [data], pushed := s.pushed + [data], late := s.late || s.marked)
    case ClientMarkDone => s.(marked := true)
    case ClientFinish(result) => if s.finished == None then s.(finished := Some(result)) else s
    case Stop => s.(stopped := true)
    case Task => TaskStep(s)
  }

  /** The next access of the polling loop. */
  function TaskStep(s: State): State {
    match s.pc
    case CheckStop => s.(pc := if s.stopped then Exited(false) else Fetch)
    case Fetch => FetchResponse(s, CheckMarked)
    case CheckMarked => s.(pc := if s.marked then FetchAgain else CheckStop)
    case FetchAgain => FetchResponse(s, CheckFinished)
    case CheckFinished =>
      if s.finished == None then s.(pc := CheckStop)
      else s.(calls := s.calls + [Done(s.finished.value)], pc := Exited(true))
    case Deliver(data) => s.(calls := s.calls + [Chunk(data)], delivered := s.delivered + 1, pc := CheckStop)
    case Exited(_) => s
  }

  function FetchResponse(s: State, whenEmpty: Pc): State {
    if s.queue == [] then s.(pc := whenEmpty)
    else s.(queue := s.queue[1..], pc := Deliver(s.queue[0]))
  }

  function Exec(s: State, steps: seq<Step>): State
    decreases steps
  {
    if steps == [] then s else Exec(Apply(s, steps[0]), steps[1..])
  }

  function Chunks(responses: seq<string>): (calls: seq<Call>)
    ensures |calls| == |responses|
  {
    seq(|responses|, i requires 0 <= i < |responses| => Chunk(responses[i]))
  }

  lemma ChunksNext(responses: seq<string>, n: nat)
    requires n < |responses|
    ensures Chunks(responses[..n + 1]) == Chunks(responses[..n]) + [Chunk(responses[n])]
  {
  }

  function InHand(s: State): seq<string> {
    if s.pc.Deliver? then [s.pc.data] else []
  }

  /** The done call, if the task has made it. */
  function DoneCalls(s: State): seq<Call> {
    if s.pc == Exited(true) && s.finished.Some? then [Done(s.finished.value)] else []
  }

  /** The first `delivered` responses were handed over, in order; the others are in hand or queued. */
  ghost predicate InOrder(s: State) {
    && s.delivered <= |s.pushed|
    && InHand(s) + s.queue == s.pushed[s.delivered..]
    && s.calls == Chunks(s.pushed[..s.delivered]) + DoneCalls(s)
  }

  /** Once the mark was seen and the queue was then seen empty, nothing more can come. */
  ghost predicate SawTheEnd(s: State) {
    && (s.pc == FetchAgain || s.pc == CheckFinished || s.pc == Exited(true) ==> s.marked)
    && ((s.pc == CheckFinished || s.pc == Exited(true)) && !s.late ==> s.queue == [])
    && (s.pc == Exited(true) ==> s.finished.Some?)
  }

  ghost predicate Inv(s: State) {
    InOrder(s) && SawTheEnd(s)
  }

  lemma PushKeeps(s: State, data: string)
    requires Inv(s)
    ensures Inv(Apply(s, ClientPush(data)))
  {
    var t := Apply(s, ClientPush(data));
    assert t.pushed[..s.delivered] == s.pushed[..s.delivered];
    assert t.pushed[s.delivered..] == s.pushed[s.delivered..] + [data];
    Regroup(InHand(s), s.queue, [data]);
  }

  lemma FetchKeepsOrder(s: State, whenEmpty: Pc)
    requires InOrder(s) && InHand(s) == [] && DoneCalls(s) == [] && !whenEmpty.Deliver? && !whenEmpty.Exited?
    ensures InOrder(FetchResponse(s, whenEmpty))
  {
    if s.queue != [] {
      assert [s.queue[0]] + s.queue[1..] == s.queue == [] + s.queue;
    }
  }

  lemma DeliverKeepsOrder(s: State)
    requires InOrder(s) && s.pc.Deliver?
    ensures InOrder(TaskStep(s))
  {
    var left := s.pushed[s.delivered..];
    assert left[0] == s.pc.data && left[1..] == s.queue == s.pushed[s.delivered + 1..];
    ChunksNext(s.pushed, s.delivered);
    assert s.calls + [] == s.calls && [] + s.queue == s.queue;
  }

  lemma TaskKeepsOrder(s: State)
    requires InOrder(s)
    ensures InOrder(TaskStep(s))
  {
    match s.pc
    case Fetch => FetchKeepsOrder(s, CheckMarked);
    case FetchAgain => FetchKeepsOrder(s, CheckFinished);
    case Deliver(data) => DeliverKeepsOrder(s);
    case CheckFinished =>
      if s.finished.Some? {
        assert s.calls + [] == s.calls;
      }
    case _ =>
  }

  lemma ApplyKeeps(s: State, step: Step)
    requires Inv(s)
    ensures Inv(Apply(s, step))
  {
    match step
    case ClientPush(data) => PushKeeps(s, data);
    case Task => TaskKeepsOrder(s);
    case _ =>
  }

  lemma {:induction false} ExecKeeps(s: State, steps: seq<Step>)
    requires Inv(s)
    ensures Inv(Exec(s, steps))
    decreases steps
  {
    if steps != [] {
      ApplyKeeps(s, steps[0]);
      ExecKeeps(Apply(s, steps[0]), steps[1..]);
    }
  }

  /** Under every schedule the callback has received a prefix of the pushed responses, in order and
      without repeats. Only a task that has exited has made the done call: one, as the last call, with
      the stream's final result, and, if no response was pushed after the stream was marked done,
      after every pushed response. */
  lemma OrderedExactlyOnce(steps: seq<Step>)
    ensures
      var s := Exec(INITIAL, steps);
      && s.delivered <= |s.pushed|
      && if s.pc == Exited(true) then
           && s.finished.Some?
           && s.calls == Chunks(s.pushed[..s.delivered]) + [Done(s.finished.value)]
           && (!s.late ==> s.calls == Chunks(s.pushed) + [Done(s.finished.value)])
         else
           s.calls == Chunks(s.pushed[..s.delivered])
  {
    var s := Exec(INITIAL, steps);
    ExecKeeps(INITIAL, steps);
    if s.pc == Exited(true) && !s.late {
      assert s.pushed[s.delivered..] == [];
      assert s.pushed[..s.delivered] == s.pushed;
    } else {
      assert Chunks(s.pushed[..s.delivered]) + [] == Chunks(s.pushed[..s.delivered]);
    }
  }

  /** After the task has exited no schedule makes it call back again. */
  lemma {:induction false} NothingAfterExit(s: State, steps: seq<Step>)
    requires s.pc.Exited?
    ensures Exec(s, steps).calls == s.calls && Exec(s, steps).pc == s.pc
    decreases steps
  {
    if steps != [] {
      NothingAfterExit(Apply(s, steps[0]), steps[1..]);
    }
  }

  /** The client's promise is needed: a response pushed after the mark can be lost. */
  lemma LatePushCanBeLost(data: string, result: ExecutionResult) returns (steps: seq<Step>)
    ensures
      var s := Exec(INITIAL, steps);
      s.late && s.pushed == [data] && s.calls == [Done(result)] && s.pc == Exited(true)
  {
    var s0 := State([], true, Some(result), false, CheckStop, [], [], 0, false);
    var s1 := s0.(pc := CheckFinished);
    TwoSteps(INITIAL, ClientMarkDone, ClientFinish(result));
    TwoSteps(s0, Task, Task);
    TwoSteps(s0.(pc := CheckMarked), Task, Task);
    TwoSteps(s1, ClientPush(data), Task);
    steps := [ClientMarkDone, ClientFinish(result)] + ([Task, Task] + ([Task, Task] + [ClientPush(data), Task]));
    ExecAppend(INITIAL, [ClientMarkDone, ClientFinish(result)],
               [Task, Task] + ([Task, Task] + [ClientPush(data), Task]));
    ExecAppend(s0, [Task, Task], [Task, Task] + [ClientPush(data), Task]);
    ExecAppend(s0.(pc := CheckMarked), [Task, Task], [ClientPush(data), Task]);
  }

  lemma TwoSteps(s: State, a: Step, b: Step)
    ensures Exec(s, [a, b]) == Apply(Apply(s, a), b)
  {
    assert [a, b][1..] == [b] && [b][1..] == [];
    assert Exec(Apply(s, a), [b]) == Apply(Apply(s, a), b);
  }

  lemma {:induction false} ExecAppend(s: State, a: seq<Step>, b: seq<Step>)
    ensures Exec(s, a + b) == Exec(Exec(s, a), b)
    decreases a
  {
    if a == [] {
      assert a + b == b;
    } else {
      assert (a + b)[1..] == a[1..] + b;
      ExecAppend(Apply(s, a[0]), a[1..], b);
    }
  }

  // The polling loop as the method it is.

  /** A step of the client, or a stop. */
  type Act = step: Step | step != Task witness Stop

  /** The steps of a run that are not the task's. */
  function ActsIn(steps: seq<Step>): seq<Act> {
    if steps == [] then [] else (if steps[0] == Task then [] else [steps[0]]) + ActsIn(steps[1..])
  }

  function Flat(batches: seq<seq<Act>>): seq<Act> {
    if batches == [] then [] else batches[0] + Flat(batches[1..])
  }

  lemma {:induction false} ActsInActs(acts: seq<Act>)
    ensures ActsIn(acts) == acts
  {
    if acts != [] {
      ActsInActs(acts[1..]);
    }
  }

  lemma {:induction false} ActsInAppend(a: seq<Step>, b: seq<Step>)
    ensures ActsIn(a + b) == ActsIn(a) + ActsIn(b)
  {
    if a == [] {
      assert a + b == b;
    } else {
      assert (a + b)[1..] == a[1..] + b;
      ActsInAppend(a[1..], b);
    }
  }

  /** Goes on with a run. Of the acts that were to come, those `later` are still to come. */
  lemma GoOn(s: State, before: seq<Step>, more: seq<Step>, all: seq<Act>, left: seq<Act>, later: seq<Act>)
    returns (steps: seq<Step>)
    requires ActsIn(before) + left == all && ActsIn(more) + later == left
    ensures steps == before + more && Exec(s, steps) == Exec(Exec(s, before), more)
    ensures ActsIn(steps) + later == all
  {
    steps := before + more;
    ExecAppend(s, before, more);
    ActsInAppend(before, more);
    Regroup(ActsIn(before), ActsIn(more), later);
  }

  /** The others act, and then the task. */
  lemma ThenTask(s: State, acts: seq<Act>, t: State) returns (steps: seq<Step>)
    requires t == Exec(s, acts)
    ensures Exec(s, steps) == TaskStep(t) && ActsIn(steps) == acts
  {
    OneStep(t, Task);
    ActsInActs(acts);
    steps := acts + [Task];
    ExecAppend(s, acts, [Task]);
    ActsInAppend(acts, [Task]);
    assert ActsIn([Task]) == [] && acts + [] == acts;
  }

  /** Some act finishes the stream. */
  predicate Finishes(acts: seq<Act>) {
    exists i :: 0 <= i < |acts| && acts[i].ClientFinish?
  }

  /** The responses that the acts push. */
  function PushedIn(acts: seq<Act>): seq<string> {
    if acts == [] then []
    else (match acts[0] case ClientPush(data) => [data] case _ => []) + PushedIn(acts[1..])
  }

  /** What the task does leaves what the others have done. */
  lemma TaskLeavesOthers(s: State)
    ensures
      var t := TaskStep(s);
      t.stopped == s.stopped && t.marked == s.marked && t.finished == s.finished && t.pushed == s.pushed
  {
  }

  /** What the acts of a run have come to. */
  lemma {:induction false} ActsTell(s: State, steps: seq<Step>)
    ensures
      var t, acts := Exec(s, steps), ActsIn(steps);
      && (t.stopped <==> s.stopped || Stop in acts)
      && (t.marked <==> s.marked || ClientMarkDone in acts)
      && (t.finished.Some? <==> s.finished.Some? || Finishes(acts))
      && t.pushed == s.pushed + PushedIn(acts)
    decreases steps
  {
    if steps != [] {
      var t, rest := Apply(s, steps[0]), ActsIn(steps[1..]);
      ActsTell(t, steps[1..]);
      if steps[0] == Task {
        TaskLeavesOthers(s);
        assert [] + rest == rest;
      } else {
        FirstActTells(s, steps[0], rest);
      }
    }
  }

  lemma FirstActTells(s: State, act: Act, rest: seq<Act>)
    ensures
      var t, acts := Apply(s, act), [act] + rest;
      && (s.stopped || Stop in acts <==> t.stopped || Stop in rest)
      && (s.marked || ClientMarkDone in acts <==> t.marked || ClientMarkDone in rest)
      && (s.finished.Some? || Finishes(acts) <==> t.finished.Some? || Finishes(rest))
      && s.pushed + PushedIn(acts) == t.pushed + PushedIn(rest)
  {
    var acts := [act] + rest;
    assert acts[1..] == rest && acts[0] == act;
    if Finishes(rest) {
      var i :| 0 <= i < |rest| && rest[i].ClientFinish?;
      assert acts[i + 1].ClientFinish?;
    }
    if Finishes(acts) && !act.ClientFinish? {
      var i :| 0 <= i < |acts| && acts[i].ClientFinish?;
      assert rest[i - 1].ClientFinish?;
    }
  }

  /** Acts for which the task does not wait for ever: a stop, or the end of the stream. */
  predicate EndTheTask(acts: seq<Act>) {
    Stop in acts || (ClientMarkDone in acts && Finishes(acts))
  }

  /** A task that has looked for the last time has handed over everything that was pushed. */
  lemma NothingLeft(s: State)
    requires Inv(s) && s.pc == CheckStop && s.queue == []
    ensures s.calls == Chunks(s.pushed)
  {
    assert s.pushed[s.delivered..] == [];
    assert s.pushed[..s.delivered] == s.pushed;
    assert Chunks(s.pushed) + [] == Chunks(s.pushed);
  }

  /** Only a task that was stopped exits without its done call. */
  lemma {:induction false} ExitsOnStop(s: State, steps: seq<Step>)
    requires s.pc == Exited(false) ==> s.stopped
    ensures Exec(s, steps).pc == Exited(false) ==> Exec(s, steps).stopped
    decreases steps
  {
    if steps != [] {
      ExitsOnStop(Apply(s, steps[0]), steps[1..]);
    }
  }

  /** The task with the stream it polls. Before each of its accesses other threads may act: the client pushes
      responses, marks the stream done or finishes it, and the streamer may be stopped. */
  class GetBlobStreamTask {
    var responses: seq<string>
    var marked: bool
    var finished: Option<ExecutionResult>
    var stopped: bool
    var calls: seq<Call>         // the callback's invocations
    var others: seq<seq<Act>>    // what the other threads do before each access to come
    ghost var pushed: seq<string>
    ghost var delivered: nat
    ghost var late: bool

    /** The machine's state with the task at `at`. */
    ghost function At(at: Pc): State
      reads this
    {
      State(responses, marked, finished, stopped, at, pushed, calls, delivered, late)
    }

    /** Nothing the task waits for will come any more. */
    predicate Waits()
      reads this
    {
      others == [] && responses == [] && !stopped && !(marked && finished.Some?)
    }

    constructor (others: seq<seq<Act>>)
      ensures At(CheckStop) == INITIAL && this.others == others
    {
      responses, marked, finished, stopped, calls := [], false, None, false, [];
      pushed, delivered, late := [], 0, false;
      this.others := others;
    }

    /** One act of another thread. */
    method Do(act: Act, ghost at: Pc)
      modifies this
      ensures At(at) == Apply(old(At(at)), act) && others == old(others)
    {
      match act {
        case ClientPush(data) =>
          responses, pushed, late := responses + [data], pushed + [data], late || marked;
        case ClientMarkDone => marked := true;
        case ClientFinish(result) => finished := if finished == None then Some(result) else finished;
        case Stop => stopped := true;
      }
    }

    /** The other threads act. */
    method Others(ghost at: Pc) returns (ghost acts: seq<Act>)
      modifies this
      ensures At(at) == Exec(old(At(at)), acts) && acts + Flat(others) == old(Flat(others))
      ensures if old(others) == [] then others == [] && At(at) == old(At(at)) else others == old(others)[1..]
    {
      acts := [];
      if others != [] {
        var batch := others[0];
        others := others[1..];
        ghost var start, rest := At(at), others;
        for i := 0 to |batch|
          invariant At(at) == Exec(start, batch[..i]) && others == rest
        {
          Do(batch[i], at);
          assert batch[..i + 1] == batch[..i] + [batch[i]];
          ExecAppend(start, batch[..i], [batch[i]]);
          OneStep(Exec(start, batch[..i]), batch[i]);
        }
        assert batch[..|batch|] == batch;
        acts := batch;
      }
    }

    method LoadStop() returns (stop: bool, ghost steps: seq<Step>)
      modifies this
      ensures ActsIn(steps) + Flat(others) == old(Flat(others))
      ensures At(if stop then Exited(false) else Fetch) == Exec(old(At(CheckStop)), steps)
      ensures Acted(old(others), others, old(At(CheckStop)), At(CheckStop)) && stop == stopped
    {
      ghost var s := At(CheckStop);
      ghost var acts := Others(CheckStop);
      steps := ThenTask(s, acts, At(CheckStop));
      stop := stopped;
    }

    method TryGetNextResponse(ghost again: bool) returns (response: Option<string>, ghost steps: seq<Step>)
      modifies this
      ensures ActsIn(steps) + Flat(others) == old(Flat(others))
      ensures At(AfterFetch(response, again)) == Exec(old(At(if again then FetchAgain else Fetch)), steps)
      ensures |others| <= |old(others)|
      ensures old(others) == [] ==>
        && others == [] && stopped == old(stopped) && marked == old(marked) && finished == old(finished)
        && if old(responses) == [] then response == None && responses == []
           else response == Some(old(responses)[0]) && responses == old(responses)[1..]
    {
      ghost var at := if again then FetchAgain else Fetch;
      ghost var s := At(at);
      ghost var acts := Others(at);
      steps := ThenTask(s, acts, At(at));
      response := None;
      if responses != [] {
        response := Some(responses[0]);
        responses := responses[1..];
      }
    }

    method IsMarkedDone() returns (isMarked: bool, ghost steps: seq<Step>)
      modifies this
      ensures ActsIn(steps) + Flat(others) == old(Flat(others))
      ensures At(if isMarked then FetchAgain else CheckStop) == Exec(old(At(CheckMarked)), steps)
      ensures Acted(old(others), others, old(At(CheckMarked)), At(CheckMarked)) && isMarked == marked
    {
      ghost var s := At(CheckMarked);
      ghost var acts := Others(CheckMarked);
      steps := ThenTask(s, acts, At(CheckMarked));
      isMarked := marked;
    }

    /** Looks whether the stream is finished and, if it is, makes the done call. */
    method FinishIfDone() returns (isDone: bool, ghost steps: seq<Step>)
      modifies this
      ensures ActsIn(steps) + Flat(others) == old(Flat(others))
      ensures At(if isDone then Exited(true) else CheckStop) == Exec(old(At(CheckFinished)), steps)
      ensures |others| <= |old(others)| && isDone == finished.Some?
      ensures old(others) == [] ==> others == [] && finished == old(finished)
    {
      ghost var s := At(CheckFinished);
      ghost var acts := Others(CheckFinished);
      steps := ThenTask(s, acts, At(CheckFinished));
      isDone := finished.Some?;
      if isDone {
        calls := calls + [Done(finished.value)];
      }
    }

    method CallBack(data: string) returns (ghost steps: seq<Step>)
      modifies this
      ensures ActsIn(steps) + Flat(others) == old(Flat(others))
      ensures At(CheckStop) == Exec(old(At(Deliver(data))), steps)
      ensures |others| <= |old(others)|
      ensures old(others) == [] ==> others == [] && responses == old(responses)
    {
      ghost var s := At(Deliver(data));
      ghost var acts := Others(Deliver(data));
      steps := ThenTask(s, acts, At(Deliver(data)));
      calls := calls + [Chunk(data)];
      delivered := delivered + 1;
    }

    /** One round of the polling loop that was not stopped. */
    method Poll() returns (exited: bool, ghost steps: seq<Step>)
      modifies this
      ensures ActsIn(steps) + Flat(others) == old(Flat(others))
      ensures At(if exited then Exited(true) else CheckStop) == Exec(old(At(Fetch)), steps)
      ensures |others| <= |old(others)|
      ensures old(others) == [] && old(responses != [] || (marked && finished.Some?)) && !exited ==>
        |responses| < |old(responses)|
    {
      ghost var start, all, left, more := At(Fetch), Flat(others), [], [];
      var response;
      response, steps := TryGetNextResponse(false);
      exited := false;
      if response == None {
        var isMarked;
        left := Flat(others);
        isMarked, more := IsMarkedDone();
        steps := GoOn(start, steps, more, all, left, Flat(others));
        if isMarked {
          left := Flat(others);
          response, exited, more := LookAgain();
          steps := GoOn(start, steps, more, all, left, Flat(others));
        }
      }
      if response != None {
        left := Flat(others);
        more := CallBack(response.value);
        steps := GoOn(start, steps, more, all, left, Flat(others));
      }
    }

    /** A second look for a response, after the mark was seen; if there is none, the task may be done. */
    method LookAgain() returns (response: Option<string>, exited: bool, ghost steps: seq<Step>)
      modifies this
      ensures ActsIn(steps) + Flat(others) == old(Flat(others))
      ensures At(if response != None then Deliver(response.value) else if exited then Exited(true) else CheckStop)
        == Exec(old(At(FetchAgain)), steps)
      ensures |others| <= |old(others)| && (response != None ==> !exited)
      ensures old(others) == [] ==>
        && others == []
        && if old(responses) == [] then response == None && (exited <==> old(finished.Some?))
           else response != None && responses == old(responses)[1..]
    {
      ghost var start, all, left, more := At(FetchAgain), Flat(others), [], [];
      response, steps := TryGetNextResponse(true);
      exited := false;
      if response == None {
        left := Flat(others);
        exited, more := FinishIfDone();
        steps := GoOn(start, steps, more, all, left, Flat(others));
      }
    }

    /** The polling loop, whatever the other threads do meanwhile. It exits if the task is stopped or the stream marked
        and finished, now or by what the others will do: without the done call only when it is stopped, and else
        after every response that was not pushed too late. If it does not exit, the others have done all they
        were to do, and every response was handed over. It is a run of the machine, so what
        `OrderedExactlyOnce` says of every run holds of its calls. */
    method Run() returns (exited: bool, ghost at: Pc, ghost steps: seq<Step>)
      modifies this
      ensures ActsIn(steps) + Flat(others) == old(Flat(others))
      ensures At(at) == Exec(old(At(CheckStop)), steps)
      ensures if exited then at.Exited? else at == CheckStop && others == [] && responses == []
      ensures EndTheTask(old(Flat(others))) || old(stopped) || old(marked && finished.Some?) ==> exited
      ensures at == Exited(false) ==> stopped
      ensures !exited && old(At(CheckStop)) == INITIAL ==> calls == Chunks(PushedIn(old(Flat(others))))
      ensures old(At(CheckStop)) == INITIAL && at == Exited(true) && !late ==>
        finished.Some? && calls == Chunks(pushed) + [Done(finished.value)]
    {
      ghost var start, all := At(CheckStop), Flat(others);
      steps := [];
      while !Waits()
        invariant At(CheckStop) == Exec(start, steps) && ActsIn(steps) + Flat(others) == all
        decreases |others|, |responses|
      {
        var stop;
        ghost var left, more := Flat(others), [];
        stop, more := LoadStop();
        steps := GoOn(start, steps, more, all, left, Flat(others));
        if stop {
          ExitsOnStop(start, steps);
          return true, Exited(false), steps;
        }
        left := Flat(others);
        exited, more := Poll();
        steps := GoOn(start, steps, more, all, left, Flat(others));
        if exited {
          if start == INITIAL {
            OrderedExactlyOnce(steps);
          }
          return true, Exited(true), steps;
        }
      }
      ActsTell(start, steps);
      assert ActsIn(steps) + [] == ActsIn(steps);
      if start == INITIAL {
        ExecKeeps(INITIAL, steps);
        NothingLeft(At(CheckStop));
        assert [] + PushedIn(all) == PushedIn(all);
      }
      return false, CheckStop, steps;
    }
  }

  lemma OneStep(s: State, step: Step)
    ensures Exec(s, [step]) == Apply(s, step)
  {
    assert Exec(Apply(s, step), []) == Apply(s, step);
  }

  /** Where a look for a response takes the task. */
  function AfterFetch(response: Option<string>, again: bool): Pc {
    match response
    case Some(data) => Deliver(data)
    case None => if again then CheckFinished else CheckMarked
  }

  /** An access that only looks: the others have acted once, or there was nothing left for them to do. */
  ghost predicate Acted(others: seq<seq<Act>>, others': seq<seq<Act>>, s: State, t: State) {
    if others == [] then others' == [] && t == s else others' == others[1..]
  }
}

/** What sessions of the generator do when something fails. */
module Failures {
  import opened Results
  import opened Mapping
  import opened Pipeline
  import opened Progress
  import opened Stages
  import opened Encryptor

  // Sessions in which something else may fail, but no pair is dropped.

  /** The encrypt task is about to insert a pair into a full queue. */
  predicate Drops(s: State, step: Step) {
    step.StepEncrypter? && s.now.encrypter.Enqueue? && |s.now.pairs| >= PAIR_QUEUE_CAPACITY
  }

  ghost predicate NothingDropped(s: State, steps: seq<Step>)
    decreases steps
  {
    steps != [] ==> !Drops(s, steps[0]) && NothingDropped(Apply(s, steps[0]), steps[1..])
  }

  /** The encrypt task raises its flag last; the stream task that saw the flag and then an empty queue
      is right that nothing more will come. */
  ghost predicate TaskFlags(n: Shared) {
    && (n.doneEncrypting ==> n.encrypter == EncryptIdle)
    && (n.streamer == GetPair(true) || (n.streamer.Respond? && n.streamer.again) ==> n.doneEncrypting)
    && (n.streamer == RaiseStreamed || n.streamer == ReportStreaming ==> n.doneEncrypting && n.pairs == [])
    && (n.streamingDone && n.streamingResult == Success ==> n.encrypter == EncryptIdle && n.pairs == [])
  }

  /** The main thread is free only when no stream task of its own is running. */
  ghost predicate MainFlags(n: Shared) {
    && (n.streamingDone ==> n.streamer == StreamIdle)
    && (n.main == OpenStream ==> n.streamer == StreamIdle && !n.streamingDone && !n.doneStreaming)
    && (n.main == MainIdle && !n.streamingDone ==> n.streamer == StreamIdle && !n.doneStreaming)
    && (n.main == GetLeftovers || n.main == AwaitEncryption ==> n.streamingDone)
  }

  // The main thread's flags, whatever happens.

  lemma BeginMainFlags(n: Shared, ids: seq<string>, scheduled: bool)
    requires MainFlags(n) && Accepts(n)
    ensures MainFlags(BeginStep(n, ids, scheduled))
  {
  }

  lemma MainMovesMainFlags(n: Shared, t: Shared)
    requires MainFlags(n) && t == n.(main := t.main, collected := t.collected, responses := t.responses)
    requires t.main != OpenStream
    requires t.main == GetLeftovers || t.main == AwaitEncryption ==> n.streamingDone
    requires t.main == MainIdle && !n.streamingDone ==> n.streamer == StreamIdle && !n.doneStreaming
    ensures MainFlags(t)
  {
  }

  lemma MainStepMainFlags(n: Shared, scheduled: bool)
    requires MainFlags(n)
    ensures MainFlags(MainStep(n, scheduled))
  {
    match n.main
    case MainIdle =>
    case OpenStream => if !scheduled { MainMovesMainFlags(n, n.(main := MainIdle)); }
    case GetResponse =>
      if n.responses == [] {
        MainMovesMainFlags(n, n.(main := Received(None)));
      } else {
        MainMovesMainFlags(n, n.(main := Received(Some(n.responses[0])), responses := n.responses[1..]));
      }
    case Received(Some(pair)) => MainMovesMainFlags(n, n.(collected := n.collected + [pair], main := GetResponse));
    case Received(None) =>
      MainMovesMainFlags(n, n.(main := if n.streamingDone then GetLeftovers else GetResponse));
    case GetLeftovers =>
      if n.responses != [] {
        MainMovesMainFlags(n, n.(collected := n.collected + [n.responses[0]], responses := n.responses[1..]));
      } else {
        MainMovesMainFlags(n, n.(main := if n.streamingResult == Success then AwaitEncryption else MainIdle));
      }
    case AwaitEncryption => MainMovesMainFlags(n, n.(main := MainIdle));
  }

  lemma StreamerMainFlags(n: Shared, taken: bool, scheduled: bool)
    requires MainFlags(n)
    ensures MainFlags(StreamerStep(n, taken, scheduled))
  {
    match n.streamer
    case Respond(_, _) =>
    case _ =>
  }

  /** The pushing thread and the encrypt task touch nothing of the stream's or the main thread's but adding pairs. */
  ghost predicate SameStream(n: Shared, t: Shared) {
    && t.main == n.main && t.collected == n.collected
    && t.streamer == n.streamer && t.doneStreaming == n.doneStreaming
    && t.streamingDone == n.streamingDone && t.streamingResult == n.streamingResult
    && t.ids == n.ids && n.pairs <= t.pairs && (|t.pairs| > |n.pairs| ==> |t.pairs| <= PAIR_QUEUE_CAPACITY)
  }

  lemma PusherSameStream(n: Shared)
    ensures SameStream(n, PusherStep(n)) && PusherStep(n).pairs == n.pairs
    ensures PusherStep(n).encrypter == n.encrypter && PusherStep(n).doneEncrypting == n.doneEncrypting
    ensures PusherStep(n).encryptionDone == n.encryptionDone && PusherStep(n).encryptionResult == n.encryptionResult
  {
    match n.pusher
    case PushIdle =>
    case Push(i) =>
      if i >= |n.ids| {
        PusherMoves(n, n.(pusher := PushIdle, pushingResult := Success, marked := true));
      } else if PushFits(n) {
        PusherMoves(n, n.(requests := n.requests + [n.ids[i]], pusher := Push(i + 1)));
      } else {
        PusherMoves(n, n.(pusher := PushIdle, pushingResult := Failure(QueueFull), marked := true));
      }
  }

  lemma PusherMoves(n: Shared, t: Shared)
    requires t == n.(pusher := t.pusher, pushingResult := t.pushingResult, marked := t.marked, requests := t.requests)
    ensures SameStream(n, t) && t.pairs == n.pairs
    ensures t.encrypter == n.encrypter && t.doneEncrypting == n.doneEncrypting
    ensures t.encryptionDone == n.encryptionDone && t.encryptionResult == n.encryptionResult
  {
  }

  lemma EnqueueSameStream(n: Shared, scheduled: bool)
    requires n.encrypter.Enqueue?
    ensures SameStream(n, EncrypterStep(n, scheduled))
  {
    var pair, again := n.encrypter.pair, n.encrypter.again;
    if |n.pairs| < PAIR_QUEUE_CAPACITY {
      SameStreamMoves(n, n.(pairs := n.pairs + [pair], encrypter := GetRequest(again)));
    } else {
      SameStreamMoves(n, n.(encrypter := GetRequest(again), marked := true, encryptionDone := true,
                            encryptionResult := Failure(QueueFull), doneEncrypting := true));
    }
  }

  lemma RescheduleSameStream(n: Shared, scheduled: bool)
    requires n.encrypter == RescheduleEncrypt
    ensures SameStream(n, EncrypterStep(n, scheduled))
  {
    if scheduled {
      SameStreamMoves(n, n.(encrypter := GetRequest(false)));
    } else {
      SameStreamMoves(n, n.(encrypter := EncryptIdle, marked := true, encryptionDone := true,
                            encryptionResult := DEFAULT_RESULT, doneEncrypting := true));
    }
  }

  lemma GetSameStream(n: Shared, scheduled: bool)
    requires n.encrypter.GetRequest?
    ensures SameStream(n, EncrypterStep(n, scheduled))
  {
    var again := n.encrypter.again;
    if n.requests != [] {
      SameStreamMoves(n, n.(encrypter := MakeUuid(n.requests[0], again), requests := n.requests[1..]));
    } else {
      SameStreamMoves(n, n.(encrypter := if again then ReportEncryption else CheckMarked));
    }
  }

  lemma ReportSameStream(n: Shared, scheduled: bool)
    requires n.encrypter == CheckMarked || n.encrypter == ReportEncryption || n.encrypter == RaiseEncrypted
    ensures SameStream(n, EncrypterStep(n, scheduled))
  {
  }

  lemma EncrypterSameStream(n: Shared, scheduled: bool)
    ensures SameStream(n, EncrypterStep(n, scheduled))
  {
    match n.encrypter
    case GetRequest(_) => GetSameStream(n, scheduled);
    case Enqueue(_, _) => EnqueueSameStream(n, scheduled);
    case RescheduleEncrypt => RescheduleSameStream(n, scheduled);
    case EncryptIdle =>
    case MakeUuid(_, _) =>
    case _ => ReportSameStream(n, scheduled);
  }

  lemma SameStreamMoves(n: Shared, t: Shared)
    requires t == n.(encrypter := t.encrypter, requests := t.requests, pairs := t.pairs, marked := t.marked,
                     encryptionDone := t.encryptionDone, encryptionResult := t.encryptionResult,
                     doneEncrypting := t.doneEncrypting)
    requires n.pairs <= t.pairs && (|t.pairs| > |n.pairs| ==> |t.pairs| <= PAIR_QUEUE_CAPACITY)
    ensures SameStream(n, t)
  {
  }

  lemma MainFlagsStay(s: State, step: Step)
    requires MainFlags(s.now)
    ensures MainFlags(Apply(s, step).now)
  {
    match step
    case Begin(ids, scheduled) => if Accepts(s.now) { BeginMainFlags(s.now, ids, scheduled); }
    case StepMain(scheduled) => MainStepMainFlags(s.now, scheduled);
    case StepPusher => PusherSameStream(s.now);
    case StepEncrypter(uuid, scheduled) => EncrypterSameStream(s.now, scheduled);
    case StepStreamer(taken, scheduled) => StreamerMainFlags(s.now, taken, scheduled);
  }

  lemma {:induction false} MainFlagsAlways(s: State, steps: seq<Step>)
    requires MainFlags(s.now)
    ensures MainFlags(Exec(s, steps).now)
    decreases steps
  {
    if steps != [] {
      MainFlagsStay(s, steps[0]);
      MainFlagsAlways(Apply(s, steps[0]), steps[1..]);
    }
  }

  // The tasks' flags, while no pair is dropped.

  lemma BeginTaskFlags(n: Shared, ids: seq<string>, scheduled: bool)
    requires TaskFlags(n) && MainFlags(n) && Accepts(n)
    ensures TaskFlags(BeginStep(n, ids, scheduled))
  {
  }

  /** The main thread touches nothing of the tasks' and the pushing thread's but starting the stream task. */
  ghost predicate SameTasks(n: Shared, t: Shared) {
    && t.encrypter == n.encrypter && t.pairs == n.pairs && t.doneEncrypting == n.doneEncrypting
    && t.encryptionDone == n.encryptionDone && t.encryptionResult == n.encryptionResult
    && t.streamingDone == n.streamingDone && t.streamingResult == n.streamingResult
    && (t.streamer == n.streamer || t.streamer == GetPair(false))
    && t.ids == n.ids && t.requests == n.requests && t.pusher == n.pusher
    && t.marked == n.marked && t.pushingResult == n.pushingResult
  }

  lemma MainMovesSameTasks(n: Shared, t: Shared)
    requires t == n.(main := t.main, collected := t.collected, responses := t.responses)
    ensures SameTasks(n, t)
  {
  }

  lemma GetResponseSameTasks(n: Shared)
    requires n.main == GetResponse
    ensures SameTasks(n, MainStep(n, true))
  {
    if n.responses == [] {
      MainMovesSameTasks(n, n.(main := Received(None)));
    } else {
      MainMovesSameTasks(n, n.(main := Received(Some(n.responses[0])), responses := n.responses[1..]));
    }
  }

  lemma GetLeftoversSameTasks(n: Shared)
    requires n.main == GetLeftovers
    ensures SameTasks(n, MainStep(n, true))
  {
    if n.responses != [] {
      MainMovesSameTasks(n, n.(collected := n.collected + [n.responses[0]], responses := n.responses[1..]));
    } else {
      MainMovesSameTasks(n, n.(main := if n.streamingResult == Success then AwaitEncryption else MainIdle));
    }
  }

  lemma MainSameTasks(n: Shared, scheduled: bool)
    ensures SameTasks(n, MainStep(n, scheduled))
  {
    match n.main
    case MainIdle =>
    case OpenStream => if !scheduled { MainMovesSameTasks(n, n.(main := MainIdle)); }
    case GetResponse => GetResponseSameTasks(n);
    case Received(Some(pair)) => MainMovesSameTasks(n, n.(collected := n.collected + [pair], main := GetResponse));
    case Received(None) =>
      MainMovesSameTasks(n, n.(main := if n.streamingDone then GetLeftovers else GetResponse));
    case GetLeftovers => GetLeftoversSameTasks(n);
    case AwaitEncryption => MainMovesSameTasks(n, n.(main := MainIdle));
  }

  lemma StreamerTaskFlags(n: Shared, taken: bool, scheduled: bool)
    requires TaskFlags(n) && MainFlags(n)
    ensures TaskFlags(StreamerStep(n, taken, scheduled))
  {
    match n.streamer
    case GetPair(_) =>
    case Respond(_, _) =>
    case _ =>
  }

  lemma EncrypterFlagIsLast(n: Shared, scheduled: bool)
    requires !n.doneEncrypting && (n.encrypter.Enqueue? ==> |n.pairs| < PAIR_QUEUE_CAPACITY)
    ensures EncrypterStep(n, scheduled).doneEncrypting ==> EncrypterStep(n, scheduled).encrypter == EncryptIdle
  {
  }

  lemma EncrypterTaskFlags(s: State, uuid: Uuid, scheduled: bool)
    requires TaskFlags(s.now) && !Drops(s, StepEncrypter(uuid, scheduled))
    ensures TaskFlags(Apply(s, StepEncrypter(uuid, scheduled)).now)
  {
    if s.now.encrypter != EncryptIdle {
      EncrypterSameStream(s.now, scheduled);
      EncrypterFlagIsLast(s.now, scheduled);
    }
  }

  lemma TaskFlagsStay(s: State, step: Step)
    requires TaskFlags(s.now) && MainFlags(s.now) && !Drops(s, step)
    ensures TaskFlags(Apply(s, step).now)
  {
    match step
    case Begin(ids, scheduled) => if Accepts(s.now) { BeginTaskFlags(s.now, ids, scheduled); }
    case StepMain(scheduled) => MainSameTasks(s.now, scheduled);
    case StepPusher => PusherSameStream(s.now);
    case StepEncrypter(uuid, scheduled) => EncrypterTaskFlags(s, uuid, scheduled);
    case StepStreamer(taken, scheduled) => StreamerTaskFlags(s.now, taken, scheduled);
  }

  lemma {:induction false} TaskFlagsAlways(s: State, steps: seq<Step>)
    requires TaskFlags(s.now) && MainFlags(s.now) && NothingDropped(s, steps)
    ensures TaskFlags(Exec(s, steps).now)
    decreases steps
  {
    if steps != [] {
      TaskFlagsStay(s, steps[0]);
      MainFlagsStay(s, steps[0]);
      TaskFlagsAlways(Apply(s, steps[0]), steps[1..]);
    }
  }

  /** Over any number of sessions, whatever else fails, if no pair was dropped then an `Encrypt` is accepted only
      when no task of an earlier session is running, and after a stream that ended well it finds the pair
      queue empty. */
  lemma SessionsDoNotOverlap(steps: seq<Step>)
    requires NothingDropped(INITIAL, steps) && Accepts(Exec(INITIAL, steps).now)
    ensures
      var n := Exec(INITIAL, steps).now;
      && n.encrypter == EncryptIdle && n.streamer == StreamIdle
      && (n.streamingResult == Success ==> n.pairs == [])
  {
    TaskFlagsAlways(INITIAL, steps);
    MainFlagsAlways(INITIAL, steps);
  }

  // When a pair is dropped.

  lemma {:induction false} SmallSessionDropsNothing(s: State, steps: seq<Step>)
    requires Inv(s) && WithinSession(steps)
    ensures NothingDropped(s, steps)
    decreases steps
  {
    if steps != [] {
      if s.now.encrypter.Enqueue? {
        EnqueueAlwaysFits(s.now, s.made[s.start..]);
      }
      ApplyKeeps(s, steps[0]);
      SmallSessionDropsNothing(Apply(s, steps[0]), steps[1..]);
    }
  }

  /** The pushing thread and the encrypt task have handled the first `n` ids; the stream task has not run. */
  ghost predicate Filled(s: State, n: nat) {
    && s.now.pusher == Push(n) && n <= |s.now.ids| && s.now.requests == [] && !s.now.marked
    && s.now.encrypter == GetRequest(false) && |s.now.pairs| == n
  }

  function NextId(uuid: Uuid): seq<Step> {
    [StepPusher, StepEncrypter(uuid, true), StepEncrypter(uuid, true), StepEncrypter(uuid, true)]
  }

  /** The id is pushed and taken, and has its UUID. */
  function Issued(s: State, n: nat, uuid: Uuid): State
    requires n < |s.now.ids|
  {
    var pair := PlaintextAndEncrypted(s.now.ids[n], uuid);
    State(s.now.(pusher := Push(n + 1), encrypter := Enqueue(pair, false)),
          s.used + {uuid}, s.made + [pair], s.start, s.outputs)
  }

  lemma IssueNext(s: State, n: nat, uuid: Uuid)
    requires Filled(s, n) && n < |s.now.ids| && uuid !in s.used
    ensures
      var step := StepEncrypter(uuid, true);
      Apply(Apply(Apply(s, StepPusher), step), step) == Issued(s, n, uuid)
  {
    var step := StepEncrypter(uuid, true);
    var n1 := s.now.(requests := [s.now.ids[n]], pusher := Push(n + 1));
    var n2 := n1.(encrypter := MakeUuid(s.now.ids[n], false), requests := []);
    assert [] + [s.now.ids[n]] == [s.now.ids[n]] && [s.now.ids[n]][1..] == [];
    assert Apply(s, StepPusher) == s.(now := n1);
    assert Apply(s.(now := n1), step) == s.(now := n2);
  }

  lemma DropNow(s: State, n: nat, uuid: Uuid, more: seq<Step>)
    requires Filled(s, n) && n < |s.now.ids| && uuid !in s.used
    ensures NothingDropped(s, NextId(uuid) + more) <==>
      n < PAIR_QUEUE_CAPACITY && NothingDropped(Apply(Issued(s, n, uuid), StepEncrypter(uuid, true)), more)
  {
    var steps, step := NextId(uuid) + more, StepEncrypter(uuid, true);
    var s1 := Apply(s, StepPusher);
    var s2 := Apply(s1, step);
    IssueNext(s, n, uuid);
    assert s1.now.encrypter == GetRequest(false) && s2.now.encrypter.MakeUuid?;
    assert steps[0] == StepPusher && steps[1..][0] == step && steps[1..][1..][0] == step;
    assert steps[1..][1..][1..] == [step] + more;
    assert NothingDropped(s, steps) <==> NothingDropped(s1, steps[1..]);
    assert NothingDropped(s1, steps[1..]) <==> NothingDropped(s2, steps[1..][1..]);
    assert NothingDropped(s2, steps[1..][1..]) <==> NothingDropped(Issued(s, n, uuid), [step] + more);
    assert ([step] + more)[1..] == more;
  }

  /** When the stream task does not run, a session with more ids than the queue holds drops a pair. */
  lemma {:induction false} LargeSessionDrops(s: State, n: nat, supply: seq<Uuid>) returns (steps: seq<Step>)
    requires Filled(s, n) && n <= PAIR_QUEUE_CAPACITY < |s.now.ids|
    requires AllFresh(supply, s.used) && |supply| >= |s.now.ids| - n
    ensures WithinSession(steps) && !NothingDropped(s, steps)
    decreases |s.now.ids| - n
  {
    var uuid, more := supply[0], [];
    if n < PAIR_QUEUE_CAPACITY {
      var t := Apply(Issued(s, n, uuid), StepEncrypter(uuid, true));
      FreshNext(supply, s.used);
      more := LargeSessionDrops(t, n + 1, supply[1..]);
    }
    DropNow(s, n, uuid, more);
    steps := NextId(uuid) + more;
  }

  /** After a faultless history, no schedule of a session drops a pair, if and only if the session has no more ids
      than the pair queue holds. */
  lemma PairQueueSuffices(history: seq<Step>, ids: seq<string>, supply: seq<Uuid>)
    requires Faultless(history) && Exec(INITIAL, history).now.main == MainIdle
    requires AllFresh(supply, Exec(INITIAL, history).used) && |supply| >= |ids|
    ensures
      var s := Apply(Exec(INITIAL, history), Begin(ids, true));
      (forall steps :: WithinSession(steps) ==> NothingDropped(s, steps)) <==> |ids| <= PAIR_QUEUE_CAPACITY
  {
    var before := Reached(history);
    SessionsAreIsolated(history);
    var s := Apply(before, Begin(ids, true));
    if |ids| <= PAIR_QUEUE_CAPACITY {
      BeginStepKeeps(before, ids);
      forall steps | WithinSession(steps) ensures NothingDropped(s, steps) {
        SmallSessionDropsNothing(s, steps);
      }
    } else {
      var steps := LargeSessionDrops(s, 0, supply);
    }
  }

  /** Whatever is dropped, the encrypt task reports success in the end: under every schedule in which the executor
      refuses no encrypt task, a task that has stopped has last reported a success. */
  lemma LastReportIsSuccess(steps: seq<Step>)
    requires forall i :: 0 <= i < |steps| ==> SchedulesEncryption(steps[i])
    ensures
      var n := Exec(INITIAL, steps).now;
      n.encrypter == EncryptIdle || n.encrypter == RaiseEncrypted ==>
        n.encryptionDone && n.encryptionResult == Success
  {
    StoppedAlwaysReported(INITIAL, steps);
  }

  predicate SchedulesEncryption(step: Step) {
    match step
    case Begin(_, scheduled) => scheduled
    case StepEncrypter(_, scheduled) => scheduled
    case _ => true
  }

  ghost predicate StoppedReported(n: Shared) {
    n.encrypter == EncryptIdle || n.encrypter == RaiseEncrypted ==> n.encryptionDone && n.encryptionResult == Success
  }

  lemma EnqueueStoppedReported(n: Shared)
    requires n.encrypter.Enqueue?
    ensures StoppedReported(EncrypterStep(n, true))
  {
  }

  lemma EncrypterStoppedReported(n: Shared)
    requires StoppedReported(n)
    ensures StoppedReported(EncrypterStep(n, true))
  {
    match n.encrypter
    case GetRequest(_) =>
    case Enqueue(_, _) => EnqueueStoppedReported(n);
    case _ =>
  }

  /** The stream task touches nothing of the encrypt task's and the pushing thread's but taking pairs. */
  ghost predicate SameFront(n: Shared, t: Shared) {
    && t.encrypter == n.encrypter && t.doneEncrypting == n.doneEncrypting
    && t.encryptionDone == n.encryptionDone && t.encryptionResult == n.encryptionResult
    && t.ids == n.ids && t.requests == n.requests && t.pusher == n.pusher
    && t.marked == n.marked && t.pushingResult == n.pushingResult
    && t.main == n.main && t.collected == n.collected
    && (t.pairs == n.pairs || (n.pairs != [] && t.pairs == n.pairs[1..]))
  }

  lemma StreamerMoves(n: Shared, t: Shared)
    requires t == n.(streamer := t.streamer, pairs := t.pairs, responses := t.responses,
                     doneStreaming := t.doneStreaming,
                     streamingDone := t.streamingDone, streamingResult := t.streamingResult)
    requires t.pairs == n.pairs || (n.pairs != [] && t.pairs == n.pairs[1..])
    ensures SameFront(n, t)
  {
  }

  lemma GetPairSameFront(n: Shared, again: bool)
    requires n.streamer == GetPair(again)
    ensures SameFront(n, StreamerStep(n, true, true))
  {
    if n.pairs != [] {
      StreamerMoves(n, n.(streamer := Respond(n.pairs[0], again), pairs := n.pairs[1..]));
    } else {
      StreamerMoves(n, n.(streamer := if again then RaiseStreamed else CheckEncrypted));
    }
  }

  lemma RespondSameFront(n: Shared, taken: bool)
    requires n.streamer.Respond?
    ensures SameFront(n, StreamerStep(n, taken, true))
  {
    StreamerMoves(n, StreamFails(n));
    StreamerMoves(n, n.(responses := n.responses + [n.streamer.pair], streamer := GetPair(n.streamer.again)));
  }

  lemma RaiseSameFront(n: Shared)
    requires n.streamer == CheckEncrypted || n.streamer == RaiseStreamed || n.streamer == ReportStreaming
    ensures SameFront(n, StreamerStep(n, true, true))
  {
  }

  lemma StreamerSameFront(n: Shared, taken: bool, scheduled: bool)
    ensures SameFront(n, StreamerStep(n, taken, scheduled))
  {
    match n.streamer
    case StreamIdle =>
    case GetPair(again) => GetPairSameFront(n, again);
    case Respond(_, _) => RespondSameFront(n, taken);
    case RescheduleStream =>
      StreamerMoves(n, StreamFails(n));
      StreamerMoves(n, n.(streamer := GetPair(false)));
    case _ => RaiseSameFront(n);
  }

  lemma ReportedStays(s: State, step: Step)
    requires StoppedReported(s.now) && SchedulesEncryption(step)
    ensures StoppedReported(Apply(s, step).now)
  {
    match step
    case Begin(_, _) =>
    case StepMain(scheduled) => MainSameTasks(s.now, scheduled);
    case StepPusher =>
    case StepEncrypter(_, _) => EncrypterStoppedReported(s.now);
    case StepStreamer(taken, scheduled) => StreamerSameFront(s.now, taken, scheduled);
  }

  lemma {:induction false} StoppedAlwaysReported(s: State, steps: seq<Step>)
    requires StoppedReported(s.now) && forall i :: 0 <= i < |steps| ==> SchedulesEncryption(steps[i])
    ensures StoppedReported(Exec(s, steps).now)
    decreases steps
  {
    if steps != [] {
      ReportedStays(s, steps[0]);
      StoppedAlwaysReported(Apply(s, steps[0]), steps[1..]);
    }
  }

  /** So a dropped pair is never noticed: every session of more ids than the pair queue holds has a schedule, in which
      nothing outside the pipeline fails, that files an output with ids missing. */
  lemma DroppedPairIsForgotten(ids: seq<string>, supply: seq<Uuid>) returns (steps: seq<Step>)
    requires |ids| > PAIR_QUEUE_CAPACITY && AllFresh(supply, {}) && |supply| >= |ids|
    ensures WithinSession(steps)
    ensures
      var outputs := Exec(Apply(INITIAL, Begin(ids, true)), steps).outputs;
      |outputs| == 1 && outputs[0].ids == ids && |outputs[0].pairs| == PAIR_QUEUE_CAPACITY && !IsFaithful(outputs[0])
  {
    var s0 := Apply(INITIAL, Begin(ids, true));
    var s1 := Apply(s0, StepMain(true));
    SessionOpens(INITIAL, ids);
    OneStep(s0, StepMain(true));
    var more := WholeSession(INITIAL, ids, supply);
    steps := FollowUp(s0, [StepMain(true)], s1, more);
  }

  /** A session whose stream is open goes on to its end. It files whatever the pair queue held and then its own pairs,
      as far as the queue had room. */
  lemma WholeSession(s: State, ids: seq<string>, supply: seq<Uuid>) returns (steps: seq<Step>)
    requires Accepts(s.now) && |s.now.pairs| <= PAIR_QUEUE_CAPACITY && (ids == [] ==> s.now.pairs == [])
    requires AllFresh(supply, s.used) && |supply| >= |ids|
    ensures WithinSession(steps)
    ensures
      var t := Exec(Apply(Apply(s, Begin(ids, true)), StepMain(true)), steps);
      && Accepts(t.now) && |t.outputs| == |s.outputs| + 1 && t.outputs[..|s.outputs|] == s.outputs
      && t.outputs[|s.outputs|].ids == ids && s.now.pairs <= t.outputs[|s.outputs|].pairs
      && |t.outputs[|s.outputs|].pairs| == Least(|s.now.pairs| + |ids|, PAIR_QUEUE_CAPACITY)
  {
    var begun := Apply(Apply(s, Begin(ids, true)), StepMain(true));
    steps := EncryptedSession(s, ids, supply);
    var u := Exec(begun, steps);
    assert u.now.collected + u.now.pairs == u.now.pairs;
    var more := FinishedSession(u);
    steps := FollowUp(begun, steps, u, more);
  }

  // Tasks that the executor refuses.

  /** The step asks the executor for the first task of an encryption or of a stream, and is refused. */
  predicate RefusesTask(n: Shared, step: Step) {
    match step
    case Begin(_, scheduled) => Accepts(n) && !scheduled
    case StepMain(scheduled) => n.main == OpenStream && !scheduled
    case _ => false
  }

  /** The generator is free, and no task runs that would raise the stream's lowered flag. */
  predicate Blocked(n: Shared) {
    n.main == MainIdle && n.streamer == StreamIdle && !n.doneStreaming
  }

  lemma BlockedStays(s: State, step: Step)
    requires Blocked(s.now)
    ensures Blocked(Apply(s, step).now) && Apply(s, step).outputs == s.outputs
  {
    match step
    case StepPusher => PusherSameStream(s.now);
    case StepEncrypter(_, scheduled) => EncrypterSameStream(s.now, scheduled);
    case _ =>
  }

  lemma {:induction false} BlockedForever(s: State, steps: seq<Step>)
    requires Blocked(s.now)
    ensures Blocked(Exec(s, steps).now) && Exec(s, steps).outputs == s.outputs
    decreases steps
  {
    if steps != [] {
      BlockedStays(s, steps[0]);
      BlockedForever(Apply(s, steps[0]), steps[1..]);
    }
  }

  lemma RefusalBlocks(s: State, step: Step)
    requires MainFlags(s.now) && RefusesTask(s.now, step)
    ensures Blocked(Apply(s, step).now) && Apply(s, step).outputs == s.outputs
  {
  }

  /** After any history, if the executor refuses the encrypt task or the stream task of a session, no schedule ever
      gets an `Encrypt` accepted or an output filed again: `Encrypt` lowered the stream's flag, and only a
      stream task raises it. */
  lemma RefusedTaskBlocksForever(history: seq<Step>, refused: Step, later: seq<Step>)
    requires RefusesTask(Exec(INITIAL, history).now, refused)
    ensures
      var s := Exec(INITIAL, history);
      var t := Exec(Apply(s, refused), later);
      !Accepts(t.now) && t.outputs == s.outputs
  {
    MainFlagsAlways(INITIAL, history);
    RefusalBlocks(Exec(INITIAL, history), refused);
    BlockedForever(Apply(Exec(INITIAL, history), refused), later);
  }

  lemma PairsFitStep(s: State, step: Step)
    requires |s.now.pairs| <= PAIR_QUEUE_CAPACITY
    ensures |Apply(s, step).now.pairs| <= PAIR_QUEUE_CAPACITY
  {
    match step
    case Begin(_, _) =>
    case StepMain(scheduled) => MainSameTasks(s.now, scheduled);
    case StepPusher => PusherSameStream(s.now);
    case StepEncrypter(_, scheduled) => EncrypterSameStream(s.now, scheduled);
    case StepStreamer(taken, scheduled) => StreamerSameFront(s.now, taken, scheduled);
  }

  lemma {:induction false} PairsAlwaysFit(s: State, steps: seq<Step>)
    requires |s.now.pairs| <= PAIR_QUEUE_CAPACITY
    ensures |Exec(s, steps).now.pairs| <= PAIR_QUEUE_CAPACITY
    decreases steps
  {
    if steps != [] {
      PairsFitStep(s, steps[0]);
      PairsAlwaysFit(Apply(s, steps[0]), steps[1..]);
    }
  }

  // Streams that fail.

  /** Steps within a session, in which tasks and responses may be refused. */
  ghost predicate NoBegin(steps: seq<Step>) {
    forall i :: 0 <= i < |steps| ==> !steps[i].Begin?
  }

  /** The next `Encrypt` is accepted although pairs are left in the queue. */
  predicate LeavesPairs(n: Shared) {
    Accepts(n) && n.pairs != []
  }

  /** The stream task has found no pair and is not scheduled again. */
  lemma StreamIsRefused(s: State)
    requires s.now.streamer == GetPair(false) && s.now.pairs == [] && !s.now.doneEncrypting
    ensures Exec(s, [StepStreamer(true, true), StepStreamer(true, true), StepStreamer(true, false)])
      == s.(now := StreamFails(s.now))
  {
    var n, step := s.now, StepStreamer(true, true);
    assert Apply(s, step) == s.(now := n.(streamer := CheckEncrypted));
    assert Apply(s.(now := n.(streamer := CheckEncrypted)), step) == s.(now := n.(streamer := RescheduleStream));
    ThreeSteps(s, step, step, StepStreamer(true, false));
  }

  /** The stream task has found a pair, and its response is not taken. */
  lemma ResponseIsRefused(s: State)
    requires s.now.streamer == GetPair(false) && s.now.pairs != []
    ensures Exec(s, [StepStreamer(true, true), StepStreamer(false, true)])
      == s.(now := StreamFails(s.now.(pairs := s.now.pairs[1..])))
  {
    var n := s.now;
    assert Apply(s, StepStreamer(true, true))
      == s.(now := n.(streamer := Respond(n.pairs[0], false), pairs := n.pairs[1..]));
    TwoSteps(s, StepStreamer(true, true), StepStreamer(false, true));
  }

  /** The stream has failed, at its first pair if there was one. */
  function GivenUp(n: Shared): Shared {
    StreamFails(if n.pairs == [] then n else n.(pairs := n.pairs[1..]))
  }

  lemma StreamGivesUp(s: State) returns (steps: seq<Step>)
    requires s.now.streamer == GetPair(false) && !s.now.doneEncrypting
    ensures NoBegin(steps) && Exec(s, steps) == s.(now := GivenUp(s.now))
  {
    if s.now.pairs == [] {
      StreamIsRefused(s);
      steps := [StepStreamer(true, true), StepStreamer(true, true), StepStreamer(true, false)];
    } else {
      ResponseIsRefused(s);
      steps := [StepStreamer(true, true), StepStreamer(false, true)];
    }
  }

  lemma MainGivesUp(s: State)
    requires s.now.main == GetResponse && s.now.responses == []
    requires s.now.streamingDone && s.now.streamingResult == DEFAULT_RESULT
    ensures Exec(s, [StepMain(true), StepMain(true), StepMain(true)]) == s.(now := s.now.(main := MainIdle))
  {
    var n, step := s.now, StepMain(true);
    assert Apply(s, step) == s.(now := n.(main := Received(None)));
    assert Apply(s.(now := n.(main := Received(None))), step) == s.(now := n.(main := GetLeftovers));
    ThreeSteps(s, step, step, step);
  }

  /** The session's stream fails, the main thread gives up, and then the ids are pushed and paired. */
  lemma FailedSession(s: State, ids: seq<string>, supply: seq<Uuid>) returns (steps: seq<Step>)
    requires Accepts(s.now) && |s.now.pairs| <= PAIR_QUEUE_CAPACITY && AllFresh(supply, s.used) && |supply| >= |ids|
    ensures NoBegin(steps)
    ensures
      var t := Exec(Apply(Apply(s, Begin(ids, true)), StepMain(true)), steps);
      Accepts(t.now) && (ids != [] ==> t.now.pairs != [])
  {
    var s1, main := Apply(Apply(s, Begin(ids, true)), StepMain(true)), StepMain(true);
    SessionOpens(s, ids);
    steps := StreamGivesUp(s1);
    var s2 := s1.(now := GivenUp(s1.now));
    MainGivesUp(s2);
    var s3 := s2.(now := s2.now.(main := MainIdle));
    var more := PushAndEncrypt(s3, supply);
    steps := FollowUp(s1, steps, s2, [main, main, main]);
    steps := FollowUp(s1, steps, s3, more);
  }

  /** A session without ids: nothing is on its way. */
  predicate NothingComes(n: Shared) {
    && n.ids == [] && n.requests == [] && n.pairs == []
    && !n.encrypter.MakeUuid? && !n.encrypter.Enqueue?
  }

  lemma EncrypterFindsNothing(n: Shared, scheduled: bool)
    requires NothingComes(n)
    ensures NothingComes(EncrypterStep(n, scheduled))
  {
    match n.encrypter
    case GetRequest(_) =>
    case CheckMarked =>
    case RescheduleEncrypt =>
    case _ =>
  }

  lemma PusherFindsNothing(n: Shared)
    requires NothingComes(n)
    ensures NothingComes(PusherStep(n))
  {
  }

  lemma NothingComesStays(s: State, step: Step)
    requires NothingComes(s.now) && !step.Begin?
    ensures NothingComes(Apply(s, step).now)
  {
    match step
    case StepMain(scheduled) => MainSameTasks(s.now, scheduled);
    case StepPusher => PusherFindsNothing(s.now);
    case StepEncrypter(_, scheduled) => EncrypterFindsNothing(s.now, scheduled);
    case StepStreamer(taken, scheduled) => StreamerSameFront(s.now, taken, scheduled);
  }

  lemma {:induction false} NothingEverComes(s: State, steps: seq<Step>)
    requires NothingComes(s.now) && NoBegin(steps)
    ensures NothingComes(Exec(s, steps).now)
    decreases steps
  {
    if steps != [] {
      NothingComesStays(s, steps[0]);
      NothingEverComes(Apply(s, steps[0]), steps[1..]);
    }
  }

  /** Isolation needs the streams to succeed: after any history that left no pairs, a session can end, by a stream that
      fails, with the next `Encrypt` accepted and pairs left in the queue, if and only if the session has an id. */
  lemma PairsAreLeftIff(history: seq<Step>, ids: seq<string>, supply: seq<Uuid>)
    requires Accepts(Exec(INITIAL, history).now) && Exec(INITIAL, history).now.pairs == []
    requires AllFresh(supply, Exec(INITIAL, history).used) && |supply| >= |ids|
    ensures
      var s := Apply(Exec(INITIAL, history), Begin(ids, true));
      (exists steps :: NoBegin(steps) && LeavesPairs(Exec(s, steps).now)) <==> ids != []
  {
    var before := Exec(INITIAL, history);
    var s := Apply(before, Begin(ids, true));
    if ids == [] {
      forall steps | NoBegin(steps) ensures !LeavesPairs(Exec(s, steps).now) {
        NothingEverComes(s, steps);
      }
    } else {
      var more := FailedSession(before, ids, supply);
      OneStep(s, StepMain(true));
      var steps := FollowUp(s, [StepMain(true)], Apply(s, StepMain(true)), more);
      assert LeavesPairs(Exec(s, steps).now);
    }
  }
}

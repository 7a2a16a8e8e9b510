/** When the generator can go on after failures, and what a session that is filed has done in any case. */
module Recovery {
  import opened Results
  import opened Lines
  import opened Mapping
  import opened Pipeline
  import opened Progress
  import opened Stages
  import opened Encryptor
  import opened Failures
  import opened Outputs

  // From every moment that is not blocked there is a way to the next session.

  /** A task that has stopped has reported, and has raised its flag unless the generator is blocked; the encrypt task
      stops only once its requests are marked done. */
  ghost predicate Settled(n: Shared) {
    && (n.encrypter == EncryptIdle || n.encrypter == RaiseEncrypted ==> n.marked && n.encryptionDone)
    && (n.encrypter == GetRequest(true) || n.encrypter == ReportEncryption ==> n.marked)
    && (n.encrypter.MakeUuid? && n.encrypter.again ==> n.marked)
    && (n.encrypter.Enqueue? && n.encrypter.again ==> n.marked)
    && (n.encrypter == EncryptIdle && !n.doneEncrypting ==> Blocked(n))
    && (n.streamer == ReportStreaming ==> n.doneStreaming)
    && (n.streamer == StreamIdle && n.main != OpenStream && !Blocked(n) ==> n.doneStreaming && n.streamingDone)
  }

  lemma BeginSettled(n: Shared, ids: seq<string>, scheduled: bool)
    requires MainFlags(n) && Settled(n) && Accepts(n)
    ensures Settled(BeginStep(n, ids, scheduled))
  {
  }

  lemma MainMovesSettled(n: Shared, t: Shared)
    requires MainFlags(n) && Settled(n) && !Blocked(n) && n.main != OpenStream && t.main != OpenStream
    requires t == n.(main := t.main, collected := t.collected, responses := t.responses)
    ensures Settled(t)
  {
  }

  lemma OpenStreamSettled(n: Shared, scheduled: bool)
    requires MainFlags(n) && Settled(n) && n.main == OpenStream
    ensures Settled(MainStep(n, scheduled))
  {
  }

  lemma MainSettled(n: Shared, scheduled: bool)
    requires MainFlags(n) && Settled(n)
    ensures Settled(MainStep(n, scheduled))
  {
    match n.main
    case MainIdle =>
    case OpenStream => OpenStreamSettled(n, scheduled);
    case GetResponse =>
      if n.responses == [] {
        MainMovesSettled(n, n.(main := Received(None)));
      } else {
        MainMovesSettled(n, n.(main := Received(Some(n.responses[0])), responses := n.responses[1..]));
      }
    case Received(Some(pair)) => MainMovesSettled(n, n.(collected := n.collected + [pair], main := GetResponse));
    case Received(None) => MainMovesSettled(n, n.(main := if n.streamingDone then GetLeftovers else GetResponse));
    case GetLeftovers =>
      if n.responses != [] {
        MainMovesSettled(n, n.(collected := n.collected + [n.responses[0]], responses := n.responses[1..]));
      } else {
        MainMovesSettled(n, n.(main := if n.streamingResult == Success then AwaitEncryption else MainIdle));
      }
    case AwaitEncryption => MainMovesSettled(n, n.(main := MainIdle));
  }

  lemma PusherSettled(n: Shared)
    requires Settled(n)
    ensures Settled(PusherStep(n))
  {
    PusherSameStream(n);
    assert n.marked ==> PusherStep(n).marked;
  }

  lemma GetSettled(n: Shared)
    requires Settled(n) && n.encrypter.GetRequest?
    ensures Settled(EncrypterStep(n, true))
  {
    var again := n.encrypter.again;
    if n.requests != [] {
      TaskMovesSettled(n, n.(encrypter := MakeUuid(n.requests[0], again), requests := n.requests[1..]));
    } else {
      TaskMovesSettled(n, n.(encrypter := if again then ReportEncryption else CheckMarked));
    }
  }

  lemma TaskMovesSettled(n: Shared, t: Shared)
    requires Settled(n) && n.encrypter.GetRequest? && t == n.(encrypter := t.encrypter, requests := t.requests)
    requires match t.encrypter
      case MakeUuid(_, again) => again == n.encrypter.again
      case ReportEncryption => n.encrypter.again
      case _ => t.encrypter == CheckMarked
    ensures Settled(t)
  {
  }

  lemma EnqueueSettled(n: Shared)
    requires Settled(n) && n.encrypter.Enqueue?
    ensures Settled(EncrypterStep(n, true))
  {
  }

  lemma ReportSettled(n: Shared, scheduled: bool)
    requires Settled(n) && n.encrypter in {CheckMarked, RescheduleEncrypt, ReportEncryption, RaiseEncrypted}
    ensures Settled(EncrypterStep(n, scheduled))
  {
  }

  lemma EncrypterSettled(n: Shared, scheduled: bool)
    requires Settled(n) && !n.encrypter.MakeUuid?
    ensures Settled(EncrypterStep(n, scheduled))
  {
    match n.encrypter
    case EncryptIdle =>
    case GetRequest(_) => GetSettled(n);
    case Enqueue(_, _) => EnqueueSettled(n);
    case _ => ReportSettled(n, scheduled);
  }

  /** A stream task that stops has raised its flag and reported. */
  lemma StreamerFlags(n: Shared, taken: bool, scheduled: bool)
    requires n.streamer != StreamIdle && (n.streamer == ReportStreaming ==> n.doneStreaming)
    ensures
      var t := StreamerStep(n, taken, scheduled);
      && t.marked == n.marked
      && (t.streamer == ReportStreaming ==> t.doneStreaming)
      && (t.streamer == StreamIdle ==> t.doneStreaming && t.streamingDone)
  {
    match n.streamer
    case GetPair(_) =>
    case Respond(_, _) =>
    case CheckEncrypted =>
    case _ =>
  }

  lemma StreamMovesSettled(n: Shared, t: Shared)
    requires Settled(n) && n.streamer != StreamIdle && SameFront(n, t) && t.marked == n.marked
    requires t.streamer == ReportStreaming ==> t.doneStreaming
    requires t.streamer == StreamIdle ==> t.doneStreaming && t.streamingDone
    ensures Settled(t)
  {
  }

  lemma StreamerSettled(n: Shared, taken: bool, scheduled: bool)
    requires Settled(n)
    ensures Settled(StreamerStep(n, taken, scheduled))
  {
    if n.streamer != StreamIdle {
      StreamerFlags(n, taken, scheduled);
      StreamerSameFront(n, taken, scheduled);
      StreamMovesSettled(n, StreamerStep(n, taken, scheduled));
    }
  }

  lemma SettledStays(s: State, step: Step)
    requires MainFlags(s.now) && Settled(s.now)
    ensures Settled(Apply(s, step).now)
  {
    match step
    case Begin(ids, scheduled) => if Accepts(s.now) { BeginSettled(s.now, ids, scheduled); }
    case StepMain(scheduled) => MainSettled(s.now, scheduled);
    case StepPusher => PusherSettled(s.now);
    case StepEncrypter(_, scheduled) => if !s.now.encrypter.MakeUuid? { EncrypterSettled(s.now, scheduled); }
    case StepStreamer(taken, scheduled) => StreamerSettled(s.now, taken, scheduled);
  }

  lemma {:induction false} SettledAlways(s: State, steps: seq<Step>)
    requires MainFlags(s.now) && Settled(s.now)
    ensures Settled(Exec(s, steps).now)
    decreases steps
  {
    if steps != [] {
      SettledStays(s, steps[0]);
      MainFlagsStay(s, steps[0]);
      SettledAlways(Apply(s, steps[0]), steps[1..]);
    }
  }

  /** Nothing is blocked, and whatever is waited for can still come. */
  ghost predicate Ready(n: Shared) {
    MainFlags(n) && Settled(n) && !Blocked(n)
  }

  lemma MainStaysUnblocked(n: Shared)
    requires Ready(n)
    ensures !Blocked(MainStep(n, true))
  {
    match n.main
    case OpenStream =>
    case _ => if n.streamer == StreamIdle {} else {}
  }

  lemma ReadyStays(s: State, step: Step)
    requires Ready(s.now) && !step.Begin? && !RefusesTask(s.now, step)
    ensures Ready(Apply(s, step).now)
  {
    SettledStays(s, step);
    MainFlagsStay(s, step);
    match step
    case StepMain(_) => MainStaysUnblocked(s.now);
    case StepPusher => PusherSameStream(s.now);
    case StepEncrypter(_, scheduled) => EncrypterSameStream(s.now, scheduled);
    case StepStreamer(taken, scheduled) => StreamerSameFront(s.now, taken, scheduled);
  }

  /** UUIDs the encrypt task still needs if it is not scheduled again. */
  function Due(n: Shared): nat {
    if n.encrypter == EncryptIdle then 0 else |n.requests| + if n.encrypter.MakeUuid? then 1 else 0
  }

  /** Steps the encrypt task still makes if it is not scheduled again. */
  function HaltWork(n: Shared): nat {
    match n.encrypter
    case EncryptIdle => 0
    case RaiseEncrypted => 1
    case RescheduleEncrypt => 1
    case ReportEncryption => 2
    case CheckMarked => 3 * |n.requests| + 4
    case GetRequest(again) => 3 * |n.requests| + if again then 3 else 5
    case Enqueue(_, again) => 3 * |n.requests| + if again then 4 else 6
    case MakeUuid(_, again) => 3 * |n.requests| + if again then 5 else 7
  }

  /** Steps the stream task still makes if no response is taken and it is not scheduled again. */
  function StopWork(n: Shared): nat {
    match n.streamer
    case StreamIdle => 0
    case Respond(_, _) => 1
    case RescheduleStream => 1
    case ReportStreaming => 1
    case RaiseStreamed => 2
    case GetPair(again) => if again then 3 else 5
    case CheckEncrypted => 4
  }

  /** The encrypt task gets on, and the main thread stays where it is. */
  lemma EncrypterGetsOn(n: Shared)
    requires n.encrypter != EncryptIdle && !n.encrypter.MakeUuid?
    ensures
      var t := EncrypterStep(n, false);
      HaltWork(t) < HaltWork(n) && Due(t) <= Due(n) && t.main == n.main
  {
    EncrypterSameStream(n, false);
    match n.encrypter
    case GetRequest(_) =>
    case Enqueue(_, _) => EnqueueLeavesRequests(n);
    case _ =>
  }

  lemma PusherGetsOn(n: Shared)
    requires n.marked
    ensures PusherStep(n).pusher == PushIdle
  {
  }

  lemma StreamerGetsOn(n: Shared)
    requires n.streamer != StreamIdle
    ensures StopWork(StreamerStep(n, false, false)) < StopWork(n)
  {
  }

  lemma MainGetsOn(n: Shared)
    requires n.main != MainIdle && n.main != OpenStream
    requires n.streamingDone && n.encryptionDone && n.pusher == PushIdle
    ensures MainWork(MainStep(n, true)) < MainWork(n) && MainStep(n, true).main != OpenStream
  {
  }

  /** From every moment that is not blocked there is a way to one at which the next `Encrypt` is accepted. */
  lemma {:induction false} CanGoOn(s: State, supply: seq<Uuid>) returns (steps: seq<Step>)
    requires Ready(s.now) && AllFresh(supply, s.used) && |supply| >= Due(s.now)
    ensures Accepts(Exec(s, steps).now)
    decreases s.now.main == OpenStream, HaltWork(s.now), s.now.pusher != PushIdle, StopWork(s.now), MainWork(s.now)
  {
    var n, left := s.now, supply;
    if n.main == MainIdle && n.encrypter == EncryptIdle && n.pusher == PushIdle {
      // The stream task is not running either, because the main thread is idle.
      steps := [];
      return;
    }
    var step;
    if n.main == OpenStream {
      step := StepMain(true);
    } else if n.encrypter != EncryptIdle {
      step := StepEncrypter(if supply == [] then NIL_UUID else supply[0], false);
      if n.encrypter.MakeUuid? {
        FreshNext(supply, s.used);
        left := supply[1..];
      } else {
        EncrypterGetsOn(n);
      }
    } else if n.pusher != PushIdle {
      step := StepPusher;
      PusherGetsOn(n);
      PusherSameStream(n);
    } else if n.streamer != StreamIdle {
      step := StepStreamer(false, false);
      StreamerGetsOn(n);
      StreamerSameFront(n, false, false);
    } else {
      step := StepMain(true);
      MainGetsOn(n);
      MainSameTasks(n, true);
    }
    ReadyStays(s, step);
    var more := CanGoOn(Apply(s, step), left);
    steps := [step] + more;
  }

  /** Some schedule gets an `Encrypt` accepted. */
  ghost predicate GoesOn(s: State) {
    exists later :: Accepts(Exec(s, later).now)
  }

  /** After any history, whatever failed in it, some schedule gets an `Encrypt` accepted, if and only if the
      generator is not blocked: free, with no stream task that would raise the stream's lowered flag. */
  lemma GoesOnIff(history: seq<Step>, supply: seq<Uuid>)
    requires AllFresh(supply, Exec(INITIAL, history).used) && |supply| >= Due(Exec(INITIAL, history).now)
    ensures GoesOn(Exec(INITIAL, history)) <==> !Blocked(Exec(INITIAL, history).now)
  {
    var s := Exec(INITIAL, history);
    SettledAlways(INITIAL, history);
    MainFlagsAlways(INITIAL, history);
    if Blocked(s.now) {
      forall later ensures !Accepts(Exec(s, later).now) {
        BlockedForever(s, later);
      }
    } else {
      var later := CanGoOn(s, supply);
    }
  }

  /** After any history a further session can be begun if and only if the executor takes both of this session's
      tasks. */
  lemma SessionsGoOnIff(history: seq<Step>, ids: seq<string>, scheduled: bool, streamed: bool)
    requires Accepts(Exec(INITIAL, history).now)
    ensures
      var before := Exec(INITIAL, history);
      GoesOn(Apply(Apply(before, Begin(ids, scheduled)), StepMain(streamed))) <==> scheduled && streamed
  {
    var begin, main := Begin(ids, scheduled), StepMain(streamed);
    var t := Apply(Apply(Exec(INITIAL, history), begin), main);
    TwoSteps(Exec(INITIAL, history), begin, main);
    ExecAppend(INITIAL, history, [begin, main]);
    MainFlagsAlways(INITIAL, history);
    if scheduled && streamed {
      SettledAlways(INITIAL, history + [begin, main]);
      MainFlagsAlways(INITIAL, history + [begin, main]);
      SessionOpens(Exec(INITIAL, history), ids);
      var later := CanGoOn(t, []);
    } else {
      BlockedByRefusal(Exec(INITIAL, history), ids, scheduled, streamed);
      forall later ensures !Accepts(Exec(t, later).now) {
        BlockedForever(t, later);
      }
    }
  }

  lemma BlockedByRefusal(s: State, ids: seq<string>, scheduled: bool, streamed: bool)
    requires MainFlags(s.now) && Accepts(s.now) && !(scheduled && streamed)
    ensures Blocked(Apply(Apply(s, Begin(ids, scheduled)), StepMain(streamed)).now)
  {
    if !scheduled {
      RefusalBlocks(s, Begin(ids, false));
      BlockedStays(Apply(s, Begin(ids, false)), StepMain(streamed));
    } else {
      MainFlagsStay(s, Begin(ids, true));
      RefusalBlocks(Apply(s, Begin(ids, true)), StepMain(false));
    }
  }

  // Sessions that overlap.

  /** What has changed when the encrypt task has paired `k` requests: once the queue is full, each further pair is
      dropped and reported. */
  ghost predicate PairedSome(n: Shared, t: Shared, k: nat) {
    && SameStream(n, t) && t.pusher == n.pusher && t.responses == n.responses
    && t.encrypter == GetRequest(false) && |t.requests| == |n.requests| - k
    && |t.pairs| == Least(|n.pairs| + k, PAIR_QUEUE_CAPACITY)
    && (|n.pairs| + k > PAIR_QUEUE_CAPACITY ==>
          t.doneEncrypting && t.encryptionDone && t.encryptionResult == Failure(QueueFull))
  }

  lemma PairedOne(s: State, uuid: Uuid)
    requires s.now.encrypter == GetRequest(false) && s.now.requests != [] && uuid !in s.used
    requires |s.now.pairs| <= PAIR_QUEUE_CAPACITY
    ensures
      var step := StepEncrypter(uuid, true);
      var t := Exec(s, [step, step, step]);
      PairedSome(s.now, t.now, 1) && t.used == s.used + {uuid}
  {
    PairNext(s, uuid);
  }

  lemma PairedMore(n: Shared, m: Shared, t: Shared, k: nat)
    requires |n.pairs| <= PAIR_QUEUE_CAPACITY && k > 0
    requires PairedSome(n, m, 1) && (if k == 1 then t == m else PairedSome(m, t, k - 1))
    ensures PairedSome(n, t, k)
  {
  }

  lemma {:induction false} EncryptSome(s: State, k: nat, supply: seq<Uuid>) returns (steps: seq<Step>)
    requires s.now.encrypter == GetRequest(false) && |s.now.pairs| <= PAIR_QUEUE_CAPACITY
    requires 0 < k <= |s.now.requests| && AllFresh(supply, s.used) && |supply| >= k
    ensures WithinSession(steps) && PairedSome(s.now, Exec(s, steps).now, k)
    decreases k
  {
    var step := StepEncrypter(supply[0], true);
    var t := Exec(s, [step, step, step]);
    PairedOne(s, supply[0]);
    steps := [step, step, step];
    if k > 1 {
      FreshNext(supply, s.used);
      var more := EncryptSome(t, k - 1, supply[1..]);
      steps := FollowUp(s, steps, t, more);
    }
    PairedMore(s.now, t.now, Exec(s, steps).now, k);
  }

  /** A pair is dropped, and with the encrypt task still running the stream fails and the main thread gives up. */
  lemma OverlappingSession(s: State, ids: seq<string>, supply: seq<Uuid>) returns (steps: seq<Step>)
    requires Accepts(s.now) && s.now.pairs == [] && |ids| > PAIR_QUEUE_CAPACITY
    requires AllFresh(supply, s.used) && |supply| >= |ids|
    ensures NoBegin(steps)
    ensures
      var t := Exec(Apply(s, Begin(ids, true)), steps).now;
      Accepts(t) && t.encrypter != EncryptIdle && t.encryptionResult == Failure(QueueFull)
  {
    var begun, main := Apply(s, Begin(ids, true)), StepMain(true);
    var s1 := Apply(begun, main);
    SessionOpens(s, ids);
    OneStep(begun, main);
    assert ids[..0] == [];
    var pushed := PushRun(s1, 0);
    var s2 := s1.(now := AllPushed(s1.now));
    var some := EncryptSome(s2, PAIR_QUEUE_CAPACITY + 1, supply);
    var s3 := Exec(s2, some);
    ResponseIsRefused(s3);
    var s4 := s3.(now := StreamFails(s3.now.(pairs := s3.now.pairs[1..])));
    MainGivesUp(s4);
    steps := FollowUp(begun, [main], s1, pushed);
    steps := FollowUp(begun, steps, s2, some);
    steps := FollowUp(begun, steps, s3, [StepStreamer(true, true), StepStreamer(false, true)]);
    steps := FollowUp(begun, steps, s4, [main, main, main]);
  }

  /** After a history whose sessions began clean, and that leaves no pair: during a further session an `Encrypt` can be
      accepted with the encrypt task still running, if and only if the session has more ids than the queue holds. */
  lemma SessionsOverlapIff(history: seq<Step>, ids: seq<string>, supply: seq<Uuid>)
    requires SessionsBeginClean(INITIAL, history) && Accepts(Exec(INITIAL, history).now)
    requires Exec(INITIAL, history).now.pairs == []
    requires AllFresh(supply, Exec(INITIAL, history).used) && |supply| >= |ids|
    ensures
      var begun := Apply(Exec(INITIAL, history), Begin(ids, true));
      (exists steps ::
        NoBegin(steps) && Accepts(Exec(begun, steps).now) && Exec(begun, steps).now.encrypter != EncryptIdle)
      <==> |ids| > PAIR_QUEUE_CAPACITY
  {
    var s := Exec(INITIAL, history);
    var begun := Apply(s, Begin(ids, true));
    if |ids| > PAIR_QUEUE_CAPACITY {
      var steps := OverlappingSession(s, ids, supply);
    } else {
      InitialHolds();
      SoundAlways(INITIAL, history);
      SoundStays(s, Begin(ids, true));
      forall steps | NoBegin(steps) ensures Exec(begun, steps).now.doneEncrypting ==>
                                              Exec(begun, steps).now.encrypter == EncryptIdle
      {
        NoBeginIsClean(begun, steps);
        SoundAlways(begun, steps);
      }
    }
  }

  // What a session that is filed has done in any case.

  /** Whatever fails: the session's ids are taken in order, those requested come next, and unless the pushing
      failed there are no others; the encrypt task reports a success only when nothing is requested any more. */
  ghost predicate TakenInOrder(n: Shared, made: seq<Pair>) {
    var taken := Taken(n, |made|);
    && taken + |n.requests| <= |n.ids|
    && Plaintexts(made) == n.ids[..|made|]
    && (n.encrypter.MakeUuid? ==> n.encrypter.plaintext == n.ids[|made|])
    && n.requests == n.ids[taken..taken + |n.requests|]
    && (n.pusher.Push? ==> n.pusher.index == taken + |n.requests| && n.pushingResult != Success)
    && (n.pusher == PushIdle ==> n.marked && (n.pushingResult == Success ==> taken + |n.requests| == |n.ids|))
  }

  ghost predicate ReportsTruly(n: Shared) {
    && (n.encrypter == GetRequest(true) ==> n.marked)
    && (n.encrypter.MakeUuid? && n.encrypter.again ==> n.marked)
    && (n.encrypter.Enqueue? && n.encrypter.again ==> n.marked)
    && (n.encrypter == ReportEncryption || n.encrypter == RaiseEncrypted ==> n.marked && n.requests == [])
    && (n.encryptionDone && n.encryptionResult == Success ==>
          n.marked && n.requests == [] && (n.encrypter == RaiseEncrypted || n.encrypter == EncryptIdle))
  }

  ghost predicate InSession(s: State) {
    s.start <= |s.made| && (s.now.main != MainIdle ==> TakenInOrder(s.now, SessionPairs(s)) && ReportsTruly(s.now))
  }

  lemma PushIdTaken(n: Shared, made: seq<Pair>, i: nat)
    requires TakenInOrder(n, made) && n.pusher == Push(i) && i < |n.ids|
    ensures TakenInOrder(n.(requests := n.requests + [n.ids[i]], pusher := Push(i + 1)), made)
  {
    SliceNext(n.ids, Taken(n, |made|), i);
  }

  lemma PushEndTaken(n: Shared, made: seq<Pair>, result: ExecutionResult)
    requires TakenInOrder(n, made) && n.pusher.Push? && (result == Success ==> n.pusher.index >= |n.ids|)
    ensures TakenInOrder(n.(pusher := PushIdle, pushingResult := result, marked := true), made)
  {
  }

  lemma PushTaken(n: Shared, made: seq<Pair>)
    requires TakenInOrder(n, made)
    ensures TakenInOrder(PusherStep(n), made)
  {
    match n.pusher
    case PushIdle =>
    case Push(i) =>
      if i >= |n.ids| {
        PushEndTaken(n, made, Success);
      } else if PushFits(n) {
        PushIdTaken(n, made, i);
      } else {
        PushEndTaken(n, made, Failure(QueueFull));
      }
  }

  lemma PushReports(n: Shared)
    requires ReportsTruly(n)
    ensures ReportsTruly(PusherStep(n))
  {
    PusherSameStream(n);
    assert n.marked ==> PusherStep(n).marked && PusherStep(n).requests == n.requests;
  }

  lemma GetTaken(n: Shared, made: seq<Pair>, again: bool)
    requires TakenInOrder(n, made) && n.encrypter == GetRequest(again)
    ensures TakenInOrder(EncrypterStep(n, true), made)
  {
    if n.requests != [] {
      assert n.requests[1..] == n.ids[|made| + 1..|made| + |n.requests|];
    }
  }

  /** A step of the encrypt task that neither takes a request nor makes a pair; it may mark the requests. */
  lemma MarkTaken(n: Shared, t: Shared, made: seq<Pair>)
    requires TakenInOrder(n, made) && !n.encrypter.MakeUuid? && !t.encrypter.MakeUuid? && (n.marked ==> t.marked)
    requires t.ids == n.ids && t.requests == n.requests && t.pusher == n.pusher && t.pushingResult == n.pushingResult
    ensures TakenInOrder(t, made)
  {
  }

  /** Between two requests the encrypt task does nothing to them but marking them done. */
  ghost predicate SameRequests(n: Shared, t: Shared) {
    && t.ids == n.ids && t.requests == n.requests && t.pusher == n.pusher && t.pushingResult == n.pushingResult
    && (n.marked ==> t.marked) && !t.encrypter.MakeUuid?
  }

  lemma RequestsStay(n: Shared, t: Shared)
    requires t == n.(encrypter := t.encrypter, pairs := t.pairs, marked := t.marked, encryptionDone := t.encryptionDone,
                     encryptionResult := t.encryptionResult, doneEncrypting := t.doneEncrypting)
    requires (n.marked ==> t.marked) && !t.encrypter.MakeUuid?
    ensures SameRequests(n, t)
  {
  }

  lemma EnqueueLeavesRequests(n: Shared)
    requires n.encrypter.Enqueue?
    ensures SameRequests(n, EncrypterStep(n, true))
  {
    var pair, again := n.encrypter.pair, n.encrypter.again;
    RequestsStay(n, n.(pairs := n.pairs + [pair], encrypter := GetRequest(again)));
    RequestsStay(n, n.(encrypter := GetRequest(again), marked := true, encryptionDone := true,
                       encryptionResult := Failure(QueueFull), doneEncrypting := true));
  }

  lemma RescheduleLeavesRequests(n: Shared, scheduled: bool)
    requires n.encrypter == RescheduleEncrypt
    ensures SameRequests(n, EncrypterStep(n, scheduled))
  {
    RequestsStay(n, n.(encrypter := GetRequest(false)));
    RequestsStay(n, n.(encrypter := EncryptIdle, marked := true, encryptionDone := true,
                       encryptionResult := DEFAULT_RESULT, doneEncrypting := true));
  }

  lemma EncrypterLeavesRequests(n: Shared, scheduled: bool)
    requires !n.encrypter.MakeUuid? && !n.encrypter.GetRequest?
    ensures SameRequests(n, EncrypterStep(n, scheduled))
  {
    match n.encrypter
    case Enqueue(_, _) => EnqueueLeavesRequests(n);
    case RescheduleEncrypt => RescheduleLeavesRequests(n, scheduled);
    case _ =>
  }

  lemma EncrypterTaken(n: Shared, made: seq<Pair>, scheduled: bool)
    requires TakenInOrder(n, made) && !n.encrypter.MakeUuid?
    ensures TakenInOrder(EncrypterStep(n, scheduled), made)
  {
    if n.encrypter.GetRequest? {
      GetTaken(n, made, n.encrypter.again);
    } else {
      EncrypterLeavesRequests(n, scheduled);
      MarkTaken(n, EncrypterStep(n, scheduled), made);
    }
  }

  lemma GetReports(n: Shared)
    requires ReportsTruly(n) && n.encrypter.GetRequest?
    ensures ReportsTruly(EncrypterStep(n, true))
  {
    var again := n.encrypter.again;
    if n.requests != [] {
      GetMovesReport(n, n.(encrypter := MakeUuid(n.requests[0], again), requests := n.requests[1..]));
    } else {
      GetMovesReport(n, n.(encrypter := if again then ReportEncryption else CheckMarked));
    }
  }

  lemma GetMovesReport(n: Shared, t: Shared)
    requires ReportsTruly(n) && n.encrypter.GetRequest? && t == n.(encrypter := t.encrypter, requests := t.requests)
    requires match t.encrypter
      case MakeUuid(_, again) => again == n.encrypter.again
      case ReportEncryption => n.encrypter.again && t.requests == []
      case _ => t.encrypter == CheckMarked
    ensures ReportsTruly(t)
  {
  }

  lemma EnqueueReports(n: Shared)
    requires ReportsTruly(n) && n.encrypter.Enqueue?
    ensures ReportsTruly(EncrypterStep(n, true))
  {
  }

  lemma OtherReports(n: Shared, scheduled: bool)
    requires ReportsTruly(n) && n.encrypter in {CheckMarked, RescheduleEncrypt, ReportEncryption, RaiseEncrypted}
    ensures ReportsTruly(EncrypterStep(n, scheduled))
  {
  }

  lemma EncrypterReports(n: Shared, scheduled: bool)
    requires ReportsTruly(n) && !n.encrypter.MakeUuid?
    ensures ReportsTruly(EncrypterStep(n, scheduled))
  {
    match n.encrypter
    case EncryptIdle =>
    case GetRequest(_) => GetReports(n);
    case Enqueue(_, _) => EnqueueReports(n);
    case _ => OtherReports(n, scheduled);
  }

  lemma IssueTaken(n: Shared, made: seq<Pair>, pair: Pair)
    requires TakenInOrder(n, made) && n.encrypter.MakeUuid? && pair.plaintext == n.encrypter.plaintext
    ensures TakenInOrder(n.(encrypter := Enqueue(pair, n.encrypter.again)), made + [pair])
  {
    assert Plaintexts(made + [pair]) == Plaintexts(made) + [pair.plaintext];
  }

  /** The other actors touch nothing that matters here. */
  lemma OthersInSession(n: Shared, t: Shared, made: seq<Pair>)
    requires TakenInOrder(n, made) && ReportsTruly(n)
    requires t.ids == n.ids && t.requests == n.requests && t.pusher == n.pusher && t.pushingResult == n.pushingResult
    requires t.marked == n.marked && t.encrypter == n.encrypter
    requires t.encryptionDone == n.encryptionDone && t.encryptionResult == n.encryptionResult
    ensures TakenInOrder(t, made) && ReportsTruly(t)
  {
  }

  lemma BeginInSession(n: Shared, ids: seq<string>)
    ensures TakenInOrder(BeginStep(n, ids, true), []) && ReportsTruly(BeginStep(n, ids, true))
  {
    assert Plaintexts([]) == ids[..0] == ids[0..0];
  }

  lemma EncrypterInSession(s: State, uuid: Uuid, scheduled: bool)
    requires InSession(s)
    ensures InSession(Apply(s, StepEncrypter(uuid, scheduled)))
  {
    var made := SessionPairs(s);
    if !s.now.encrypter.MakeUuid? {
      EncrypterSameStream(s.now, scheduled);
      if s.now.main != MainIdle {
        EncrypterTaken(s.now, made, scheduled);
        EncrypterReports(s.now, scheduled);
      }
    } else if uuid !in s.used {
      var pair := PlaintextAndEncrypted(s.now.encrypter.plaintext, uuid);
      assert (s.made + [pair])[s.start..] == made + [pair];
      if s.now.main != MainIdle {
        IssueTaken(s.now, made, pair);
      }
    }
  }

  lemma InSessionStays(s: State, step: Step)
    requires InSession(s)
    ensures InSession(Apply(s, step))
  {
    var made := SessionPairs(s);
    match step
    case Begin(ids, scheduled) =>
      if Accepts(s.now) && scheduled {
        BeginInSession(s.now, ids);
        assert s.made[|s.made|..] == [];
      }
    case StepMain(scheduled) =>
      MainSameTasks(s.now, scheduled);
      if s.now.main == MainIdle {
        assert MainStep(s.now, scheduled) == s.now;
      } else {
        OthersInSession(s.now, MainStep(s.now, scheduled), made);
      }
    case StepPusher =>
      PusherSameStream(s.now);
      if s.now.main != MainIdle {
        PushTaken(s.now, made);
        PushReports(s.now);
      }
    case StepEncrypter(uuid, scheduled) => EncrypterInSession(s, uuid, scheduled);
    case StepStreamer(taken, scheduled) =>
      StreamerSameFront(s.now, taken, scheduled);
      if s.now.main != MainIdle {
        OthersInSession(s.now, StreamerStep(s.now, taken, scheduled), made);
      }
  }

  lemma {:induction false} AlwaysInSession(s: State, steps: seq<Step>)
    requires InSession(s)
    ensures InSession(Exec(s, steps))
    decreases steps
  {
    if steps != [] {
      InSessionStays(s, steps[0]);
      AlwaysInSession(Apply(s, steps[0]), steps[1..]);
    }
  }

  /** Over any number of sessions and whatever fails, pairs dropped and tasks refused: a session is filed only
      when every one of its ids was pushed, taken and given a UUID, in order, and none twice. */
  lemma FiledSessionPairedAll(steps: seq<Step>)
    requires Finishes(Exec(INITIAL, steps).now)
    ensures
      var s := Exec(INITIAL, steps);
      Plaintexts(SessionPairs(s)) == s.now.ids && DistinctUuids(SessionPairs(s))
  {
    var s := Exec(INITIAL, steps);
    AlwaysInSession(INITIAL, steps);
    NoUuidIssuedTwice(steps);
    var made := SessionPairs(s);
    assert s.now.ids[..|s.now.ids|] == s.now.ids;
    forall i, j | 0 <= i < j < |made| ensures made[i].encryptedId != made[j].encryptedId {
      assert made[i] == s.made[s.start + i] && made[j] == s.made[s.start + j];
    }
  }

  // What the main thread has waited for.

  /** The main thread is free after a stream that ended well: it has waited for the other thread and for the report. */
  ghost predicate HasWaited(n: Shared) {
    n.main == MainIdle && n.streamingDone && n.streamingResult == Success ==> n.pusher == PushIdle && n.encryptionDone
  }

  lemma MainWaits(n: Shared, scheduled: bool)
    requires HasWaited(n) && MainFlags(n)
    ensures HasWaited(MainStep(n, scheduled))
  {
    MainSameTasks(n, scheduled);
    match n.main
    case OpenStream =>
    case _ =>
  }

  /** What has been reported stays reported within a session. */
  lemma EncrypterStaysDone(n: Shared, scheduled: bool)
    ensures n.encryptionDone ==> EncrypterStep(n, scheduled).encryptionDone
    ensures EncrypterStep(n, scheduled).pusher == n.pusher
  {
    match n.encrypter
    case Enqueue(_, _) =>
    case RescheduleEncrypt =>
    case _ =>
  }

  lemma WaitedStays(s: State, step: Step)
    requires HasWaited(s.now) && MainFlags(s.now)
    ensures HasWaited(Apply(s, step).now)
  {
    match step
    case Begin(_, _) =>
    case StepMain(scheduled) => MainWaits(s.now, scheduled);
    case StepPusher => PusherSameStream(s.now);
    case StepEncrypter(_, scheduled) =>
      EncrypterSameStream(s.now, scheduled);
      EncrypterStaysDone(s.now, scheduled);
    case StepStreamer(taken, scheduled) => StreamerSameFront(s.now, taken, scheduled);
  }

  lemma {:induction false} AlwaysWaited(s: State, steps: seq<Step>)
    requires HasWaited(s.now) && MainFlags(s.now)
    ensures HasWaited(Exec(s, steps).now)
    decreases steps
  {
    if steps != [] {
      WaitedStays(s, steps[0]);
      MainFlagsStay(s, steps[0]);
      AlwaysWaited(Apply(s, steps[0]), steps[1..]);
    }
  }

  /** Over any number of sessions and whatever fails: after a stream that ended well the main thread is free only
      once the pushing thread has ended and the encryption has been reported. */
  lemma FreeMeansWaited(steps: seq<Step>)
    requires
      var n := Exec(INITIAL, steps).now;
      n.main == MainIdle && n.streamingDone && n.streamingResult == Success
    ensures Exec(INITIAL, steps).now.pusher == PushIdle && Exec(INITIAL, steps).now.encryptionDone
  {
    AlwaysWaited(INITIAL, steps);
  }
}

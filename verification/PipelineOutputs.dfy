/** What the sessions of the generator file when anything may fail. */
module Outputs {
  import opened Results
  import opened Mapping
  import opened Pipeline
  import opened Progress
  import opened Stages
  import opened Encryptor
  import opened Failures

  /** A session that begins finds no pair of an earlier one and has no more ids than the pair queue holds. */
  predicate BeginsClean(n: Shared, step: Step) {
    step.Begin? && step.scheduled && Accepts(n) ==> n.pairs == [] && |step.ids| <= PAIR_QUEUE_CAPACITY
  }

  ghost predicate SessionsBeginClean(s: State, steps: seq<Step>)
    decreases steps
  {
    steps != [] ==> BeginsClean(s.now, steps[0]) && SessionsBeginClean(Apply(s, steps[0]), steps[1..])
  }

  // No pair is dropped.

  /** Ids requested, or taken and without a pair. */
  function Unpaired(n: Shared): nat {
    |n.requests| + if n.encrypter.MakeUuid? then 1 else 0
  }

  /** Pairs in the queue, or about to be inserted. */
  function Queued(n: Shared): nat {
    |n.pairs| + if n.encrypter.Enqueue? then 1 else 0
  }

  /** While the encrypt task runs, the pairs queued were made of ids of this session, and those were pushed. */
  ghost predicate Counted(n: Shared, made: nat) {
    n.encrypter != EncryptIdle ==>
      Queued(n) <= made <= made + Unpaired(n) <= Pushed(n) <= |n.ids| <= PAIR_QUEUE_CAPACITY
  }

  lemma CountedFits(n: Shared, made: nat)
    requires Counted(n, made) && n.encrypter.Enqueue?
    ensures |n.pairs| < PAIR_QUEUE_CAPACITY
  {
  }

  lemma PusherCounted(n: Shared, made: nat)
    requires Counted(n, made)
    ensures Counted(PusherStep(n), made)
  {
    if n.pusher.Push? && n.pusher.index < |n.ids| && PushFits(n) {
      var t := n.(requests := n.requests + [n.ids[n.pusher.index]], pusher := Push(n.pusher.index + 1));
      assert Unpaired(t) == Unpaired(n) + 1 && Pushed(t) == Pushed(n) + 1;
    }
  }

  lemma CountedMoves(n: Shared, t: Shared, made: nat)
    requires Counted(n, made) && n.encrypter != EncryptIdle
    requires t.ids == n.ids && t.pusher == n.pusher && Queued(t) <= Queued(n) && Unpaired(t) <= Unpaired(n)
    ensures Counted(t, made)
  {
  }

  lemma GetCounted(n: Shared, made: nat)
    requires Counted(n, made) && n.encrypter.GetRequest?
    ensures Counted(EncrypterStep(n, true), made)
  {
    var again := n.encrypter.again;
    if n.requests != [] {
      CountedMoves(n, n.(encrypter := MakeUuid(n.requests[0], again), requests := n.requests[1..]), made);
    } else {
      CountedMoves(n, n.(encrypter := if again then ReportEncryption else CheckMarked), made);
    }
  }

  lemma EnqueueCounted(n: Shared, made: nat)
    requires Counted(n, made) && n.encrypter.Enqueue?
    ensures Counted(EncrypterStep(n, true), made)
  {
    CountedFits(n, made);
    CountedMoves(n, n.(pairs := n.pairs + [n.encrypter.pair], encrypter := GetRequest(n.encrypter.again)), made);
  }

  lemma ReportCounted(n: Shared, made: nat, scheduled: bool)
    requires Counted(n, made) && n.encrypter in {CheckMarked, RescheduleEncrypt, ReportEncryption, RaiseEncrypted}
    ensures Counted(EncrypterStep(n, scheduled), made)
  {
  }

  lemma EncrypterCounted(n: Shared, made: nat, scheduled: bool)
    requires Counted(n, made) && !n.encrypter.MakeUuid?
    ensures Counted(EncrypterStep(n, scheduled), made)
  {
    match n.encrypter
    case EncryptIdle =>
    case GetRequest(_) => GetCounted(n, made);
    case Enqueue(_, _) => EnqueueCounted(n, made);
    case _ => ReportCounted(n, made, scheduled);
  }

  lemma OthersCounted(n: Shared, t: Shared, made: nat)
    requires Counted(n, made)
    requires SameTasks(n, t) || SameFront(n, t)
    ensures Counted(t, made)
  {
  }

  /** The session's pairs so far. */
  function Made(s: State): nat {
    if s.start <= |s.made| then |s.made| - s.start else 0
  }

  lemma BeginCounted(n: Shared, ids: seq<string>)
    requires n.pairs == [] && |ids| <= PAIR_QUEUE_CAPACITY
    ensures Counted(BeginStep(n, ids, true), 0)
  {
  }

  lemma IssueCounted(s: State, uuid: Uuid)
    requires s.start <= |s.made| && Counted(s.now, Made(s)) && s.now.encrypter.MakeUuid?
    ensures
      var t := Apply(s, StepEncrypter(uuid, true));
      Counted(t.now, Made(t))
  {
  }

  lemma CountedStays(s: State, step: Step)
    requires s.start <= |s.made| && Counted(s.now, Made(s)) && TaskFlags(s.now) && BeginsClean(s.now, step)
    ensures Counted(Apply(s, step).now, Made(Apply(s, step)))
  {
    match step
    case Begin(ids, scheduled) =>
      if Accepts(s.now) && scheduled {
        BeginCounted(s.now, ids);
      }
    case StepMain(scheduled) =>
      MainSameTasks(s.now, scheduled);
      OthersCounted(s.now, MainStep(s.now, scheduled), Made(s));
    case StepPusher => PusherCounted(s.now, Made(s));
    case StepEncrypter(uuid, scheduled) =>
      if s.now.encrypter.MakeUuid? {
        IssueCounted(s, uuid);
      } else {
        EncrypterCounted(s.now, Made(s), scheduled);
      }
    case StepStreamer(taken, scheduled) =>
      StreamerSameFront(s.now, taken, scheduled);
      OthersCounted(s.now, StreamerStep(s.now, taken, scheduled), Made(s));
  }

  // A session that has failed files nothing.

  /** The main thread is idle, or its session has failed: in its encryption or in its stream. */
  ghost predicate Doomed(n: Shared) {
    || n.main == MainIdle
    || (n.encrypter == EncryptIdle && n.encryptionDone && n.encryptionResult != Success)
    || (n.streamingDone && n.streamingResult != Success && n.main != AwaitEncryption)
  }

  lemma MainDoomed(n: Shared, scheduled: bool)
    requires Doomed(n)
    ensures Doomed(MainStep(n, scheduled)) && !Finishes(n)
  {
    MainSameTasks(n, scheduled);
  }

  lemma DoomedStays(s: State, step: Step)
    requires MainFlags(s.now) && Doomed(s.now) && !step.Begin?
    ensures Doomed(Apply(s, step).now) && Apply(s, step).outputs == s.outputs
  {
    match step
    case StepMain(scheduled) => MainDoomed(s.now, scheduled);
    case StepPusher => PusherSameStream(s.now);
    case StepEncrypter(_, scheduled) => EncrypterSameStream(s.now, scheduled);
    case StepStreamer(taken, scheduled) => StreamerSameFront(s.now, taken, scheduled);
  }

  // A session that has not failed flows as if nothing could fail.

  ghost predicate Goes(n: Shared, made: seq<Pair>) {
    Doomed(n) || Flows(n, made)
  }

  lemma MainGoes(n: Shared, made: seq<Pair>, scheduled: bool)
    requires Flows(n, made)
    ensures Goes(MainStep(n, scheduled), made)
  {
    MainKeeps(n, made);
  }

  lemma EncrypterGoes(n: Shared, made: seq<Pair>, scheduled: bool)
    requires Flows(n, made) && !n.encrypter.MakeUuid?
    ensures Goes(EncrypterStep(n, scheduled), made)
  {
    if scheduled || n.encrypter != RescheduleEncrypt {
      EncrypterKeeps(n, made);
    }
  }

  lemma StreamerGoes(n: Shared, made: seq<Pair>, taken: bool, scheduled: bool)
    requires Flows(n, made)
    ensures Goes(StreamerStep(n, taken, scheduled), made)
  {
    if StreamerStep(n, taken, scheduled) == StreamerStep(n, true, true) {
      StreamerKeeps(n, made);
    }
  }

  /** What has been filed is faithful, and its UUIDs are pairwise distinct and among those of `made`. */
  ghost predicate FiledFrom(outputs: seq<Output>, made: seq<Pair>) {
    && (forall i :: 0 <= i < |outputs| ==> IsFaithful(outputs[i]))
    && DistinctUuids(AllPairs(outputs))
    && Uuids(AllPairs(outputs)) <= Uuids(made)
  }

  /** What has been filed holds none of the pairs of the session under way. */
  ghost predicate Filed(s: State) {
    FiledFrom(s.outputs, if s.now.main == MainIdle then s.made else Earlier(s))
  }

  lemma FiledMore(outputs: seq<Output>, output: Output, before: seq<Pair>)
    requires FiledFrom(outputs, before) && IsFaithful(output) && DistinctUuids(before + output.pairs)
    ensures FiledFrom(outputs + [output], before + output.pairs)
  {
    AllPairsNext(outputs, output);
    DistinctParts(before, AllPairs(outputs), output.pairs);
  }

  function Uuids(pairs: seq<Pair>): set<Uuid> {
    set i | 0 <= i < |pairs| :: pairs[i].encryptedId
  }

  /** The pairs of earlier sessions. */
  function Earlier(s: State): seq<Pair> {
    if s.start <= |s.made| then s.made[..s.start] else s.made
  }

  lemma DistinctParts(before: seq<Pair>, filed: seq<Pair>, pairs: seq<Pair>)
    requires DistinctUuids(before + pairs) && DistinctUuids(filed) && Uuids(filed) <= Uuids(before)
    ensures DistinctUuids(filed + pairs) && Uuids(filed + pairs) <= Uuids(before + pairs)
  {
    var all, both := before + pairs, filed + pairs;
    forall i, j | 0 <= i < |filed| && 0 <= j < |pairs| ensures filed[i].encryptedId != pairs[j].encryptedId {
      assert filed[i].encryptedId in Uuids(before);
      var k :| 0 <= k < |before| && before[k].encryptedId == filed[i].encryptedId;
      assert all[k] == before[k] && all[|before| + j] == pairs[j];
    }
    forall i, j | 0 <= i < j < |pairs| ensures pairs[i].encryptedId != pairs[j].encryptedId {
      assert all[|before| + i] == pairs[i] && all[|before| + j] == pairs[j];
    }
    UuidsOfBoth(filed, pairs);
    UuidsOfBoth(before, pairs);
  }

  lemma UuidsOfBoth(a: seq<Pair>, b: seq<Pair>)
    ensures Uuids(a + b) == Uuids(a) + Uuids(b)
  {
    forall u | u in Uuids(a) + Uuids(b) ensures u in Uuids(a + b) {
      if u in Uuids(a) {
        var i :| 0 <= i < |a| && a[i].encryptedId == u;
        assert (a + b)[i].encryptedId == u;
      } else {
        var i :| 0 <= i < |b| && b[i].encryptedId == u;
        assert (a + b)[|a| + i].encryptedId == u;
      }
    }
  }

  // Every history whose sessions begin clean.

  ghost predicate Sound(s: State) {
    && s.start <= |s.made| && UuidsKept(s)
    && MainFlags(s.now) && TaskFlags(s.now) && Counted(s.now, Made(s))
    && Goes(s.now, SessionPairs(s))
    && Filed(s)
  }

  /** A session that begins clean flows from its beginning. */
  lemma BeginGoes(s: State, ids: seq<string>, scheduled: bool)
    requires Sound(s) && BeginsClean(s.now, Begin(ids, scheduled))
    ensures
      var t := Apply(s, Begin(ids, scheduled));
      t.start <= |t.made| && Goes(t.now, SessionPairs(t)) && Filed(t)
  {
    if Accepts(s.now) {
      assert s.made[..|s.made|] == s.made && s.made[|s.made|..] == [];
      if scheduled {
        BeginKeeps(s.now, ids);
      }
    }
  }

  /** Only a session that has not failed ends by filing what it has collected. */
  lemma FinishesWhole(n: Shared, made: seq<Pair>)
    requires Goes(n, made) && Finishes(n)
    ensures n.collected == made && IsFaithful(Output(n.ids, made))
  {
    if Doomed(n) {
      MainDoomed(n, true);
    }
    SessionIsOver(n, made);
  }

  lemma EndStep(s: State, scheduled: bool)
    requires Finishes(s.now)
    ensures
      var output := Output(s.now.ids, s.now.collected);
      Apply(s, StepMain(scheduled)) == s.(now := s.now.(main := MainIdle), outputs := s.outputs + [output])
  {
  }

  lemma MadeParts(s: State)
    requires s.start <= |s.made|
    ensures Earlier(s) + SessionPairs(s) == s.made
  {
  }

  /** The step that ends a session files its pairs. */
  lemma EndFiles(s: State, scheduled: bool)
    requires s.start <= |s.made| && UuidsKept(s) && Filed(s) && Finishes(s.now)
    requires Goes(s.now, SessionPairs(s))
    ensures Filed(Apply(s, StepMain(scheduled)))
  {
    var made := SessionPairs(s);
    FinishesWhole(s.now, made);
    MadeParts(s);
    FiledMore(s.outputs, Output(s.now.ids, made), Earlier(s));
    EndStep(s, scheduled);
  }

  lemma EarlierUuids(s: State)
    requires s.start <= |s.made|
    ensures Uuids(Earlier(s)) <= Uuids(s.made)
  {
    UuidsOfBoth(Earlier(s), SessionPairs(s));
    MadeParts(s);
  }

  lemma MainStepGoes(s: State, scheduled: bool)
    requires Sound(s)
    ensures
      var t := Apply(s, StepMain(scheduled));
      Goes(t.now, SessionPairs(t)) && Filed(t)
  {
    if Doomed(s.now) {
      MainDoomed(s.now, scheduled);
    } else {
      MainGoes(s.now, SessionPairs(s), scheduled);
    }
    if Finishes(s.now) {
      EndFiles(s, scheduled);
    } else {
      EarlierUuids(s);
    }
  }

  lemma PairGoes(n: Shared, made: seq<Pair>, pair: Pair)
    requires Goes(n, made) && n.encrypter.MakeUuid? && pair.plaintext == n.encrypter.plaintext
    ensures Goes(n.(encrypter := Enqueue(pair, n.encrypter.again)), made + [pair])
  {
    if Flows(n, made) {
      MakeUuidKeeps(n, made, pair);
    }
  }

  /** The state with one more pair made. */
  function Issued(s: State, pair: Pair): State
    requires s.now.encrypter.MakeUuid?
  {
    State(s.now.(encrypter := Enqueue(pair, s.now.encrypter.again)),
          s.used + {pair.encryptedId}, s.made + [pair], s.start, s.outputs)
  }

  lemma IssuedParts(s: State, pair: Pair)
    requires s.start <= |s.made| && s.now.encrypter.MakeUuid?
    ensures SessionPairs(Issued(s, pair)) == SessionPairs(s) + [pair] && Earlier(Issued(s, pair)) == Earlier(s)
    ensures Uuids(s.made) <= Uuids(Issued(s, pair).made)
  {
    UuidsOfBoth(s.made, [pair]);
  }

  lemma IssueGoes(s: State, uuid: Uuid)
    requires s.start <= |s.made| && Goes(s.now, SessionPairs(s)) && Filed(s) && s.now.encrypter.MakeUuid?
    ensures
      var t := Apply(s, StepEncrypter(uuid, true));
      Goes(t.now, SessionPairs(t)) && Filed(t)
  {
    if uuid !in s.used {
      var pair := PlaintextAndEncrypted(s.now.encrypter.plaintext, uuid);
      assert Apply(s, StepEncrypter(uuid, true)) == Issued(s, pair);
      PairGoes(s.now, SessionPairs(s), pair);
      IssuedParts(s, pair);
    }
  }

  lemma EncrypterStepGoes(s: State, uuid: Uuid, scheduled: bool)
    requires Sound(s)
    ensures
      var t := Apply(s, StepEncrypter(uuid, scheduled));
      Goes(t.now, SessionPairs(t)) && Filed(t)
  {
    if s.now.encrypter.MakeUuid? {
      IssueGoes(s, uuid);
    } else {
      EncrypterSameStream(s.now, scheduled);
      if Doomed(s.now) {
        DoomedStays(s, StepEncrypter(uuid, scheduled));
      } else {
        EncrypterGoes(s.now, SessionPairs(s), scheduled);
      }
    }
  }

  /** Steps of the pushing thread and the stream task. */
  lemma OtherStepGoes(s: State, step: Step)
    requires Sound(s) && (step.StepPusher? || step.StepStreamer?)
    ensures
      var t := Apply(s, step);
      Goes(t.now, SessionPairs(t)) && Filed(t)
  {
    match step {
      case StepPusher => PusherSameStream(s.now);
      case StepStreamer(taken, scheduled) => StreamerSameFront(s.now, taken, scheduled);
    }
    if Doomed(s.now) {
      DoomedStays(s, step);
    } else {
      match step {
        case StepPusher => PusherKeeps(s.now, SessionPairs(s));
        case StepStreamer(taken, scheduled) => StreamerGoes(s.now, SessionPairs(s), taken, scheduled);
      }
    }
  }

  lemma StepGoes(s: State, step: Step)
    requires Sound(s) && BeginsClean(s.now, step)
    ensures
      var t := Apply(s, step);
      t.start <= |t.made| && Goes(t.now, SessionPairs(t)) && Filed(t)
  {
    match step
    case Begin(ids, scheduled) => BeginGoes(s, ids, scheduled);
    case StepMain(scheduled) => MainStepGoes(s, scheduled);
    case StepEncrypter(uuid, scheduled) => EncrypterStepGoes(s, uuid, scheduled);
    case _ => OtherStepGoes(s, step);
  }

  lemma UuidsStayKept(s: State, step: Step)
    requires UuidsKept(s)
    ensures UuidsKept(Apply(s, step))
  {
    UuidsAlwaysKept(s, [step]);
    assert Exec(Apply(s, step), []) == Apply(s, step);
  }

  lemma NotDropped(s: State, step: Step)
    requires Counted(s.now, Made(s))
    ensures !Drops(s, step)
  {
    if s.now.encrypter.Enqueue? {
      CountedFits(s.now, Made(s));
    }
  }

  lemma SoundStays(s: State, step: Step)
    requires Sound(s) && BeginsClean(s.now, step)
    ensures Sound(Apply(s, step)) && !Drops(s, step)
  {
    StepGoes(s, step);
    NotDropped(s, step);
    CountedStays(s, step);
    TaskFlagsStay(s, step);
    MainFlagsStay(s, step);
    UuidsStayKept(s, step);
  }

  lemma {:induction false} SoundAlways(s: State, steps: seq<Step>)
    requires Sound(s) && SessionsBeginClean(s, steps)
    ensures Sound(Exec(s, steps)) && NothingDropped(s, steps)
    decreases steps
  {
    if steps != [] {
      SoundStays(s, steps[0]);
      SoundAlways(Apply(s, steps[0]), steps[1..]);
    }
  }

  /** Over any number of sessions, whatever task is refused and whatever response is not taken: as long as every session
      that begins finds the pair queue empty and has no more ids than it holds, no pair is ever dropped, every
      output ever filed is its session's ids in order, each with a UUID, and no two pairs filed share one. */
  lemma PipelinePairsEveryId(steps: seq<Step>)
    requires SessionsBeginClean(INITIAL, steps)
    ensures NothingDropped(INITIAL, steps)
    ensures
      var outputs := Exec(INITIAL, steps).outputs;
      && (forall i :: 0 <= i < |outputs| ==> IsFaithful(outputs[i]))
      && DistinctUuids(AllPairs(outputs))
  {
    InitialHolds();
    SoundAlways(INITIAL, steps);
  }

  /** In such a history the ids of a session under way that has not failed are all accounted for, in order. */
  lemma UnfailedSessionConserves(steps: seq<Step>)
    requires SessionsBeginClean(INITIAL, steps) && !Doomed(Exec(INITIAL, steps).now)
    ensures
      var n := Exec(INITIAL, steps).now;
      Plaintexts(n.collected + InReceived(n) + n.responses + InRespond(n) + (n.pairs + InEnqueue(n)))
      + InMakeUuid(n) + n.requests + NotPushed(n) == n.ids
  {
    InitialHolds();
    SoundAlways(INITIAL, steps);
    var s := Exec(INITIAL, steps);
    FrontConserves(s.now, SessionPairs(s));
  }

  lemma {:induction false} FaultlessBeginsClean(s: State, steps: seq<Step>)
    requires Inv(s) && Faultless(steps)
    ensures SessionsBeginClean(s, steps)
    decreases steps
  {
    if steps != [] {
      if Accepts(s.now) {
        SessionIsOver(s.now, s.made[s.start..]);
      }
      ApplyKeeps(s, steps[0]);
      FaultlessBeginsClean(Apply(s, steps[0]), steps[1..]);
    }
  }

  /** In a faultless history every session begins clean. */
  lemma FaultlessIsClean(steps: seq<Step>)
    requires Faultless(steps)
    ensures SessionsBeginClean(INITIAL, steps)
  {
    InitialHolds();
    FaultlessBeginsClean(INITIAL, steps);
  }

  // Sessions that do not begin clean.

  ghost predicate AllFaithful(outputs: seq<Output>) {
    forall i :: 0 <= i < |outputs| ==> IsFaithful(outputs[i])
  }

  lemma {:induction false} NoBeginIsClean(s: State, steps: seq<Step>)
    requires NoBegin(steps)
    ensures SessionsBeginClean(s, steps)
    decreases steps
  {
    if steps != [] {
      NoBeginIsClean(Apply(s, steps[0]), steps[1..]);
    }
  }

  /** A session without ids that found a pair: its stream has no room for the pair, and fails. */
  ghost predicate Barren(n: Shared) {
    && n.ids == [] && |n.pairs| <= PAIR_QUEUE_CAPACITY && n.main != AwaitEncryption
    && (n.streamer == StreamIdle || n.streamer.GetPair? || n.streamer.Respond?)
    && (n.main == OpenStream ==> n.streamer == StreamIdle)
    && (n.main == OpenStream || n.streamer.GetPair? ==> n.pairs != [])
    && (n.streamingDone ==> n.streamingResult != Success) && (n.main == GetLeftovers ==> n.streamingDone)
  }

  lemma MainMovesBarren(n: Shared, t: Shared)
    requires Barren(n) && t == n.(main := t.main, collected := t.collected, responses := t.responses)
    requires t.main != OpenStream && t.main != AwaitEncryption && (t.main == GetLeftovers ==> n.streamingDone)
    ensures Barren(t)
  {
  }

  lemma OpenStreamBarren(n: Shared, scheduled: bool)
    requires Barren(n) && n.main == OpenStream
    ensures Barren(MainStep(n, scheduled))
  {
  }

  lemma MainBarren(n: Shared, scheduled: bool)
    requires Barren(n)
    ensures Barren(MainStep(n, scheduled)) && !Finishes(n)
  {
    match n.main
    case MainIdle =>
    case OpenStream => OpenStreamBarren(n, scheduled);
    case GetResponse =>
      if n.responses == [] {
        MainMovesBarren(n, n.(main := Received(None)));
      } else {
        MainMovesBarren(n, n.(main := Received(Some(n.responses[0])), responses := n.responses[1..]));
      }
    case Received(Some(pair)) => MainMovesBarren(n, n.(collected := n.collected + [pair], main := GetResponse));
    case Received(None) => MainMovesBarren(n, n.(main := if n.streamingDone then GetLeftovers else GetResponse));
    case GetLeftovers =>
      if n.responses != [] {
        MainMovesBarren(n, n.(collected := n.collected + [n.responses[0]], responses := n.responses[1..]));
      } else {
        MainMovesBarren(n, n.(main := MainIdle));
      }
    case AwaitEncryption =>
  }

  lemma StreamerBarren(n: Shared, taken: bool, scheduled: bool)
    requires Barren(n)
    ensures Barren(StreamerStep(n, taken, scheduled))
  {
    match n.streamer
    case StreamIdle =>
    case GetPair(_) =>
    case Respond(_, _) =>
  }

  lemma BarrenStays(s: State, step: Step)
    requires Barren(s.now) && !step.Begin?
    ensures Barren(Apply(s, step).now) && Apply(s, step).outputs == s.outputs
  {
    match step
    case StepMain(scheduled) => MainBarren(s.now, scheduled);
    case StepPusher => PusherSameStream(s.now);
    case StepEncrypter(_, scheduled) =>
      EncrypterSameStream(s.now, scheduled);
    case StepStreamer(taken, scheduled) => StreamerBarren(s.now, taken, scheduled);
  }

  lemma {:induction false} BarrenAlways(s: State, steps: seq<Step>)
    requires Barren(s.now) && NoBegin(steps)
    ensures Exec(s, steps).outputs == s.outputs
    decreases steps
  {
    if steps != [] {
      BarrenStays(s, steps[0]);
      BarrenAlways(Apply(s, steps[0]), steps[1..]);
    }
  }

  /** A session that begins clean, or has no ids, files nothing that is not faithful. */
  lemma SafeSession(s: State, ids: seq<string>, steps: seq<Step>)
    requires Sound(s) && Accepts(s.now) && |s.now.pairs| <= PAIR_QUEUE_CAPACITY && NoBegin(steps)
    requires ids == [] || (s.now.pairs == [] && |ids| <= PAIR_QUEUE_CAPACITY)
    ensures AllFaithful(Exec(Apply(s, Begin(ids, true)), steps).outputs)
  {
    var begun := Apply(s, Begin(ids, true));
    if s.now.pairs == [] {
      SoundStays(s, Begin(ids, true));
      NoBeginIsClean(begun, steps);
      SoundAlways(begun, steps);
    } else {
      BarrenAlways(begun, steps);
    }
  }

  /** A session with ids that finds pairs: the main thread collects those, and then the session's own. */
  lemma MixedSession(s: State, ids: seq<string>, supply: seq<Uuid>) returns (steps: seq<Step>)
    requires Accepts(s.now) && ids != [] && |ids| <= PAIR_QUEUE_CAPACITY
    requires AllFresh(supply, s.used) && |supply| >= |ids|
    ensures WithinSession(steps)
    ensures
      var t := Exec(Apply(Apply(s, Begin(ids, true)), StepMain(true)), steps);
      && |t.outputs| == |s.outputs| + 1 && t.outputs[|s.outputs|].ids == ids
      && |t.outputs[|s.outputs|].pairs| == |s.now.pairs| + |ids|
  {
    var begun := Apply(Apply(s, Begin(ids, true)), StepMain(true));
    SessionOpens(s, ids);
    steps := HandOverRun(begun);
    var t := begun.(now := AllHandedOver(begun.now));
    var more := PushAndEncrypt(t, supply);
    steps := FollowUp(begun, steps, t, more);
    var u := Exec(t, more);
    more := FinishedSession(u);
    steps := FollowUp(begun, steps, u, more);
  }

  /** Any other session can file an output that has too few pairs or too many, although nothing fails in it. */
  lemma UnsafeSession(s: State, ids: seq<string>, supply: seq<Uuid>) returns (steps: seq<Step>)
    requires Accepts(s.now) && |s.now.pairs| <= PAIR_QUEUE_CAPACITY
    requires ids != [] && (s.now.pairs != [] || |ids| > PAIR_QUEUE_CAPACITY)
    requires AllFresh(supply, s.used) && |supply| >= |ids|
    ensures WithinSession(steps) && !AllFaithful(Exec(Apply(s, Begin(ids, true)), steps).outputs)
  {
    var begun := Apply(s, Begin(ids, true));
    var t := Apply(begun, StepMain(true));
    var more;
    if |ids| > PAIR_QUEUE_CAPACITY {
      more := WholeSession(s, ids, supply);
    } else {
      more := MixedSession(s, ids, supply);
    }
    assert !IsFaithful(Exec(t, more).outputs[|s.outputs|]);
    OneStep(begun, StepMain(true));
    steps := FollowUp(begun, [StepMain(true)], t, more);
  }

  /** The premise is exact: after any history whose sessions began clean, whatever failed in it, no schedule of a
      further session files an output that is not faithful, if and only if that session finds the pair queue empty
      and has no more ids than the queue holds, or has no ids at all. */
  lemma FaithfulIffClean(history: seq<Step>, ids: seq<string>, supply: seq<Uuid>)
    requires SessionsBeginClean(INITIAL, history) && Accepts(Exec(INITIAL, history).now)
    requires AllFresh(supply, Exec(INITIAL, history).used) && |supply| >= |ids|
    ensures
      var s := Exec(INITIAL, history);
      (forall steps :: NoBegin(steps) ==> AllFaithful(Exec(Apply(s, Begin(ids, true)), steps).outputs))
      <==> ids == [] || (s.now.pairs == [] && |ids| <= PAIR_QUEUE_CAPACITY)
  {
    var s := Exec(INITIAL, history);
    InitialHolds();
    SoundAlways(INITIAL, history);
    PairsAlwaysFit(INITIAL, history);
    if ids == [] || (s.now.pairs == [] && |ids| <= PAIR_QUEUE_CAPACITY) {
      forall steps | NoBegin(steps) ensures AllFaithful(Exec(Apply(s, Begin(ids, true)), steps).outputs) {
        SafeSession(s, ids, steps);
      }
    } else {
      var steps := UnsafeSession(s, ids, supply);
      assert NoBegin(steps);
    }
  }
}

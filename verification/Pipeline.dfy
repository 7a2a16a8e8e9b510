/** Generating the publisher mapping: the generator's main thread and pushing thread, the encryptor's
    encrypt task and stream task, and the queues and flags between them. */
module Pipeline {
  import opened Results
  import opened Lines
  import opened Mapping

  /** Pairs the encryptor's queue holds before an insertion fails. */
  const PAIR_QUEUE_CAPACITY: nat := 100_000_000

  type Pair = PlaintextAndEncrypted

  /** The encrypt task's next access; `again` tells the second drain, after the mark was seen. */
  datatype Encrypter =
    | EncryptIdle
    | GetRequest(again: bool)
    | MakeUuid(plaintext: string, again: bool)
    | Enqueue(pair: Pair, again: bool)
    | CheckMarked
    | RescheduleEncrypt
    | ReportEncryption
    | RaiseEncrypted

  /** The stream task's next access; `again` tells the second drain, after encryption was seen done. */
  datatype Streamer =
    | StreamIdle
    | GetPair(again: bool)
    | Respond(pair: Pair, again: bool)
    | CheckEncrypted
    | RescheduleStream
    | RaiseStreamed
    | ReportStreaming

  /** The pushing thread is about to push the id at an index, or to mark the requests done. */
  datatype Pusher = PushIdle | Push(index: nat)

  /** Where the main thread is in `GeneratePublisherList`. */
  datatype Main =
    | MainIdle
    | OpenStream
    | GetResponse
    | Received(response: Option<Pair>)
    | GetLeftovers
    | AwaitEncryption

  /** What the actors share: the encryptor's members and the current session's contexts, flags and results. */
  datatype Shared = Shared(
    encrypter: Encrypter,
    streamer: Streamer,
    pusher: Pusher,
    main: Main,
    pairs: seq<Pair>,                    // encrypted_ids_queue_
    doneEncrypting: bool,
    doneStreaming: bool,
    ids: seq<string>,
    requests: seq<string>,               // the encrypt context's queue, with room for all ids
    marked: bool,                        // the encrypt context is marked done
    pushingResult: ExecutionResult,
    encryptionDone: bool,
    encryptionResult: ExecutionResult,
    responses: seq<Pair>,                // the stream context's queue, with room for all ids
    streamingDone: bool,
    streamingResult: ExecutionResult,
    collected: seq<Pair>)

  /** What a successful session turns its ids into. */
  datatype Output = Output(ids: seq<string>, pairs: seq<Pair>)

  datatype State = State(
    now: Shared,
    used: set<Uuid>,                     // used_ids_
    made: seq<Pair>,                     // every pair ever made
    start: nat,                          // how many of them before this session
    outputs: seq<Output>)                // results of the successful sessions

  datatype Step =
    | Begin(ids: seq<string>, scheduled: bool)
    | StepMain(scheduled: bool)
    | StepPusher
    | StepEncrypter(uuid: Uuid, scheduled: bool)
    | StepStreamer(taken: bool, scheduled: bool)

  const INITIAL := State(
    Shared(EncryptIdle, StreamIdle, PushIdle, MainIdle, [], true, true,
           [], [], true, Success, true, Success, [], true, Success, []),
    {}, [], 0, [])

  function Apply(s: State, step: Step): State {
    match step
    case Begin(ids, scheduled) =>
      if !Accepts(s.now) then s else State(BeginStep(s.now, ids, scheduled), s.used, s.made, |s.made|, s.outputs)
    case StepMain(scheduled) =>
      var outputs := if Finishes(s.now) then s.outputs + [Output(s.now.ids, s.now.collected)] else s.outputs;
      s.(now := MainStep(s.now, scheduled), outputs := outputs)
    case StepPusher => s.(now := PusherStep(s.now))
    case StepEncrypter(uuid, scheduled) =>
      if !s.now.encrypter.MakeUuid? then s.(now := EncrypterStep(s.now, scheduled))
      else if uuid in s.used then s
      else
        var pair := PlaintextAndEncrypted(s.now.encrypter.plaintext, uuid);
        State(s.now.(encrypter := Enqueue(pair, s.now.encrypter.again)),
              s.used + {uuid}, s.made + [pair], s.start, s.outputs)
    case StepStreamer(taken, scheduled) => s.(now := StreamerStep(s.now, taken, scheduled))
  }

  /** The generator is free to begin a session and `Encrypt` does not reject it. */
  predicate Accepts(n: Shared) {
    n.main == MainIdle && n.pusher == PushIdle && n.doneEncrypting && n.doneStreaming
  }

  /** `BeginEncryption`: lowers the done flags, schedules the encrypt task, starts the pushing thread.
      When scheduling fails nothing raises the flags again. */
  function BeginStep(n: Shared, ids: seq<string>, scheduled: bool): Shared {
    if !scheduled then n.(doneEncrypting := false, doneStreaming := false)
    else
      Shared(GetRequest(false), n.streamer, Push(0), OpenStream, n.pairs, false, false,
             ids, [], false, DEFAULT_RESULT, false, DEFAULT_RESULT, [], false, DEFAULT_RESULT, [])
  }

  /** `StreamIds`, `RetrieveAllIds` and the end of `GeneratePublisherList`. */
  function MainStep(n: Shared, scheduled: bool): Shared {
    match n.main
    case MainIdle => n
    case OpenStream => if scheduled then n.(streamer := GetPair(false), main := GetResponse) else n.(main := MainIdle)
    case GetResponse =>
      if n.responses == [] then n.(main := Received(None))
      else n.(main := Received(Some(n.responses[0])), responses := n.responses[1..])
    case Received(Some(pair)) => n.(collected := n.collected + [pair], main := GetResponse)
    case Received(None) => n.(main := if n.streamingDone then GetLeftovers else GetResponse)
    case GetLeftovers =>
      if n.responses != [] then n.(collected := n.collected + [n.responses[0]], responses := n.responses[1..])
      else n.(main := if n.streamingResult == Success then AwaitEncryption else MainIdle)
    case AwaitEncryption => if n.encryptionDone && n.pusher == PushIdle then n.(main := MainIdle) else n
  }

  /** The step that ends a session with its mapping complete. */
  predicate Finishes(n: Shared) {
    && n.main == AwaitEncryption && n.encryptionDone && n.pusher == PushIdle
    && n.pushingResult == Success && n.encryptionResult == Success
  }

  function PusherStep(n: Shared): Shared {
    match n.pusher
    case PushIdle => n
    case Push(i) =>
      if i >= |n.ids| then n.(pusher := PushIdle, pushingResult := Success, marked := true)
      else if PushFits(n) then n.(requests := n.requests + [n.ids[i]], pusher := Push(i + 1))
      else n.(pusher := PushIdle, pushingResult := Failure(QueueFull), marked := true)
  }

  /** `TryPushRequest` succeeds. */
  predicate PushFits(n: Shared) {
    !n.marked && |n.requests| < |n.ids|
  }

  /** `EncryptIdsInternal`, apart from making UUIDs. A failed insertion is reported, but the loop
      goes on without the pair. */
  function EncrypterStep(n: Shared, scheduled: bool): Shared {
    match n.encrypter
    case GetRequest(again) =>
      if n.requests != [] then n.(encrypter := MakeUuid(n.requests[0], again), requests := n.requests[1..])
      else n.(encrypter := if again then ReportEncryption else CheckMarked)
    case Enqueue(pair, again) =>
      if |n.pairs| < PAIR_QUEUE_CAPACITY then n.(pairs := n.pairs + [pair], encrypter := GetRequest(again))
      else n.(encrypter := GetRequest(again), marked := true, encryptionDone := true,
              encryptionResult := Failure(QueueFull), doneEncrypting := true)
    case CheckMarked => n.(encrypter := if n.marked then GetRequest(true) else RescheduleEncrypt)
    case RescheduleEncrypt =>
      if scheduled then n.(encrypter := GetRequest(false))
      else n.(encrypter := EncryptIdle, marked := true, encryptionDone := true,
              encryptionResult := DEFAULT_RESULT, doneEncrypting := true)
    case ReportEncryption => n.(encrypter := RaiseEncrypted, encryptionDone := true, encryptionResult := Success)
    case RaiseEncrypted => n.(encrypter := EncryptIdle, doneEncrypting := true)
    case _ => n
  }

  /** `StreamIdsInternal`. */
  function StreamerStep(n: Shared, taken: bool, scheduled: bool): Shared {
    match n.streamer
    case StreamIdle => n
    case GetPair(again) =>
      if n.pairs != [] then n.(streamer := Respond(n.pairs[0], again), pairs := n.pairs[1..])
      else n.(streamer := if again then RaiseStreamed else CheckEncrypted)
    case Respond(pair, again) =>
      if taken && |n.responses| < |n.ids| then n.(responses := n.responses + [pair], streamer := GetPair(again))
      else StreamFails(n)
    case CheckEncrypted => n.(streamer := if n.doneEncrypting then GetPair(true) else RescheduleStream)
    case RescheduleStream => if scheduled then n.(streamer := GetPair(false)) else StreamFails(n)
    case RaiseStreamed => n.(streamer := ReportStreaming, doneStreaming := true)
    case ReportStreaming => n.(streamer := StreamIdle, streamingDone := true, streamingResult := Success)
  }

  /** The stream task gives up: it raises its flag and reports a failure. */
  function StreamFails(n: Shared): Shared {
    n.(streamer := StreamIdle, doneStreaming := true, streamingDone := true, streamingResult := DEFAULT_RESULT)
  }

  function Exec(s: State, steps: seq<Step>): State
    decreases steps
  {
    if steps == [] then s else Exec(Apply(s, steps[0]), steps[1..])
  }

  lemma {:induction false} ExecAppend(s: State, a: seq<Step>, b: seq<Step>)
    ensures Exec(s, a + b) == Exec(Exec(s, a), b)
    decreases a
  {
    if a == [] {
      assert a + b == b;
    } else {
      assert (a + b)[1..] == a[1..] + b;
      ExecAppend(Apply(s, a[0]), a[1..], b);
    }
  }

  /** Nothing outside the pipeline fails: every task is scheduled, every response that fits is taken,
      and no session has more ids than the pair queue holds. */
  ghost predicate Faultless(steps: seq<Step>) {
    forall i :: 0 <= i < |steps| ==> IsFaultless(steps[i])
  }

  ghost predicate IsFaultless(step: Step) {
    match step
    case Begin(ids, scheduled) => scheduled && |ids| <= PAIR_QUEUE_CAPACITY
    case StepMain(scheduled) => scheduled
    case StepPusher => true
    case StepEncrypter(_, scheduled) => scheduled
    case StepStreamer(taken, scheduled) => taken && scheduled
  }

  // UUIDs are unique whatever fails.

  ghost predicate DistinctUuids(pairs: seq<Pair>) {
    forall i, j :: 0 <= i < j < |pairs| ==> pairs[i].encryptedId != pairs[j].encryptedId
  }

  ghost predicate UuidsKept(s: State) {
    && DistinctUuids(s.made)
    && forall i :: 0 <= i < |s.made| ==> s.made[i].encryptedId in s.used
  }

  lemma {:induction false} UuidsAlwaysKept(s: State, steps: seq<Step>)
    requires UuidsKept(s)
    ensures UuidsKept(Exec(s, steps))
    decreases steps
  {
    if steps != [] {
      UuidsAlwaysKept(Apply(s, steps[0]), steps[1..]);
    }
  }

  /** Under every schedule, whatever fails, over all sessions, no UUID is issued twice. */
  lemma NoUuidIssuedTwice(steps: seq<Step>)
    ensures DistinctUuids(Exec(INITIAL, steps).made)
  {
    UuidsAlwaysKept(INITIAL, steps);
  }

  // The invariant of faultless histories.

  /** Ids pushed so far. */
  function Pushed(n: Shared): nat {
    if n.pusher.Push? then n.pusher.index else |n.ids|
  }

  /** Ids the encrypt task has taken, of which `made` are paired. */
  function Taken(n: Shared, made: nat): nat {
    if n.encrypter.MakeUuid? then made + 1 else made
  }

  /** Ids travel in order: those paired, the one being paired, those requested, those not yet pushed. */
  ghost predicate Front(n: Shared, made: seq<Pair>) {
    && Taken(n, |made|) <= Pushed(n) <= |n.ids| <= PAIR_QUEUE_CAPACITY
    && (forall i :: 0 <= i < |made| ==> made[i].plaintext == n.ids[i])
    && (n.encrypter.MakeUuid? ==> n.encrypter.plaintext == n.ids[|made|])
    && n.requests == n.ids[Taken(n, |made|)..Pushed(n)]
    && (n.marked <==> n.pusher == PushIdle)
    && (n.marked ==> n.pushingResult == Success)
  }

  function InEnqueue(n: Shared): seq<Pair> {
    if n.encrypter.Enqueue? then [n.encrypter.pair] else []
  }

  function InRespond(n: Shared): seq<Pair> {
    if n.streamer.Respond? then [n.streamer.pair] else []
  }

  function InReceived(n: Shared): seq<Pair> {
    if n.main.Received? && n.main.response.Some? then [n.main.response.value] else []
  }

  /** What the main thread has or will find in the response queue. */
  function Delivered(n: Shared): seq<Pair> {
    n.collected + InReceived(n) + n.responses
  }

  /** What the stream task has still to take. */
  function Waiting(n: Shared): seq<Pair> {
    n.pairs + InEnqueue(n)
  }

  /** Pairs travel in order: the session's pairs are those delivered, the one being handed over, and those waiting. */
  ghost predicate Back(n: Shared, made: seq<Pair>) {
    Delivered(n) + InRespond(n) + Waiting(n) == made
  }

  ghost predicate EncryptPhase(n: Shared) {
    && (n.doneEncrypting <==> n.encrypter == EncryptIdle)
    && (n.encryptionDone <==> n.encrypter == EncryptIdle || n.encrypter == RaiseEncrypted)
    && (n.encryptionDone ==> n.encryptionResult == Success)
    && (n.encrypter == GetRequest(true) ==> n.marked)
    && (n.encrypter.MakeUuid? && n.encrypter.again ==> n.marked)
    && (n.encrypter.Enqueue? && n.encrypter.again ==> n.marked)
    && (n.encrypter == ReportEncryption || n.encrypter == RaiseEncrypted || n.encrypter == EncryptIdle ==>
          n.marked && n.requests == [])
  }

  ghost predicate StreamPhase(n: Shared) {
    && (n.main == OpenStream ==> n.streamer == StreamIdle && n.collected == [] && n.responses == [])
    && (n.streamingDone <==> n.streamer == StreamIdle && n.main != OpenStream)
    && (n.doneStreaming <==> n.streamingDone || n.streamer == ReportStreaming)
    && (n.streamingDone ==> n.streamingResult == Success)
    && (n.streamer == GetPair(true) ==> n.doneEncrypting)
    && (n.streamer.Respond? && n.streamer.again ==> n.doneEncrypting)
    && (n.streamer == RaiseStreamed || n.streamer == ReportStreaming || n.streamingDone ==>
          n.doneEncrypting && n.pairs == [])
  }

  ghost predicate MainPhase(n: Shared) {
    && (n.main == GetLeftovers || n.main == AwaitEncryption || n.main == MainIdle ==> n.streamingDone)
    && (n.main == AwaitEncryption || n.main == MainIdle ==> n.responses == [])
  }

  /** What holds of the shared state when the session has made the pairs `made`. */
  ghost predicate Flows(n: Shared, made: seq<Pair>) {
    Front(n, made) && Back(n, made) && EncryptPhase(n) && StreamPhase(n) && MainPhase(n)
  }

  // Each step keeps the flow.

  lemma SliceNext<T>(items: seq<T>, lo: nat, hi: nat)
    requires lo <= hi < |items|
    ensures items[lo..hi + 1] == items[lo..hi] + [items[hi]]
  {
  }

  /** There is always room for the next id. */
  lemma PushAlwaysFits(n: Shared, made: seq<Pair>)
    requires Front(n, made) && n.pusher.Push? && n.pusher.index < |n.ids|
    ensures PushFits(n)
  {
  }

  lemma PushIdKeeps(n: Shared, made: seq<Pair>, i: nat)
    requires Flows(n, made) && n.pusher == Push(i) && i < |n.ids|
    ensures Flows(n.(requests := n.requests + [n.ids[i]], pusher := Push(i + 1)), made)
  {
    SliceNext(n.ids, Taken(n, |made|), i);
  }

  lemma PushMarkKeeps(n: Shared, made: seq<Pair>, i: nat)
    requires Flows(n, made) && n.pusher == Push(i) && i >= |n.ids|
    ensures Flows(n.(pusher := PushIdle, pushingResult := Success, marked := true), made)
  {
  }

  lemma PusherKeeps(n: Shared, made: seq<Pair>)
    requires Flows(n, made)
    ensures Flows(PusherStep(n), made)
  {
    match n.pusher
    case PushIdle =>
    case Push(i) =>
      if i >= |n.ids| {
        PushMarkKeeps(n, made, i);
      } else {
        PushAlwaysFits(n, made);
        PushIdKeeps(n, made, i);
      }
  }

  lemma TakeRequestKeeps(n: Shared, made: seq<Pair>, again: bool)
    requires Flows(n, made) && n.encrypter == GetRequest(again) && n.requests != []
    ensures Flows(n.(encrypter := MakeUuid(n.requests[0], again), requests := n.requests[1..]), made)
  {
    assert n.requests[1..] == n.ids[|made| + 1..Pushed(n)];
  }

  lemma NoRequestKeeps(n: Shared, made: seq<Pair>, again: bool)
    requires Flows(n, made) && n.encrypter == GetRequest(again) && n.requests == []
    ensures Flows(n.(encrypter := if again then ReportEncryption else CheckMarked), made)
  {
  }

  /** There is always room for the next pair. */
  lemma EnqueueAlwaysFits(n: Shared, made: seq<Pair>)
    requires Front(n, made) && Back(n, made) && n.encrypter.Enqueue?
    ensures |n.pairs| < PAIR_QUEUE_CAPACITY
  {
  }

  lemma EnqueueKeeps(n: Shared, made: seq<Pair>, pair: Pair, again: bool)
    requires Flows(n, made) && n.encrypter == Enqueue(pair, again)
    ensures Flows(n.(pairs := n.pairs + [pair], encrypter := GetRequest(again)), made)
  {
    var t := n.(pairs := n.pairs + [pair], encrypter := GetRequest(again));
    assert Waiting(t) == Waiting(n) && Delivered(t) == Delivered(n);
  }

  lemma MakeUuidKeeps(n: Shared, made: seq<Pair>, pair: Pair)
    requires Flows(n, made) && n.encrypter.MakeUuid? && pair.plaintext == n.encrypter.plaintext
    ensures Flows(n.(encrypter := Enqueue(pair, n.encrypter.again)), made + [pair])
  {
    var t := n.(encrypter := Enqueue(pair, n.encrypter.again));
    assert n.pairs + [] == n.pairs && Delivered(t) == Delivered(n);
    Regroup(Delivered(n) + InRespond(n), n.pairs, [pair]);
  }

  /** The steps of the encrypt task that move nothing. */
  lemma EncryptPhaseKeeps(n: Shared, made: seq<Pair>)
    requires Flows(n, made) && n.encrypter in {CheckMarked, RescheduleEncrypt, ReportEncryption, RaiseEncrypted}
    ensures Flows(EncrypterStep(n, true), made)
  {
    match n.encrypter
    case CheckMarked => CheckMarkedKeeps(n, made);
    case RescheduleEncrypt => RescheduleKeeps(n, made);
    case ReportEncryption => ReportKeeps(n, made);
    case _ => RaiseKeeps(n, made);
  }

  lemma CheckMarkedKeeps(n: Shared, made: seq<Pair>)
    requires Flows(n, made) && n.encrypter == CheckMarked
    ensures Flows(n.(encrypter := if n.marked then GetRequest(true) else RescheduleEncrypt), made)
  {
  }

  lemma RescheduleKeeps(n: Shared, made: seq<Pair>)
    requires Flows(n, made) && n.encrypter == RescheduleEncrypt
    ensures Flows(n.(encrypter := GetRequest(false)), made)
  {
  }

  lemma ReportKeeps(n: Shared, made: seq<Pair>)
    requires Flows(n, made) && n.encrypter == ReportEncryption
    ensures Flows(n.(encrypter := RaiseEncrypted, encryptionDone := true, encryptionResult := Success), made)
  {
  }

  lemma RaiseKeeps(n: Shared, made: seq<Pair>)
    requires Flows(n, made) && n.encrypter == RaiseEncrypted
    ensures Flows(n.(encrypter := EncryptIdle, doneEncrypting := true), made)
  {
  }

  lemma EncrypterKeeps(n: Shared, made: seq<Pair>)
    requires Flows(n, made) && !n.encrypter.MakeUuid?
    ensures Flows(EncrypterStep(n, true), made)
  {
    match n.encrypter
    case GetRequest(again) =>
      if n.requests != [] {
        TakeRequestKeeps(n, made, again);
      } else {
        NoRequestKeeps(n, made, again);
      }
    case Enqueue(pair, again) =>
      EnqueueAlwaysFits(n, made);
      EnqueueKeeps(n, made, pair, again);
    case EncryptIdle =>
    case _ => EncryptPhaseKeeps(n, made);
  }

  lemma TakePairKeeps(n: Shared, made: seq<Pair>, again: bool)
    requires Flows(n, made) && n.streamer == GetPair(again) && n.pairs != []
    ensures Flows(n.(streamer := Respond(n.pairs[0], again), pairs := n.pairs[1..]), made)
  {
    var t, pair := n.(streamer := Respond(n.pairs[0], again), pairs := n.pairs[1..]), n.pairs[0];
    assert n.pairs == [pair] + t.pairs;
    Regroup([pair], t.pairs, InEnqueue(n));
    Regroup(Delivered(n), [pair], Waiting(t));
    assert Delivered(n) + [] == Delivered(n) == Delivered(t);
  }

  lemma NoPairKeeps(n: Shared, made: seq<Pair>, again: bool)
    requires Flows(n, made) && n.streamer == GetPair(again) && n.pairs == []
    ensures Flows(n.(streamer := if again then RaiseStreamed else CheckEncrypted), made)
  {
  }

  /** There is always room for the next response. */
  lemma RespondAlwaysFits(n: Shared, made: seq<Pair>)
    requires Front(n, made) && Back(n, made) && n.streamer.Respond?
    ensures |n.responses| < |n.ids|
  {
  }

  lemma RespondKeeps(n: Shared, made: seq<Pair>, pair: Pair, again: bool)
    requires Flows(n, made) && n.streamer == Respond(pair, again)
    ensures Flows(n.(responses := n.responses + [pair], streamer := GetPair(again)), made)
  {
    var t := n.(responses := n.responses + [pair], streamer := GetPair(again));
    Regroup(n.collected + InReceived(n), n.responses, [pair]);
    assert Delivered(t) + [] == Delivered(t) && Waiting(t) == Waiting(n);
  }

  lemma CheckEncryptedKeeps(n: Shared, made: seq<Pair>)
    requires Flows(n, made) && n.streamer == CheckEncrypted
    ensures Flows(n.(streamer := if n.doneEncrypting then GetPair(true) else RescheduleStream), made)
  {
  }

  lemma RescheduleStreamKeeps(n: Shared, made: seq<Pair>)
    requires Flows(n, made) && n.streamer == RescheduleStream
    ensures Flows(n.(streamer := GetPair(false)), made)
  {
  }

  lemma RaiseStreamedKeeps(n: Shared, made: seq<Pair>)
    requires Flows(n, made) && n.streamer == RaiseStreamed
    ensures Flows(n.(streamer := ReportStreaming, doneStreaming := true), made)
  {
  }

  lemma ReportStreamingKeeps(n: Shared, made: seq<Pair>)
    requires Flows(n, made) && n.streamer == ReportStreaming
    ensures Flows(n.(streamer := StreamIdle, streamingDone := true, streamingResult := Success), made)
  {
  }

  lemma StreamerKeeps(n: Shared, made: seq<Pair>)
    requires Flows(n, made)
    ensures Flows(StreamerStep(n, true, true), made)
  {
    match n.streamer
    case StreamIdle =>
    case GetPair(again) =>
      if n.pairs != [] {
        TakePairKeeps(n, made, again);
      } else {
        NoPairKeeps(n, made, again);
      }
    case Respond(pair, again) =>
      RespondAlwaysFits(n, made);
      RespondKeeps(n, made, pair, again);
    case CheckEncrypted => CheckEncryptedKeeps(n, made);
    case RescheduleStream => RescheduleStreamKeeps(n, made);
    case RaiseStreamed => RaiseStreamedKeeps(n, made);
    case ReportStreaming => ReportStreamingKeeps(n, made);
  }

  lemma OpenStreamKeeps(n: Shared, made: seq<Pair>)
    requires Flows(n, made) && n.main == OpenStream
    ensures Flows(n.(streamer := GetPair(false), main := GetResponse), made)
  {
  }

  /** The main thread moves on within a session without losing a response. */
  lemma MainMoves(n: Shared, t: Shared, made: seq<Pair>)
    requires Flows(n, made) && t == n.(main := t.main, collected := t.collected, responses := t.responses)
    requires Delivered(t) == Delivered(n)
    requires n.main != OpenStream && t.main != OpenStream
    requires t.main == GetLeftovers || t.main == AwaitEncryption || t.main == MainIdle ==> n.streamingDone
    requires t.main == AwaitEncryption || t.main == MainIdle ==> t.responses == []
    ensures Flows(t, made)
  {
    assert Waiting(t) == Waiting(n) && InRespond(t) == InRespond(n);
  }

  lemma TakeFirstResponse(collected: seq<Pair>, responses: seq<Pair>)
    requires responses != []
    ensures collected + [] + responses == collected + [responses[0]] + responses[1..]
    ensures collected + [responses[0]] + [] + responses[1..] == collected + [responses[0]] + responses[1..]
  {
  }

  lemma GetResponseKeeps(n: Shared, made: seq<Pair>)
    requires Flows(n, made) && n.main == GetResponse
    ensures Flows(MainStep(n, true), made)
  {
    if n.responses == [] {
      MainMoves(n, n.(main := Received(None)), made);
    } else {
      TakeFirstResponse(n.collected, n.responses);
      MainMoves(n, n.(main := Received(Some(n.responses[0])), responses := n.responses[1..]), made);
    }
  }

  lemma GetLeftoversKeeps(n: Shared, made: seq<Pair>)
    requires Flows(n, made) && n.main == GetLeftovers
    ensures Flows(MainStep(n, true), made)
  {
    if n.responses != [] {
      TakeFirstResponse(n.collected, n.responses);
      MainMoves(n, n.(collected := n.collected + [n.responses[0]], responses := n.responses[1..]), made);
    } else {
      MainMoves(n, n.(main := AwaitEncryption), made);
    }
  }

  lemma MainKeeps(n: Shared, made: seq<Pair>)
    requires Flows(n, made)
    ensures Flows(MainStep(n, true), made)
  {
    match n.main
    case MainIdle =>
    case OpenStream => OpenStreamKeeps(n, made);
    case GetResponse => GetResponseKeeps(n, made);
    case Received(Some(pair)) =>
      assert n.collected + [pair] + [] == n.collected + [pair];
      MainMoves(n, n.(collected := n.collected + [pair], main := GetResponse), made);
    case Received(None) =>
      MainMoves(n, n.(main := if n.streamingDone then GetLeftovers else GetResponse), made);
    case GetLeftovers => GetLeftoversKeeps(n, made);
    case AwaitEncryption =>
      if n.encryptionDone && n.pusher == PushIdle {
        MainMoves(n, n.(main := MainIdle), made);
      }
  }

  /** Once the responses are drained after the stream's end, everything has been collected, every actor
      has stopped, every queue is empty and both done flags are up. */
  lemma SessionIsOver(n: Shared, made: seq<Pair>)
    requires Flows(n, made) && (n.main == AwaitEncryption || n.main == MainIdle)
    ensures n.collected == made && |made| == |n.ids|
    ensures n.encrypter == EncryptIdle && n.streamer == StreamIdle && n.pusher == PushIdle
    ensures n.pairs == [] && n.requests == [] && n.responses == []
    ensures n.doneEncrypting && n.doneStreaming
    ensures n.encryptionDone && n.encryptionResult == Success && n.pushingResult == Success
  {
    assert |n.requests| == Pushed(n) - Taken(n, |made|);
    assert n.collected + [] + [] + [] + ([] + []) == n.collected;
  }

  lemma BeginKeeps(n: Shared, ids: seq<string>)
    requires n.streamer == StreamIdle && n.pairs == [] && |ids| <= PAIR_QUEUE_CAPACITY
    ensures Flows(BeginStep(n, ids, true), [])
  {
    assert ids[0..0] == [];
  }

  // What finished sessions have produced.

  function AllPairs(outputs: seq<Output>): seq<Pair> {
    if outputs == [] then [] else AllPairs(outputs[..|outputs| - 1]) + outputs[|outputs| - 1].pairs
  }

  lemma AllPairsNext(outputs: seq<Output>, output: Output)
    ensures AllPairs(outputs + [output]) == AllPairs(outputs) + output.pairs
  {
    assert (outputs + [output])[..|outputs|] == outputs;
  }

  /** The pairs are the ids, in order, each with its UUID. */
  ghost predicate IsFaithful(output: Output) {
    && |output.pairs| == |output.ids|
    && forall i :: 0 <= i < |output.ids| ==> output.pairs[i].plaintext == output.ids[i]
  }

  ghost predicate Inv(s: State) {
    && s.start <= |s.made|
    && Flows(s.now, s.made[s.start..])
    && (forall i :: 0 <= i < |s.outputs| ==> IsFaithful(s.outputs[i]))
    && AllPairs(s.outputs) == (if s.now.main == MainIdle then s.made else s.made[..s.start])
  }

  lemma BeginStepKeeps(s: State, ids: seq<string>)
    requires Inv(s) && |ids| <= PAIR_QUEUE_CAPACITY
    ensures Inv(Apply(s, Begin(ids, true)))
  {
    if Accepts(s.now) {
      SessionIsOver(s.now, s.made[s.start..]);
      BeginKeeps(s.now, ids);
      NewSession(s, BeginStep(s.now, ids, true));
    }
  }

  lemma NewSession(s: State, n: Shared)
    requires AllPairs(s.outputs) == s.made && (forall i :: 0 <= i < |s.outputs| ==> IsFaithful(s.outputs[i]))
    requires Flows(n, []) && n.main != MainIdle
    ensures Inv(State(n, s.used, s.made, |s.made|, s.outputs))
  {
    assert s.made[|s.made|..] == [] && s.made[..|s.made|] == s.made;
  }

  /** The step that ends a session files its output. */
  lemma EndKeeps(s: State)
    requires Inv(s) && s.now.main == AwaitEncryption
    ensures Inv(Apply(s, StepMain(true)))
  {
    var made := s.made[s.start..];
    SessionIsOver(s.now, made);
    MainKeeps(s.now, made);
    var output := Output(s.now.ids, s.now.collected);
    AllPairsNext(s.outputs, output);
    assert s.made[..s.start] + made == s.made;
    assert IsFaithful(output);
    assert Apply(s, StepMain(true)) == s.(now := MainStep(s.now, true), outputs := s.outputs + [output]);
  }

  lemma MainStepKeeps(s: State)
    requires Inv(s)
    ensures Inv(Apply(s, StepMain(true)))
  {
    if s.now.main == AwaitEncryption {
      EndKeeps(s);
    } else {
      MainKeeps(s.now, s.made[s.start..]);
      MainStaysBusy(s.now, s.made[s.start..]);
      assert Apply(s, StepMain(true)) == s.(now := MainStep(s.now, true));
    }
  }

  lemma MainStaysBusy(n: Shared, made: seq<Pair>)
    requires Flows(n, made) && n.main != AwaitEncryption
    ensures MainStep(n, true).main == MainIdle <==> n.main == MainIdle
  {
  }

  lemma IssueKeeps(s: State, pair: Pair)
    requires Inv(s) && s.now.encrypter.MakeUuid? && pair.plaintext == s.now.encrypter.plaintext
    ensures Inv(State(s.now.(encrypter := Enqueue(pair, s.now.encrypter.again)),
                      s.used + {pair.encryptedId}, s.made + [pair], s.start, s.outputs))
  {
    var made := s.made[s.start..];
    MakeUuidKeeps(s.now, made, pair);
    assert (s.made + [pair])[s.start..] == made + [pair];
    assert (s.made + [pair])[..s.start] == s.made[..s.start];
    assert s.now.main != MainIdle;
  }

  lemma EncrypterStepKeeps(s: State, uuid: Uuid)
    requires Inv(s)
    ensures Inv(Apply(s, StepEncrypter(uuid, true)))
  {
    if !s.now.encrypter.MakeUuid? {
      EncrypterKeeps(s.now, s.made[s.start..]);
    } else if uuid !in s.used {
      IssueKeeps(s, PlaintextAndEncrypted(s.now.encrypter.plaintext, uuid));
    }
  }

  /** A step of the pushing thread or the stream task changes only what is shared. */
  lemma SharedKeeps(s: State, n: Shared)
    requires Inv(s) && Flows(n, s.made[s.start..]) && n.main == s.now.main
    ensures Inv(s.(now := n))
  {
  }

  lemma PusherLeavesMain(n: Shared)
    ensures PusherStep(n).main == n.main
  {
  }

  lemma StreamerLeavesMain(n: Shared)
    ensures StreamerStep(n, true, true).main == n.main
  {
  }

  lemma ApplyKeeps(s: State, step: Step)
    requires Inv(s) && IsFaultless(step)
    ensures Inv(Apply(s, step))
  {
    match step
    case Begin(ids, _) => BeginStepKeeps(s, ids);
    case StepMain(_) => MainStepKeeps(s);
    case StepPusher =>
      PusherKeeps(s.now, s.made[s.start..]);
      PusherLeavesMain(s.now);
      SharedKeeps(s, PusherStep(s.now));
    case StepEncrypter(uuid, _) => EncrypterStepKeeps(s, uuid);
    case StepStreamer(_, _) =>
      StreamerKeeps(s.now, s.made[s.start..]);
      StreamerLeavesMain(s.now);
      SharedKeeps(s, StreamerStep(s.now, true, true));
  }

  lemma {:induction false} ExecKeeps(s: State, steps: seq<Step>)
    requires Inv(s) && Faultless(steps)
    ensures Inv(Exec(s, steps))
    decreases steps
  {
    if steps != [] {
      ApplyKeeps(s, steps[0]);
      ExecKeeps(Apply(s, steps[0]), steps[1..]);
    }
  }

  lemma InitialHolds()
    ensures Inv(INITIAL) && UuidsKept(INITIAL)
  {
    assert INITIAL.made[0..] == [];
  }

  lemma Reached(steps: seq<Step>) returns (s: State)
    requires Faultless(steps)
    ensures s == Exec(INITIAL, steps) && Inv(s) && UuidsKept(s)
  {
    InitialHolds();
    ExecKeeps(INITIAL, steps);
    UuidsAlwaysKept(INITIAL, steps);
    s := Exec(INITIAL, steps);
  }

  // Main results.

  function Plaintexts(pairs: seq<Pair>): (plaintexts: seq<string>)
    ensures |plaintexts| == |pairs|
  {
    seq(|pairs|, i requires 0 <= i < |pairs| => pairs[i].plaintext)
  }

  function NotPushed(n: Shared): seq<string> {
    if n.pusher.Push? && n.pusher.index <= |n.ids| then n.ids[n.pusher.index..] else []
  }

  function InMakeUuid(n: Shared): seq<string> {
    if n.encrypter.MakeUuid? then [n.encrypter.plaintext] else []
  }

  /** Conservation: at every moment of every faultless history, the ids collected, in the main thread's hand,
      in the response queue, in the stream task's hand, in the pair queue, in the encrypt task's hands, in
      the request queue and not yet pushed are together the session's ids, in order. */
  lemma IdsAreConserved(steps: seq<Step>)
    requires Faultless(steps)
    ensures
      var n := Exec(INITIAL, steps).now;
      Plaintexts(n.collected + InReceived(n) + n.responses + InRespond(n) + (n.pairs + InEnqueue(n)))
      + InMakeUuid(n) + n.requests + NotPushed(n) == n.ids
  {
    var s := Reached(steps);
    FrontConserves(s.now, s.made[s.start..]);
  }

  lemma FrontConserves(n: Shared, made: seq<Pair>)
    requires Front(n, made)
    ensures Plaintexts(made) + InMakeUuid(n) + n.requests + NotPushed(n) == n.ids
  {
    var k, m, p := |made|, Taken(n, |made|), Pushed(n);
    assert Plaintexts(made) == n.ids[..k];
    if n.encrypter.MakeUuid? {
      OneSlice(n.ids, k);
    }
    assert InMakeUuid(n) == n.ids[k..m];
    SlicesJoin(n.ids, k, m, p);
  }

  lemma OneSlice<T>(items: seq<T>, k: nat)
    requires k < |items|
    ensures items[k..k + 1] == [items[k]]
  {
  }

  lemma SlicesJoin<T>(items: seq<T>, k: nat, m: nat, p: nat)
    requires k <= m <= p <= |items|
    ensures items[..k] + items[k..m] + items[m..p] + items[p..] == items
  {
  }

  /** Capacity: in every faultless history no push of a request, insertion of a pair or push of a
      response ever finds its queue full or its context closed. */
  lemma NothingOverflows(steps: seq<Step>)
    requires Faultless(steps)
    ensures
      var n := Exec(INITIAL, steps).now;
      && (n.pusher.Push? && n.pusher.index < |n.ids| ==> PushFits(n))
      && (n.encrypter.Enqueue? ==> |n.pairs| < PAIR_QUEUE_CAPACITY)
      && (n.streamer.Respond? ==> |n.responses| < |n.ids|)
  {
    var s := Reached(steps);
    var n, made := s.now, s.made[s.start..];
    if n.pusher.Push? && n.pusher.index < |n.ids| {
      PushAlwaysFits(n, made);
    }
    if n.encrypter.Enqueue? {
      EnqueueAlwaysFits(n, made);
    }
    if n.streamer.Respond? {
      RespondAlwaysFits(n, made);
    }
  }

  /** Sessions are isolated: whenever the generator is free again, no task is running, every queue is
      empty, and the next `Encrypt` is accepted. */
  lemma SessionsAreIsolated(steps: seq<Step>)
    requires Faultless(steps) && Exec(INITIAL, steps).now.main == MainIdle
    ensures
      var n := Exec(INITIAL, steps).now;
      && Accepts(n)
      && n.encrypter == EncryptIdle && n.streamer == StreamIdle && n.pusher == PushIdle
      && n.pairs == [] && n.requests == [] && n.responses == []
  {
    var s := Reached(steps);
    SessionIsOver(s.now, s.made[s.start..]);
  }

  /** The pairs made since the session began. */
  function SessionPairs(s: State): seq<Pair> {
    if s.start <= |s.made| then s.made[s.start..] else []
  }

  /** A session of a faultless history that has begun can only end with its output: the step that frees
      the main thread appends the session's own ids, in order, with their UUIDs. */
  lemma EndingYieldsOutput(steps: seq<Step>)
    requires Faultless(steps)
    requires
      var s := Exec(INITIAL, steps);
      s.now.main != MainIdle && Apply(s, StepMain(true)).now.main == MainIdle
    ensures
      var s := Exec(INITIAL, steps);
      var output := Output(s.now.ids, SessionPairs(s));
      Apply(s, StepMain(true)).outputs == s.outputs + [output] && IsFaithful(output)
  {
    var s := Reached(steps);
    var n := s.now;
    assert n.main == AwaitEncryption by {
      match n.main
      case GetLeftovers => if n.responses != [] {} else {}
      case _ =>
    }
    SessionIsOver(n, s.made[s.start..]);
  }
}

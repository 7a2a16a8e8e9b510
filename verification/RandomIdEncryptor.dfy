/** The id encryptor as the object it is. Its tasks, run without interruption, are runs of the pipeline's
    machine, so whatever holds of every run of the machine holds of them. */
module Encryptor {
  import opened Results
  import opened Lines
  import opened Mapping
  import opened Pipeline

  /** The context of an encryption: the requests, and what is reported when it finishes. */
  class EncryptContext {
    const capacity: nat
    var requests: seq<string>
    var marked: bool
    var result: ExecutionResult
    var finished: bool
    var reported: ExecutionResult

    constructor (capacity: nat)
      ensures this.capacity == capacity && requests == [] && !marked && !finished
      ensures result == reported == DEFAULT_RESULT
    {
      this.capacity := capacity;
      requests, marked, finished := [], false, false;
      result, reported := DEFAULT_RESULT, DEFAULT_RESULT;
    }

    method TryPushRequest(id: string) returns (pushed: ExecutionResult)
      modifies this`requests
      ensures if !marked && |old(requests)| < capacity
              then pushed == Success && requests == old(requests) + [id]
              else pushed == Failure(QueueFull) && requests == old(requests)
    {
      if marked || |requests| >= capacity {
        return Failure(QueueFull);
      }
      requests := requests + [id];
      return Success;
    }

    method TryGetNextRequest() returns (request: Option<string>)
      modifies this`requests
      ensures if old(requests) == [] then request == None && requests == []
              else request == Some(old(requests)[0]) && requests == old(requests)[1..]
    {
      if requests == [] {
        return None;
      }
      request := Some(requests[0]);
      requests := requests[1..];
    }

    method MarkDone()
      modifies this`marked
      ensures marked
    {
      marked := true;
    }

    /** Runs the callback, which stores the result. */
    method Finish()
      modifies this`finished, this`reported
      ensures finished && reported == result
    {
      finished, reported := true, result;
    }
  }

  /** The context of a stream of pairs; `taken` is the consumer's willingness to take a response. */
  class StreamContext {
    const capacity: nat
    var responses: seq<Pair>
    var marked: bool
    var result: ExecutionResult
    var finished: bool
    var reported: ExecutionResult

    constructor (capacity: nat)
      ensures this.capacity == capacity && responses == [] && !marked && !finished
      ensures result == reported == DEFAULT_RESULT
    {
      this.capacity := capacity;
      responses, marked, finished := [], false, false;
      result, reported := DEFAULT_RESULT, DEFAULT_RESULT;
    }

    method TryPushResponse(pair: Pair, taken: bool) returns (pushed: ExecutionResult)
      modifies this`responses
      ensures if taken && |old(responses)| < capacity
              then pushed == Success && responses == old(responses) + [pair]
              else pushed == DEFAULT_RESULT && responses == old(responses)
    {
      if !taken || |responses| >= capacity {
        return DEFAULT_RESULT;
      }
      responses := responses + [pair];
      return Success;
    }

    method TryGetNextResponse() returns (response: Option<Pair>)
      modifies this`responses
      ensures response == FirstPair(old(responses)) && responses == RestPairs(old(responses))
    {
      if responses == [] {
        return None;
      }
      response := Some(responses[0]);
      responses := responses[1..];
    }

    method MarkDone()
      modifies this`marked
      ensures marked
    {
      marked := true;
    }

    method Finish()
      modifies this`finished, this`reported
      ensures finished && reported == result
    {
      finished, reported := true, result;
    }
  }

  /** The UUIDs that the supply still offers from position `drawn` on and that are not used. */
  function Offered(supply: seq<Uuid>, drawn: nat, used: set<Uuid>): set<Uuid> {
    set i | drawn <= i < |supply| && supply[i] !in used :: supply[i]
  }

  lemma OfferedNext(supply: seq<Uuid>, drawn: nat, used: set<Uuid>)
    requires drawn < |supply| && supply[drawn] in used
    ensures Offered(supply, drawn + 1, used) == Offered(supply, drawn, used)
  {
    forall uuid | uuid in Offered(supply, drawn, used) ensures uuid in Offered(supply, drawn + 1, used) {
      var i :| drawn <= i < |supply| && supply[i] !in used && supply[i] == uuid;
      assert i != drawn;
    }
  }

  lemma OfferedTaken(supply: seq<Uuid>, drawn: nat, used: set<Uuid>)
    requires drawn < |supply| && supply[drawn] !in used
    ensures |Offered(supply, drawn, used)| == |Offered(supply, drawn + 1, used + {supply[drawn]})| + 1
  {
    var uuid := supply[drawn];
    assert Offered(supply, drawn + 1, used + {uuid}) == Offered(supply, drawn, used) - {uuid} by {
      forall other | other in Offered(supply, drawn, used) - {uuid}
        ensures other in Offered(supply, drawn + 1, used + {uuid})
      {
        var i :| drawn <= i < |supply| && supply[i] !in used && supply[i] == other;
        assert i != drawn && supply[i] !in used + {uuid};
      }
    }
    assert uuid in Offered(supply, drawn, used);
  }

  /** The encrypt task after it asked for a request. */
  function AfterGet(request: Option<string>, again: bool): Encrypter {
    match request
    case Some(plaintext) => MakeUuid(plaintext, again)
    case None => if again then ReportEncryption else CheckMarked
  }

  function FirstOf(requests: seq<string>): Option<string> {
    if requests == [] then None else Some(requests[0])
  }

  function RestOf(requests: seq<string>): seq<string> {
    if requests == [] then [] else requests[1..]
  }

  /** The shared state after a pair went to the queue, or found it full. */
  function Enqueued(n: Shared, pair: Pair): Shared {
    if |n.pairs| < PAIR_QUEUE_CAPACITY then n.(pairs := n.pairs + [pair])
    else n.(marked := true, encryptionDone := true, encryptionResult := Failure(QueueFull), doneEncrypting := true)
  }

  /** The shared state after the task asked for the next request. */
  function Got(n: Shared, again: bool): Shared {
    n.(encrypter := AfterGet(FirstOf(n.requests), again), requests := RestOf(n.requests))
  }

  lemma EnqueueStep(s: State, uuid: Uuid, pair: Pair, again: bool)
    requires s.now.encrypter == Enqueue(pair, again)
    ensures Apply(s, StepEncrypter(uuid, true)) == s.(now := Enqueued(s.now, pair).(encrypter := GetRequest(again)))
  {
  }

  lemma GetStep(s: State, uuid: Uuid, again: bool)
    requires s.now.encrypter == GetRequest(again)
    ensures Apply(s, StepEncrypter(uuid, true)) == s.(now := Got(s.now, again))
  {
  }

  /** The state after the task made a UUID. */
  function Issue(s: State, uuid: Uuid, plaintext: string, again: bool): State {
    var pair := PlaintextAndEncrypted(plaintext, uuid);
    State(s.now.(encrypter := Enqueue(pair, again)), s.used + {uuid}, s.made + [pair], s.start, s.outputs)
  }

  lemma IssueStep(s: State, uuid: Uuid, plaintext: string, again: bool)
    requires s.now.encrypter == MakeUuid(plaintext, again) && uuid !in s.used
    ensures Apply(s, StepEncrypter(uuid, true)) == Issue(s, uuid, plaintext, again)
  {
  }

  /** Three steps of the encrypt task make a UUID, insert the pair and ask for the next request. */
  lemma PairOne(s: State, uuid: Uuid, plaintext: string, again: bool)
    requires s.now.encrypter == MakeUuid(plaintext, again) && uuid !in s.used
    ensures
      var pair, step := PlaintextAndEncrypted(plaintext, uuid), StepEncrypter(uuid, true);
      Exec(s, [step, step, step]) ==
        State(Got(Enqueued(s.now, pair), again), s.used + {uuid}, s.made + [pair], s.start, s.outputs)
  {
    var pair, step := PlaintextAndEncrypted(plaintext, uuid), StepEncrypter(uuid, true);
    var s1 := Issue(s, uuid, plaintext, again);
    var s2 := s1.(now := Enqueued(s1.now, pair).(encrypter := GetRequest(again)));
    IssueStep(s, uuid, plaintext, again);
    EnqueueStep(s1, uuid, pair, again);
    GetStep(s2, uuid, again);
    ThreeSteps(s, step, step, step);
  }

  lemma OneStep(s: State, a: Step)
    ensures Exec(s, [a]) == Apply(s, a)
  {
    assert Exec(Apply(s, a), []) == Apply(s, a);
  }

  lemma TwoSteps(s: State, a: Step, b: Step)
    ensures Exec(s, [a, b]) == Apply(Apply(s, a), b)
  {
    OneStep(Apply(s, a), b);
    assert [a, b][1..] == [b];
  }

  lemma ThreeSteps(s: State, a: Step, b: Step, c: Step)
    ensures Exec(s, [a, b, c]) == Apply(Apply(Apply(s, a), b), c)
  {
    TwoSteps(Apply(s, a), b, c);
    assert [a, b, c][1..] == [b, c];
  }

  /** `after` continues `before` with one pair for each of the plaintexts, in order. */
  ghost predicate Paired(before: seq<Pair>, after: seq<Pair>, plaintexts: seq<string>) {
    before <= after && Plaintexts(after[|before|..]) == plaintexts
  }

  /** What is still to be paired: the request in hand and those in the context. */
  function Unpaired(plaintext: Option<string>, requests: seq<string>): seq<string> {
    (if plaintext == None then [] else [plaintext.value]) + requests
  }

  /** There is room in the pair queue for every request. */
  ghost predicate Fits(queue: seq<Pair>, requests: seq<string>) {
    requests == [] || |queue| + |requests| <= PAIR_QUEUE_CAPACITY
  }

  /** A drain of the requests `all`: some are paired, the others unpaired; what is paired was queued. */
  ghost predicate Draining(all: seq<string>, before: seq<Pair>, queue: seq<Pair>,
                           made: seq<Pair>, queued: seq<Pair>, plaintext: Option<string>, requests: seq<string>) {
    && before <= made && all == Plaintexts(made[|before|..]) + Unpaired(plaintext, requests)
    && (plaintext == None ==> requests == [])
    && (Fits(queue, all) ==> queued == queue + made[|before|..])
  }

  lemma DrainStarts(all: seq<string>, before: seq<Pair>, queue: seq<Pair>)
    ensures Draining(all, before, queue, before, queue, FirstOf(all), RestOf(all))
  {
  }

  lemma DrainGoesOn(all: seq<string>, before: seq<Pair>, queue: seq<Pair>,
                    made: seq<Pair>, queued: seq<Pair>, plaintext: string, requests: seq<string>, pair: Pair)
    requires Draining(all, before, queue, made, queued, Some(plaintext), requests) && pair.plaintext == plaintext
    ensures Draining(all, before, queue, made + [pair],
                     queued + if |queued| < PAIR_QUEUE_CAPACITY then [pair] else [],
                     FirstOf(requests), RestOf(requests))
  {
    var added := made[|before|..];
    assert (made + [pair])[|before|..] == added + [pair];
    assert Plaintexts(added + [pair]) == Plaintexts(added) + [plaintext];
    assert Unpaired(FirstOf(requests), RestOf(requests)) == requests;
    Regroup(Plaintexts(added), [plaintext], requests);
    Regroup(queue, added, [pair]);
  }

  lemma DrainEnds(all: seq<string>, before: seq<Pair>, queue: seq<Pair>, made: seq<Pair>, queued: seq<Pair>)
    requires Draining(all, before, queue, made, queued, None, [])
    ensures Paired(before, made, all)
    ensures Fits(queue, all) ==> queued == queue + made[|before|..]
  {
  }

  lemma PairedNothing(before: seq<Pair>, after: seq<Pair>)
    requires Paired(before, after, [])
    ensures after == before
  {
    assert |Plaintexts(after[|before|..])| == 0;
  }

  lemma ExecThen(s: State, steps: seq<Step>, t: State, step: Step)
    requires t == Exec(s, steps)
    ensures Exec(s, steps + [step]) == Apply(t, step)
  {
    ExecAppend(s, steps, [step]);
    OneStep(t, step);
  }

  /** The stream task after it asked for a pair. */
  function AfterDequeue(pair: Option<Pair>, again: bool): Streamer {
    match pair
    case Some(p) => Respond(p, again)
    case None => if again then RaiseStreamed else CheckEncrypted
  }

  function InHand(pair: Option<Pair>): seq<Pair> {
    if pair == None then [] else [pair.value]
  }

  lemma HandFirst(responses: seq<Pair>, queue: seq<Pair>)
    ensures responses + queue == responses + InHand(FirstPair(queue)) + RestPairs(queue)
  {
  }

  function FirstPair(queue: seq<Pair>): Option<Pair> {
    if queue == [] then None else Some(queue[0])
  }

  function RestPairs(queue: seq<Pair>): seq<Pair> {
    if queue == [] then [] else queue[1..]
  }

  ghost predicate EncrypterOnly(steps: seq<Step>) {
    forall i :: 0 <= i < |steps| ==> steps[i].StepEncrypter?
  }

  ghost predicate StreamerOnly(steps: seq<Step>) {
    forall i :: 0 <= i < |steps| ==> steps[i].StepStreamer?
  }

  class RandomIdEncryptor {
    var usedIds: set<Uuid>
    var encryptedIdsQueue: seq<Pair>
    var doneEncrypting: bool
    var doneStreaming: bool
    ghost var made: seq<Pair>  // every pair ever made

    constructor ()
      ensures usedIds == {} && encryptedIdsQueue == [] && made == [] && doneEncrypting && doneStreaming
    {
      usedIds, encryptedIdsQueue, doneEncrypting, doneStreaming := {}, [], true, true;
      made := [];
    }

    /** The machine's state with the encrypt task at `at`; what this object does not hold is `rest`'s. */
    ghost function WithEncrypter(rest: State, context: EncryptContext, at: Encrypter): State
      reads this, context
    {
      State(rest.now.(encrypter := at, pairs := encryptedIdsQueue, doneEncrypting := doneEncrypting,
                      requests := context.requests, marked := context.marked,
                      encryptionDone := context.finished, encryptionResult := context.reported),
            usedIds, made, rest.start, rest.outputs)
    }

    /** The machine's state with the stream task at `at`. */
    ghost function WithStreamer(rest: State, context: StreamContext, at: Streamer): State
      reads this, context
    {
      State(rest.now.(streamer := at, pairs := encryptedIdsQueue, doneEncrypting := doneEncrypting,
                      doneStreaming := doneStreaming, responses := context.responses,
                      streamingDone := context.finished, streamingResult := context.reported),
            usedIds, made, rest.start, rest.outputs)
    }

    /** Draws from the supply until it offers a UUID that was never issued. */
    method GetUniqueUuid(supply: seq<Uuid>, drawn: nat) returns (uuid: Uuid, drawn': nat)
      requires Offered(supply, drawn, usedIds) != {}
      modifies this`usedIds
      ensures uuid !in old(usedIds) && uuid in supply && usedIds == old(usedIds) + {uuid}
      ensures |Offered(supply, drawn', usedIds)| == |Offered(supply, drawn, old(usedIds))| - 1
    {
      drawn' := drawn;
      while supply[drawn'] in usedIds
        invariant usedIds == old(usedIds)
        invariant Offered(supply, drawn', usedIds) == Offered(supply, drawn, old(usedIds))
        invariant drawn' < |supply|
        decreases |supply| - drawn'
      {
        OfferedNext(supply, drawn', usedIds);
        drawn' := drawn' + 1;
      }
      OfferedTaken(supply, drawn', usedIds);
      uuid := supply[drawn'];
      usedIds := usedIds + {uuid};
      drawn' := drawn' + 1;
    }

    method TryEnqueue(pair: Pair) returns (result: ExecutionResult)
      modifies this`encryptedIdsQueue
      ensures if |old(encryptedIdsQueue)| < PAIR_QUEUE_CAPACITY
              then result == Success && encryptedIdsQueue == old(encryptedIdsQueue) + [pair]
              else result == Failure(QueueFull) && encryptedIdsQueue == old(encryptedIdsQueue)
    {
      if |encryptedIdsQueue| >= PAIR_QUEUE_CAPACITY {
        return Failure(QueueFull);
      }
      encryptedIdsQueue := encryptedIdsQueue + [pair];
      return Success;
    }

    method TryDequeue() returns (pair: Option<Pair>)
      modifies this`encryptedIdsQueue
      ensures if old(encryptedIdsQueue) == [] then pair == None && encryptedIdsQueue == []
              else pair == Some(old(encryptedIdsQueue)[0]) && encryptedIdsQueue == old(encryptedIdsQueue)[1..]
    {
      if encryptedIdsQueue == [] {
        return None;
      }
      pair := Some(encryptedIdsQueue[0]);
      encryptedIdsQueue := encryptedIdsQueue[1..];
    }

    /** Queues a pair; when there is no room, reports that, raises the flag and drops the pair. */
    method QueuePair(context: EncryptContext, pair: Pair)
      modifies this`encryptedIdsQueue, this`doneEncrypting, context
      ensures context.requests == old(context.requests)
      ensures if |old(encryptedIdsQueue)| < PAIR_QUEUE_CAPACITY then
          && encryptedIdsQueue == old(encryptedIdsQueue) + [pair] && doneEncrypting == old(doneEncrypting)
          && context.marked == old(context.marked)
          && context.finished == old(context.finished) && context.reported == old(context.reported)
        else
          && encryptedIdsQueue == old(encryptedIdsQueue) && doneEncrypting
          && context.marked && context.finished && context.reported == Failure(QueueFull)
    {
      var enqueued := TryEnqueue(pair);
      if enqueued != Success {
        context.result := enqueued;
        context.MarkDone();
        context.Finish();
        doneEncrypting := true;
      }
    }

    /** Gives one plaintext its UUID and queues the pair; a full queue is reported and the pair dropped. */
    method EncryptOne(ghost rest: State, context: EncryptContext, plaintext: string, ghost again: bool,
                      supply: seq<Uuid>, drawn: nat)
      returns (next: Option<string>, drawn': nat, ghost added: Pair, ghost steps: seq<Step>)
      requires Offered(supply, drawn, usedIds) != {}
      modifies this, context
      ensures EncrypterOnly(steps)
      ensures WithEncrypter(rest, context, AfterGet(next, again))
        == Exec(old(WithEncrypter(rest, context, MakeUuid(plaintext, again))), steps)
      ensures next == FirstOf(old(context.requests)) && context.requests == RestOf(old(context.requests))
      ensures made == old(made) + [added] && added.plaintext == plaintext && added.encryptedId !in old(usedIds)
      ensures encryptedIdsQueue == old(encryptedIdsQueue) +
        if |old(encryptedIdsQueue)| < PAIR_QUEUE_CAPACITY then [added] else []
      ensures doneStreaming == old(doneStreaming)
      ensures old(context.marked) ==> context.marked
      ensures |old(encryptedIdsQueue)| < PAIR_QUEUE_CAPACITY ==>
        doneEncrypting == old(doneEncrypting) && context.marked == old(context.marked)
      ensures |Offered(supply, drawn', usedIds)| == |Offered(supply, drawn, old(usedIds))| - 1
    {
      ghost var s := WithEncrypter(rest, context, MakeUuid(plaintext, again));
      var encryptedId: Uuid;
      encryptedId, drawn' := GetUniqueUuid(supply, drawn);
      var pair := PlaintextAndEncrypted(plaintext, encryptedId);
      added := pair;
      made := made + [added];
      QueuePair(context, pair);
      next := context.TryGetNextRequest();
      PairOne(s, encryptedId, plaintext, again);
      ghost var step := StepEncrypter(encryptedId, true);
      steps := [step, step, step];
    }

    method GetFirst(ghost rest: State, context: EncryptContext, ghost again: bool)
      returns (plaintext: Option<string>, ghost steps: seq<Step>)
      modifies context`requests
      ensures EncrypterOnly(steps)
      ensures WithEncrypter(rest, context, AfterGet(plaintext, again))
        == Exec(old(WithEncrypter(rest, context, GetRequest(again))), steps)
      ensures plaintext == FirstOf(old(context.requests)) && context.requests == RestOf(old(context.requests))
    {
      ghost var start := WithEncrypter(rest, context, GetRequest(again));
      plaintext := context.TryGetNextRequest();
      steps := [StepEncrypter(NIL_UUID, true)];
      OneStep(start, steps[0]);
    }

    /** The loop that gives every request its UUID. Every request gets one, in order; with room for them
        all, the queue receives exactly the new pairs and nothing is reported. */
    method DrainRequests(ghost rest: State, context: EncryptContext, ghost again: bool, supply: seq<Uuid>, drawn: nat)
      returns (drawn': nat, ghost steps: seq<Step>)
      requires |Offered(supply, drawn, usedIds)| >= |context.requests|
      modifies this, context
      ensures EncrypterOnly(steps)
      ensures WithEncrypter(rest, context, AfterGet(None, again))
        == Exec(old(WithEncrypter(rest, context, GetRequest(again))), steps)
      ensures context.requests == [] && doneStreaming == old(doneStreaming)
      ensures Paired(old(made), made, old(context.requests))
      ensures Fits(old(encryptedIdsQueue), old(context.requests)) ==>
        && encryptedIdsQueue == old(encryptedIdsQueue) + made[|old(made)|..]
        && doneEncrypting == old(doneEncrypting) && context.marked == old(context.marked)
      ensures old(context.marked) ==> context.marked
    {
      ghost var start := WithEncrypter(rest, context, GetRequest(again));
      ghost var all, before, queue := context.requests, made, encryptedIdsQueue;
      drawn' := drawn;
      var plaintext;
      plaintext, steps := GetFirst(rest, context, again);
      DrainStarts(all, before, queue);
      while plaintext.Some?
        invariant EncrypterOnly(steps) && doneStreaming == old(doneStreaming)
        invariant WithEncrypter(rest, context, AfterGet(plaintext, again)) == Exec(start, steps)
        invariant |Offered(supply, drawn', usedIds)| >= |Unpaired(plaintext, context.requests)|
        invariant Draining(all, before, queue, made, encryptedIdsQueue, plaintext, context.requests)
        invariant Fits(queue, all) ==>
          doneEncrypting == old(doneEncrypting) && context.marked == old(context.marked)
        invariant old(context.marked) ==> context.marked
        decreases |Unpaired(plaintext, context.requests)|
      {
        ghost var earlier, queued, left := made, encryptedIdsQueue, context.requests;
        ghost var added, more;
        plaintext, drawn', added, more := EncryptOne(rest, context, plaintext.value, again, supply, drawn');
        ExecAppend(start, steps, more);
        steps := steps + more;
        DrainGoesOn(all, before, queue, earlier, queued, added.plaintext, left, added);
      }
      DrainEnds(all, before, queue, made, encryptedIdsQueue);
    }

    /** The encrypt task. It pairs every request there is, in order; then it reports and raises its flag if
        the requests were marked done, and schedules itself again otherwise. */
    method EncryptIdsInternal(ghost rest: State, context: EncryptContext, supply: seq<Uuid>, scheduled: bool)
      returns (ghost steps: seq<Step>)
      requires |Offered(supply, 0, usedIds)| >= |context.requests|
      modifies this, context
      ensures EncrypterOnly(steps)
      ensures WithEncrypter(rest, context, if context.marked then EncryptIdle else GetRequest(false))
        == Exec(old(WithEncrypter(rest, context, GetRequest(false))), steps)
      ensures context.requests == [] && doneStreaming == old(doneStreaming)
      ensures Paired(old(made), made, old(context.requests))
      ensures Fits(old(encryptedIdsQueue), old(context.requests)) ==>
        && encryptedIdsQueue == old(encryptedIdsQueue) + made[|old(made)|..]
        && (old(context.marked) ==> context.finished && context.reported == Success && doneEncrypting)
        && (!old(context.marked) && scheduled ==> !context.marked && doneEncrypting == old(doneEncrypting))
    {
      ghost var start := WithEncrypter(rest, context, GetRequest(false));
      var drawn: nat;
      drawn, steps := EncryptAvailable(rest, context, supply, scheduled);
      ghost var more: seq<Step>;
      if context.marked {
        more := FinishEncryption(rest, context, supply, drawn);
      } else {
        more := ScheduleAgain(rest, context, scheduled);
      }
      ExecAppend(start, steps, more);
      steps := steps + more;
    }

    /** The first part of the task: pairs what is there, and looks whether the requests are marked done. */
    method EncryptAvailable(ghost rest: State, context: EncryptContext, supply: seq<Uuid>, ghost scheduled: bool)
      returns (drawn: nat, ghost steps: seq<Step>)
      requires |Offered(supply, 0, usedIds)| >= |context.requests|
      modifies this, context
      ensures EncrypterOnly(steps)
      ensures WithEncrypter(rest, context, if context.marked then GetRequest(true) else RescheduleEncrypt)
        == Exec(old(WithEncrypter(rest, context, GetRequest(false))), steps)
      ensures context.requests == [] && doneStreaming == old(doneStreaming)
      ensures Paired(old(made), made, old(context.requests))
      ensures Fits(old(encryptedIdsQueue), old(context.requests)) ==>
        && encryptedIdsQueue == old(encryptedIdsQueue) + made[|old(made)|..]
        && context.marked == old(context.marked) && doneEncrypting == old(doneEncrypting)
    {
      ghost var start := WithEncrypter(rest, context, GetRequest(false));
      drawn, steps := DrainRequests(rest, context, false, supply, 0);
      ExecThen(start, steps, WithEncrypter(rest, context, CheckMarked), StepEncrypter(NIL_UUID, scheduled));
      steps := steps + [StepEncrypter(NIL_UUID, scheduled)];
    }

    /** The rest of the task once the mark was seen: looks for requests again, then reports and raises the flag. */
    method FinishEncryption(ghost rest: State, context: EncryptContext, supply: seq<Uuid>, drawn: nat)
      returns (ghost steps: seq<Step>)
      requires context.marked && context.requests == []
      modifies this, context
      ensures EncrypterOnly(steps)
      ensures WithEncrypter(rest, context, EncryptIdle)
        == Exec(old(WithEncrypter(rest, context, GetRequest(true))), steps)
      ensures context.marked && context.finished && context.reported == Success && doneEncrypting
      ensures context.requests == [] && doneStreaming == old(doneStreaming)
      ensures made == old(made) && encryptedIdsQueue == old(encryptedIdsQueue)
    {
      ghost var start := WithEncrypter(rest, context, GetRequest(true));
      var drawn': nat;
      drawn', steps := DrainRequests(rest, context, true, supply, drawn);
      PairedNothing(old(made), made);
      ghost var report := WithEncrypter(rest, context, ReportEncryption);
      context.result := Success;
      context.Finish();
      ghost var raise := WithEncrypter(rest, context, RaiseEncrypted);
      doneEncrypting := true;
      ghost var step := StepEncrypter(NIL_UUID, true);
      TwoSteps(report, step, step);
      assert Apply(report, step) == raise;
      ExecAppend(start, steps, [step, step]);
      steps := steps + [step, step];
    }

    /** The end of the task when the requests are not marked done. */
    method ScheduleAgain(ghost rest: State, context: EncryptContext, scheduled: bool) returns (ghost steps: seq<Step>)
      requires !context.marked
      modifies this, context
      ensures EncrypterOnly(steps)
      ensures WithEncrypter(rest, context, if context.marked then EncryptIdle else GetRequest(false))
        == Exec(old(WithEncrypter(rest, context, RescheduleEncrypt)), steps)
      ensures context.marked == !scheduled && context.requests == old(context.requests)
      ensures made == old(made) && encryptedIdsQueue == old(encryptedIdsQueue)
      ensures doneStreaming == old(doneStreaming) && doneEncrypting == (old(doneEncrypting) || !scheduled)
    {
      ghost var start := WithEncrypter(rest, context, RescheduleEncrypt);
      if !scheduled {
        context.result := DEFAULT_RESULT;
        context.MarkDone();
        context.Finish();
        doneEncrypting := true;
      }
      steps := [StepEncrypter(NIL_UUID, scheduled)];
      OneStep(start, steps[0]);
    }

    /** Starts a session unless one is under way; the flags stay down when scheduling its task fails. */
    method Encrypt(scheduled: bool) returns (result: ExecutionResult)
      modifies this`doneEncrypting, this`doneStreaming
      ensures result == Success <==> old(doneEncrypting) && old(doneStreaming) && scheduled
      ensures !old(doneEncrypting) || !old(doneStreaming) ==> result == Failure(NotDone)
      ensures if old(doneEncrypting) && old(doneStreaming) then !doneEncrypting && !doneStreaming
              else doneEncrypting == old(doneEncrypting) && doneStreaming == old(doneStreaming)
    {
      if !doneEncrypting || !doneStreaming {
        return Failure(NotDone);
      }
      doneEncrypting, doneStreaming := false, false;
      return if scheduled then Success else DEFAULT_RESULT;
    }

    /** Hands one pair to the stream and takes the next; gives up when the stream does not take it. */
    method HandOne(ghost rest: State, context: StreamContext, pair: Pair, ghost again: bool, taken: nat -> bool)
      returns (ok: bool, next: Option<Pair>, ghost hand: seq<Pair>, ghost steps: seq<Step>)
      requires context.capacity == |rest.now.ids|
      modifies this`encryptedIdsQueue, this`doneStreaming, context
      ensures StreamerOnly(steps)
      ensures WithStreamer(rest, context, if ok then AfterDequeue(next, again) else StreamIdle)
        == Exec(old(WithStreamer(rest, context, Respond(pair, again))), steps)
      ensures context.responses + hand + encryptedIdsQueue == old(context.responses) + [pair] + old(encryptedIdsQueue)
      ensures if ok then
          && hand == InHand(next) && (next == None ==> encryptedIdsQueue == [])
          && |hand| + |encryptedIdsQueue| == |old(encryptedIdsQueue)|
          && doneStreaming == old(doneStreaming) && context.finished == old(context.finished)
        else
          hand == [pair] && context.finished && context.reported != Success && doneStreaming
    {
      ghost var s := WithStreamer(rest, context, Respond(pair, again));
      ghost var step := StepStreamer(taken(|context.responses|), true);
      next := None;
      var pushed := context.TryPushResponse(pair, taken(|context.responses|));
      ok := pushed == Success;
      if ok {
        next := TryDequeue();
        TwoSteps(s, step, step);
        steps := [step, step];
        hand := InHand(next);
        HandFirst(context.responses, old(encryptedIdsQueue));
      } else {
        hand := [pair];
        doneStreaming := true;
        context.result := pushed;
        context.MarkDone();
        context.Finish();
        OneStep(s, step);
        steps := [step];
      }
    }

    method TakeFirst(ghost rest: State, context: StreamContext, ghost again: bool)
      returns (pair: Option<Pair>, ghost steps: seq<Step>)
      modifies this`encryptedIdsQueue
      ensures StreamerOnly(steps)
      ensures WithStreamer(rest, context, AfterDequeue(pair, again))
        == Exec(old(WithStreamer(rest, context, GetPair(again))), steps)
      ensures pair == FirstPair(old(encryptedIdsQueue)) && encryptedIdsQueue == RestPairs(old(encryptedIdsQueue))
    {
      ghost var start := WithStreamer(rest, context, GetPair(again));
      pair := TryDequeue();
      steps := [StepStreamer(true, true)];
      OneStep(start, steps[0]);
    }

    /** The loop that hands pairs to the stream. No pair is lost or reordered: those handed over, the one that
        was not taken (if any) and those still queued are the responses and the queue from before. */
    method DrainPairs(ghost rest: State, context: StreamContext, ghost again: bool, taken: nat -> bool)
      returns (ok: bool, ghost refused: seq<Pair>, ghost steps: seq<Step>)
      requires context.capacity == |rest.now.ids|
      modifies this`encryptedIdsQueue, this`doneStreaming, context
      ensures StreamerOnly(steps)
      ensures WithStreamer(rest, context, if ok then AfterDequeue(None, again) else StreamIdle)
        == Exec(old(WithStreamer(rest, context, GetPair(again))), steps)
      ensures old(context.responses) + old(encryptedIdsQueue) == context.responses + refused + encryptedIdsQueue
      ensures if ok then refused == [] && encryptedIdsQueue == []
              else |refused| == 1 && context.finished && context.reported != Success && doneStreaming
      ensures ok ==> doneStreaming == old(doneStreaming) && context.finished == old(context.finished)
    {
      ghost var start := WithStreamer(rest, context, GetPair(again));
      ghost var all, hand := context.responses + encryptedIdsQueue, InHand(FirstPair(encryptedIdsQueue));
      HandFirst(context.responses, encryptedIdsQueue);
      ok := true;
      var pair;
      pair, steps := TakeFirst(rest, context, again);
      while ok && pair.Some?
        invariant StreamerOnly(steps)
        invariant WithStreamer(rest, context, if ok then AfterDequeue(pair, again) else StreamIdle)
          == Exec(start, steps)
        invariant all == context.responses + hand + encryptedIdsQueue
        invariant ok ==> hand == InHand(pair) && (pair == None ==> encryptedIdsQueue == [])
        invariant ok ==> doneStreaming == old(doneStreaming) && context.finished == old(context.finished)
        invariant !ok ==> |hand| == 1 && context.finished && context.reported != Success && doneStreaming
        decreases ok, |hand| + |encryptedIdsQueue|
      {
        ghost var more;
        ok, pair, hand, more := HandOne(rest, context, pair.value, again, taken);
        ExecAppend(start, steps, more);
        steps := steps + more;
      }
      refused := hand;
    }

    /** The stream task: hands over the pairs there are; ends if encryption was done before a second look
        found nothing more, and schedules itself again otherwise. */
    method StreamIdsInternal(ghost rest: State, context: StreamContext, taken: nat -> bool, scheduled: bool)
      returns (ghost ended: bool, ghost refused: seq<Pair>, ghost steps: seq<Step>)
      requires context.capacity == |rest.now.ids|
      modifies this`encryptedIdsQueue, this`doneStreaming, context
      ensures StreamerOnly(steps)
      ensures WithStreamer(rest, context, if ended then StreamIdle else GetPair(false))
        == Exec(old(WithStreamer(rest, context, GetPair(false))), steps)
      ensures if ended then doneStreaming && context.finished
              else doneStreaming == old(doneStreaming) && context.finished == old(context.finished)
      ensures !ended ==> scheduled && !doneEncrypting
      ensures old(context.responses) + old(encryptedIdsQueue) == context.responses + refused + encryptedIdsQueue
      ensures ended && context.reported == Success ==> doneEncrypting && refused == [] && encryptedIdsQueue == []
    {
      ghost var start := WithStreamer(rest, context, GetPair(false));
      var ok: bool;
      ok, refused, steps := DrainPairs(rest, context, false, taken);
      if !ok {
        ended := true;
        return;
      }
      ghost var step, more := StepStreamer(true, scheduled), [];
      ExecThen(start, steps, WithStreamer(rest, context, CheckEncrypted), step);
      steps := steps + [step];
      ended := doneEncrypting || !scheduled;
      if doneEncrypting {
        refused, more := FinishStreaming(rest, context, taken);
      } else {
        more := ScheduleStreamAgain(rest, context, scheduled);
      }
      ExecAppend(start, steps, more);
      steps := steps + more;
    }

    /** The end of the stream task when encryption is not done. */
    method ScheduleStreamAgain(ghost rest: State, context: StreamContext, scheduled: bool)
      returns (ghost steps: seq<Step>)
      modifies this`doneStreaming, context
      ensures StreamerOnly(steps)
      ensures WithStreamer(rest, context, if scheduled then GetPair(false) else StreamIdle)
        == Exec(old(WithStreamer(rest, context, RescheduleStream)), steps)
      ensures context.responses == old(context.responses)
      ensures if scheduled then doneStreaming == old(doneStreaming) && context.finished == old(context.finished)
              else doneStreaming && context.finished && context.reported != Success
    {
      ghost var s := WithStreamer(rest, context, RescheduleStream);
      if !scheduled {
        doneStreaming := true;
        context.result := DEFAULT_RESULT;
        context.MarkDone();
        context.Finish();
      }
      steps := [StepStreamer(true, scheduled)];
      OneStep(s, steps[0]);
    }

    /** The rest of the stream task once encryption was seen done. */
    method FinishStreaming(ghost rest: State, context: StreamContext, taken: nat -> bool)
      returns (ghost refused: seq<Pair>, ghost steps: seq<Step>)
      requires context.capacity == |rest.now.ids| && doneEncrypting
      modifies this`encryptedIdsQueue, this`doneStreaming, context
      ensures StreamerOnly(steps)
      ensures WithStreamer(rest, context, StreamIdle) == Exec(old(WithStreamer(rest, context, GetPair(true))), steps)
      ensures doneStreaming && context.finished
      ensures old(context.responses) + old(encryptedIdsQueue) == context.responses + refused + encryptedIdsQueue
      ensures context.reported == Success ==> refused == [] && encryptedIdsQueue == []
    {
      ghost var start := WithStreamer(rest, context, GetPair(true));
      var ok: bool;
      ok, refused, steps := DrainPairs(rest, context, true, taken);
      if !ok {
        return;
      }
      ghost var more := ReportStreamed(rest, context);
      ExecAppend(start, steps, more);
      steps := steps + more;
    }

    /** The end of the stream task when every pair was handed over. */
    method ReportStreamed(ghost rest: State, context: StreamContext) returns (ghost steps: seq<Step>)
      modifies this`doneStreaming, context
      ensures StreamerOnly(steps)
      ensures WithStreamer(rest, context, StreamIdle) == Exec(old(WithStreamer(rest, context, RaiseStreamed)), steps)
      ensures doneStreaming && context.finished && context.responses == old(context.responses)
    {
      ghost var s, step := WithStreamer(rest, context, RaiseStreamed), StepStreamer(true, true);
      doneStreaming := true;
      context.result := Success;
      context.MarkDone();
      context.Finish();
      TwoSteps(s, step, step);
      steps := [step, step];
    }

    method StreamEncryptedIds(scheduled: bool) returns (result: ExecutionResult)
      ensures result == Success <==> scheduled
    {
      return if scheduled then Success else DEFAULT_RESULT;
    }
  }
}

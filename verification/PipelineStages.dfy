/** A session in which the actors run one after the other. */
module Stages {
  import opened Results
  import opened Lines
  import opened Mapping
  import opened Pipeline
  import opened Progress
  import opened Encryptor

  /** Steps within one session, in which nothing outside the pipeline fails. */
  ghost predicate WithinSession(steps: seq<Step>) {
    forall i :: 0 <= i < |steps| ==> !steps[i].Begin? && IsFaultless(steps[i])
  }

  /** Appends a run to a run. */
  lemma FollowUp(s: State, before: seq<Step>, t: State, more: seq<Step>) returns (steps: seq<Step>)
    requires t == Exec(s, before)
    ensures steps == before + more && Exec(s, steps) == Exec(t, more)
    ensures WithinSession(before) && WithinSession(more) ==> WithinSession(steps)
  {
    steps := before + more;
    ExecAppend(s, before, more);
  }

  // The pushing thread.

  function AllPushed(n: Shared): Shared {
    n.(pusher := PushIdle, pushingResult := Success, requests := n.ids, marked := true)
  }

  lemma {:induction false} PushRun(s: State, i: nat) returns (steps: seq<Step>)
    requires s.now.pusher == Push(i) && i <= |s.now.ids| && s.now.requests == s.now.ids[..i] && !s.now.marked
    ensures WithinSession(steps) && Exec(s, steps) == s.(now := AllPushed(s.now))
    decreases |s.now.ids| - i
  {
    var n := s.now;
    OneStep(s, StepPusher);
    if i == |n.ids| {
      assert n.ids[..i] == n.ids;
      steps := [StepPusher];
    } else {
      assert n.ids[..i + 1] == n.ids[..i] + [n.ids[i]];
      var t := s.(now := n.(requests := n.ids[..i + 1], pusher := Push(i + 1)));
      assert Apply(s, StepPusher) == t;
      var more := PushRun(t, i + 1);
      steps := FollowUp(s, [StepPusher], t, more);
    }
  }

  // The encrypt task.

  /** Three steps of the encrypt task take a request, give it a UUID and insert the pair. */
  lemma PairNext(s: State, uuid: Uuid)
    requires s.now.encrypter == GetRequest(false) && s.now.requests != [] && uuid !in s.used
    ensures
      var pair, step := PlaintextAndEncrypted(s.now.requests[0], uuid), StepEncrypter(uuid, true);
      var n := Enqueued(s.now, pair).(encrypter := GetRequest(false), requests := s.now.requests[1..]);
      Exec(s, [step, step, step]) == State(n, s.used + {uuid}, s.made + [pair], s.start, s.outputs)
  {
    var n, step := s.now, StepEncrypter(uuid, true);
    var pair := PlaintextAndEncrypted(n.requests[0], uuid);
    var s1 := s.(now := n.(encrypter := MakeUuid(n.requests[0], false), requests := n.requests[1..]));
    GetStep(s, uuid, false);
    assert Got(n, false) == s1.now;
    IssueStep(s1, uuid, n.requests[0], false);
    EnqueueStep(Issue(s1, uuid, n.requests[0], false), uuid, pair, false);
    ThreeSteps(s, step, step, step);
  }

  function AllEncrypted(n: Shared, pairs: seq<Pair>): Shared {
    n.(encrypter := EncryptIdle, requests := [], pairs := pairs,
       encryptionDone := true, encryptionResult := Success, doneEncrypting := true)
  }

  /** With no request left and the mark up, the task looks once more. */
  lemma EncryptLooksAgain(s: State)
    requires s.now.encrypter == GetRequest(false) && s.now.requests == [] && s.now.marked
    ensures
      var step := StepEncrypter(NIL_UUID, true);
      Exec(s, [step, step]) == s.(now := s.now.(encrypter := GetRequest(true)))
  {
    var step := StepEncrypter(NIL_UUID, true);
    GetStep(s, NIL_UUID, false);
    assert Got(s.now, false) == s.now.(encrypter := CheckMarked);
    TwoSteps(s, step, step);
  }

  lemma EncryptReports(s: State)
    requires s.now.encrypter == GetRequest(true) && s.now.requests == []
    ensures
      var step := StepEncrypter(NIL_UUID, true);
      Exec(s, [step, step, step]) == s.(now := AllEncrypted(s.now, s.now.pairs))
  {
    var step := StepEncrypter(NIL_UUID, true);
    GetStep(s, NIL_UUID, true);
    assert Got(s.now, true) == s.now.(encrypter := ReportEncryption);
    ThreeSteps(s, step, step, step);
  }

  lemma EncryptEnds(s: State) returns (steps: seq<Step>)
    requires s.now.encrypter == GetRequest(false) && s.now.requests == [] && s.now.marked
    ensures WithinSession(steps) && Exec(s, steps) == s.(now := AllEncrypted(s.now, s.now.pairs))
  {
    var step := StepEncrypter(NIL_UUID, true);
    var t := s.(now := s.now.(encrypter := GetRequest(true)));
    EncryptLooksAgain(s);
    EncryptReports(t);
    steps := FollowUp(s, [step, step], t, [step, step, step]);
  }

  function Least(a: nat, b: nat): nat {
    if a <= b then a else b
  }

  /** The encrypt task alone pairs what is requested, as far as the queue has room, and reports success. */
  lemma {:induction false} EncryptRun(s: State, supply: seq<Uuid>) returns (steps: seq<Step>)
    requires s.now.encrypter == GetRequest(false) && s.now.marked && |s.now.pairs| <= PAIR_QUEUE_CAPACITY
    requires AllFresh(supply, s.used) && |supply| >= |s.now.requests|
    ensures
      var t, all := Exec(s, steps), |s.now.pairs| + |s.now.requests|;
      && WithinSession(steps) && t.outputs == s.outputs && t.now == AllEncrypted(s.now, t.now.pairs)
      && |t.now.pairs| == Least(all, PAIR_QUEUE_CAPACITY) && s.now.pairs <= t.now.pairs
      && AllFresh(supply[|s.now.requests|..], t.used)
    decreases |s.now.requests|
  {
    if s.now.requests == [] {
      assert supply[0..] == supply;
      steps := EncryptEnds(s);
    } else {
      var step := StepEncrypter(supply[0], true);
      var t := Exec(s, [step, step, step]);
      PairNext(s, supply[0]);
      FreshNext(supply, s.used);
      DropDrop(supply, 1, |t.now.requests|);
      var more := EncryptRun(t, supply[1..]);
      steps := FollowUp(s, [step, step, step], t, more);
    }
  }

  // The stream task.

  function AllStreamed(n: Shared): Shared {
    n.(streamer := StreamIdle, pairs := [], responses := n.responses + n.pairs,
       doneStreaming := true, streamingDone := true, streamingResult := Success)
  }

  lemma StreamNext(s: State)
    requires s.now.streamer == GetPair(false) && s.now.pairs != [] && |s.now.responses| < |s.now.ids|
    ensures
      var n, step := s.now, StepStreamer(true, true);
      Exec(s, [step, step]) == s.(now := n.(pairs := n.pairs[1..], responses := n.responses + [n.pairs[0]]))
  {
    var n, step := s.now, StepStreamer(true, true);
    assert Apply(s, step) == s.(now := n.(streamer := Respond(n.pairs[0], false), pairs := n.pairs[1..]));
    TwoSteps(s, step, step);
  }

  /** With no pair left and encryption done, the task looks once more. */
  lemma StreamLooksAgain(s: State)
    requires s.now.streamer == GetPair(false) && s.now.pairs == [] && s.now.doneEncrypting
    ensures var step := StepStreamer(true, true); Exec(s, [step, step]) == s.(now := s.now.(streamer := GetPair(true)))
  {
    TwoSteps(s, StepStreamer(true, true), StepStreamer(true, true));
  }

  lemma StreamReports(s: State)
    requires s.now.streamer == GetPair(true) && s.now.pairs == []
    ensures var step := StepStreamer(true, true); Exec(s, [step, step, step]) == s.(now := AllStreamed(s.now))
  {
    var n, step := s.now, StepStreamer(true, true);
    var s1 := s.(now := n.(streamer := RaiseStreamed));
    var s2 := s.(now := n.(streamer := ReportStreaming, doneStreaming := true));
    assert n.responses + n.pairs == n.responses;
    assert Apply(s, step) == s1 && Apply(s1, step) == s2;
    ThreeSteps(s, step, step, step);
  }

  lemma StreamEnds(s: State) returns (steps: seq<Step>)
    requires s.now.streamer == GetPair(false) && s.now.pairs == [] && s.now.doneEncrypting
    ensures WithinSession(steps) && Exec(s, steps) == s.(now := AllStreamed(s.now))
  {
    var step, t := StepStreamer(true, true), s.(now := s.now.(streamer := GetPair(true)));
    StreamLooksAgain(s);
    StreamReports(t);
    steps := FollowUp(s, [step, step], t, [step, step, step]);
  }

  // The main thread.

  function AllCollected(n: Shared): Shared {
    n.(main := AwaitEncryption, collected := n.collected + n.responses, responses := [])
  }

  lemma CollectNext(s: State)
    requires s.now.main == GetResponse && s.now.responses != []
    ensures
      var n, step := s.now, StepMain(true);
      Exec(s, [step, step])
        == s.(now := n.(collected := n.collected + [n.responses[0]], responses := n.responses[1..]))
  {
    var n, step := s.now, StepMain(true);
    assert Apply(s, step) == s.(now := n.(main := Received(Some(n.responses[0])), responses := n.responses[1..]));
    TwoSteps(s, step, step);
  }

  lemma CollectEnds(s: State)
    requires s.now.main == GetResponse && s.now.responses == [] && s.now.streamingDone
    requires s.now.streamingResult == Success
    ensures var step := StepMain(true); Exec(s, [step, step, step]) == s.(now := AllCollected(s.now))
  {
    var n, step := s.now, StepMain(true);
    assert Apply(s, step) == s.(now := n.(main := Received(None)));
    assert Apply(s.(now := n.(main := Received(None))), step) == s.(now := n.(main := GetLeftovers));
    assert n.collected + n.responses == n.collected;
    ThreeSteps(s, step, step, step);
  }

  // What the encrypt task has paired goes to the main thread, pair by pair.

  function AllHandedOver(n: Shared): Shared {
    n.(pairs := [], collected := n.collected + n.pairs)
  }

  /** One pair is handed over, by two steps of the stream task and two of the main thread. */
  lemma HandOverNext(s: State) returns (steps: seq<Step>)
    requires s.now.streamer == GetPair(false) && s.now.main == GetResponse && s.now.responses == []
    requires s.now.ids != [] && s.now.pairs != []
    ensures WithinSession(steps)
    ensures
      var n := s.now;
      Exec(s, steps) == s.(now := n.(pairs := n.pairs[1..], collected := n.collected + [n.pairs[0]]))
  {
    var n, stream, main := s.now, StepStreamer(true, true), StepMain(true);
    var t := s.(now := n.(pairs := n.pairs[1..], responses := [n.pairs[0]]));
    StreamNext(s);
    assert [] + [n.pairs[0]] == [n.pairs[0]] && [n.pairs[0]][1..] == [];
    CollectNext(t);
    steps := FollowUp(s, [stream, stream], t, [main, main]);
  }

  lemma {:induction false} HandOverRun(s: State) returns (steps: seq<Step>)
    requires s.now.streamer == GetPair(false) && s.now.main == GetResponse && s.now.responses == []
    requires s.now.ids == [] ==> s.now.pairs == []
    ensures WithinSession(steps) && Exec(s, steps) == s.(now := AllHandedOver(s.now))
    decreases |s.now.pairs|
  {
    var n := s.now;
    if n.pairs == [] {
      assert n.collected + n.pairs == n.collected;
      steps := [];
    } else {
      steps := HandOverNext(s);
      var t := s.(now := n.(pairs := n.pairs[1..], collected := n.collected + [n.pairs[0]]));
      assert t.now.collected + t.now.pairs == n.collected + n.pairs;
      var more := HandOverRun(t);
      steps := FollowUp(s, steps, t, more);
    }
  }

  // A session, as far as the encrypt task's end and to its own end.

  /** All ids are pushed and the encrypt task runs to its end, wherever the other actors are. */
  lemma PushAndEncrypt(s: State, supply: seq<Uuid>) returns (steps: seq<Step>)
    requires s.now.pusher == Push(0) && s.now.requests == [] && !s.now.marked && s.now.encrypter == GetRequest(false)
    requires |s.now.pairs| <= PAIR_QUEUE_CAPACITY && AllFresh(supply, s.used) && |supply| >= |s.now.ids|
    ensures
      var t := Exec(s, steps);
      && WithinSession(steps) && t.outputs == s.outputs && t.now == AllEncrypted(AllPushed(s.now), t.now.pairs)
      && |t.now.pairs| == Least(|s.now.pairs| + |s.now.ids|, PAIR_QUEUE_CAPACITY) && s.now.pairs <= t.now.pairs
      && AllFresh(supply[|s.now.ids|..], t.used)
  {
    assert s.now.ids[..0] == [];
    steps := PushRun(s, 0);
    var t := s.(now := AllPushed(s.now));
    var more := EncryptRun(t, supply);
    steps := FollowUp(s, steps, t, more);
  }

  /** A session that has just begun, with its stream open. */
  function OpenedSession(n: Shared, ids: seq<string>): Shared {
    BeginStep(n, ids, true).(main := GetResponse, streamer := GetPair(false))
  }

  lemma SessionOpens(s: State, ids: seq<string>)
    requires Accepts(s.now)
    ensures
      var t := Apply(Apply(s, Begin(ids, true)), StepMain(true));
      t.now == OpenedSession(s.now, ids) && t.used == s.used && t.outputs == s.outputs
  {
  }

  /** A session whose stream is open is pushed and encrypted. */
  lemma EncryptedSession(s: State, ids: seq<string>, supply: seq<Uuid>) returns (steps: seq<Step>)
    requires Accepts(s.now) && |s.now.pairs| <= PAIR_QUEUE_CAPACITY
    requires AllFresh(supply, s.used) && |supply| >= |ids|
    ensures WithinSession(steps)
    ensures
      var t := Exec(Apply(Apply(s, Begin(ids, true)), StepMain(true)), steps);
      && t.outputs == s.outputs && s.now.pairs <= t.now.pairs
      && t.now == AllEncrypted(AllPushed(OpenedSession(s.now, ids)), t.now.pairs)
      && |t.now.pairs| == Least(|s.now.pairs| + |ids|, PAIR_QUEUE_CAPACITY)
  {
    SessionOpens(s, ids);
    steps := PushAndEncrypt(Apply(Apply(s, Begin(ids, true)), StepMain(true)), supply);
  }

  /** The session goes on to its end: it files what was collected and what is in the pair queue. */
  lemma FinishedSession(s: State) returns (steps: seq<Step>)
    requires s.now.streamer == GetPair(false) && s.now.main == GetResponse && s.now.doneEncrypting
    requires s.now.responses == [] && (s.now.ids == [] ==> s.now.pairs == [])
    requires s.now.encryptionDone && s.now.encryptionResult == Success
    requires s.now.pusher == PushIdle && s.now.pushingResult == Success
    ensures WithinSession(steps)
    ensures Exec(s, steps).outputs == s.outputs + [Output(s.now.ids, s.now.collected + s.now.pairs)]
    ensures Accepts(Exec(s, steps).now)
  {
    steps := HandOverRun(s);
    var t := s.(now := AllHandedOver(s.now));
    var more := StreamEnds(t);
    steps := FollowUp(s, steps, t, more);
    t := t.(now := AllStreamed(t.now));
    CollectEnds(t);
    steps := FollowUp(s, steps, t, [StepMain(true), StepMain(true), StepMain(true)]);
    t := t.(now := AllCollected(t.now));
    OneStep(t, StepMain(true));
    steps := FollowUp(s, steps, t, [StepMain(true)]);
  }
}

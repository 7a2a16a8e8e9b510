/** No session of the generator is ever stuck: from every moment there is a way to its end. */
module Progress {
  import opened Results
  import opened Mapping
  import opened Pipeline

  function PushWork(n: Shared): nat {
    if n.pusher.Push? && n.pusher.index <= |n.ids| then |n.ids| - n.pusher.index + 1 else 0
  }

  /** Steps the encrypt task needs once the requests are marked done. */
  function EncryptWork(n: Shared): nat {
    3 * |n.requests| +
    match n.encrypter
    case EncryptIdle => 0
    case RaiseEncrypted => 1
    case ReportEncryption => 2
    case GetRequest(again) => if again then 3 else 5
    case CheckMarked => 4
    case Enqueue(_, again) => if again then 4 else 6
    case MakeUuid(_, again) => if again then 5 else 7
    case RescheduleEncrypt => 6
  }

  /** Steps the stream task needs once encryption is done. */
  function StreamWork(n: Shared): nat {
    2 * |n.pairs| +
    match n.streamer
    case StreamIdle => 0
    case ReportStreaming => 1
    case RaiseStreamed => 2
    case GetPair(again) => if again then 3 else 5
    case CheckEncrypted => 4
    case Respond(_, again) => if again then 4 else 6
    case RescheduleStream => 6
  }

  /** Steps the main thread needs once streaming is done. */
  function MainWork(n: Shared): nat {
    2 * |n.responses| +
    match n.main
    case MainIdle => 0
    case AwaitEncryption => 1
    case GetLeftovers => 2
    case Received(None) => 3
    case GetResponse => 4
    case Received(Some(_)) => 5
    case OpenStream => 6
  }

  /** Whose turn it is when every actor in turn runs to its end. */
  function Turn(n: Shared, uuid: Uuid): Step {
    if n.pusher.Push? then StepPusher
    else if n.main == OpenStream then StepMain(true)
    else if n.encrypter != EncryptIdle then StepEncrypter(uuid, true)
    else if n.streamer != StreamIdle then StepStreamer(true, true)
    else StepMain(true)
  }

  lemma PusherAdvances(n: Shared, made: seq<Pair>)
    requires Front(n, made) && n.pusher.Push?
    ensures PushWork(PusherStep(n)) < PushWork(n)
    ensures PusherStep(n).main == n.main && PusherStep(n).ids == n.ids
  {
    if n.pusher.index < |n.ids| {
      PushAlwaysFits(n, made);
    }
  }

  lemma EncrypterAdvances(n: Shared, made: seq<Pair>)
    requires Flows(n, made) && n.pusher == PushIdle && n.encrypter != EncryptIdle && !n.encrypter.MakeUuid?
    ensures
      var t := EncrypterStep(n, true);
      EncryptWork(t) < EncryptWork(n) && t.pusher == PushIdle && t.main == n.main && t.ids == n.ids
  {
    if n.encrypter.Enqueue? {
      EnqueueAlwaysFits(n, made);
    }
  }

  lemma StreamerAdvances(n: Shared, made: seq<Pair>)
    requires Flows(n, made) && n.pusher == PushIdle && n.encrypter == EncryptIdle && n.streamer != StreamIdle
    ensures
      var t := StreamerStep(n, true, true);
      && StreamWork(t) < StreamWork(n)
      && t.pusher == PushIdle && t.encrypter == EncryptIdle && t.requests == n.requests
      && t.main == n.main && t.ids == n.ids
  {
    if n.streamer.Respond? {
      RespondAlwaysFits(n, made);
    }
  }

  lemma MainAdvances(n: Shared, made: seq<Pair>)
    requires Flows(n, made) && n.pusher == PushIdle && n.encrypter == EncryptIdle && n.streamer == StreamIdle
    requires n.main != MainIdle && n.main != OpenStream
    ensures
      var t := MainStep(n, true);
      && MainWork(t) < MainWork(n) && t.main != OpenStream && t.ids == n.ids
      && t.pusher == PushIdle && t.encrypter == EncryptIdle && t.streamer == StreamIdle
      && t.requests == n.requests && t.pairs == n.pairs
      && (t.main == MainIdle ==> n.main == AwaitEncryption)
  {
  }

  /** Fewer steps are left, counted actor by actor. */
  predicate Nearer(t: Shared, n: Shared) {
    if PushWork(t) != PushWork(n) then PushWork(t) < PushWork(n)
    else if t.main == OpenStream || n.main == OpenStream then n.main == OpenStream && t.main != OpenStream
    else if EncryptWork(t) != EncryptWork(n) then EncryptWork(t) < EncryptWork(n)
    else if StreamWork(t) != StreamWork(n) then StreamWork(t) < StreamWork(n)
    else MainWork(t) < MainWork(n)
  }

  lemma TurnNearer(n: Shared, made: seq<Pair>, uuid: Uuid)
    requires Flows(n, made) && n.main != MainIdle && !IsPairing(n)
    ensures
      var t := TurnTaken(n);
      Nearer(t, n) && t.ids == n.ids && (t.main == MainIdle ==> n.main == AwaitEncryption)
  {
    if n.pusher.Push? {
      PusherAdvances(n, made);
    } else if n.main == OpenStream {
      assert MainStep(n, true) == n.(streamer := GetPair(false), main := GetResponse);
    } else if n.encrypter != EncryptIdle {
      EncrypterAdvances(n, made);
    } else if n.streamer != StreamIdle {
      StreamerAdvances(n, made);
    } else {
      MainAdvances(n, made);
    }
  }

  /** The shared state after a turn that makes no pair. */
  function TurnTaken(n: Shared): Shared {
    if n.pusher.Push? then PusherStep(n)
    else if n.main == OpenStream then MainStep(n, true)
    else if n.encrypter != EncryptIdle then EncrypterStep(n, true)
    else if n.streamer != StreamIdle then StreamerStep(n, true, true)
    else MainStep(n, true)
  }

  /** The next turn makes a pair. */
  predicate IsPairing(n: Shared) {
    n.pusher == PushIdle && n.main != OpenStream && n.encrypter.MakeUuid?
  }

  ghost predicate AllFresh(uuids: seq<Uuid>, used: set<Uuid>) {
    && (forall i :: 0 <= i < |uuids| ==> uuids[i] !in used)
    && (forall i, j :: 0 <= i < j < |uuids| ==> uuids[i] != uuids[j])
  }

  /** A turn brings the session nearer to its end, and the turn that frees the main thread yields its output. */
  lemma TurnAdvances(s: State, uuid: Uuid)
    requires Inv(s) && s.now.main != MainIdle && (IsPairing(s.now) ==> uuid !in s.used)
    ensures
      var t := Apply(s, Turn(s.now, uuid));
      && Nearer(t.now, s.now) && t.now.ids == s.now.ids && t.start == s.start
      && t.used == (if IsPairing(s.now) then s.used + {uuid} else s.used)
      && |t.made| == |s.made| + (if IsPairing(s.now) then 1 else 0)
      && t.outputs == s.outputs + if t.now.main == MainIdle then [Output(s.now.ids, s.now.collected)] else []
  {
    var n := s.now;
    if !IsPairing(n) {
      TurnNearer(n, s.made[s.start..], uuid);
      TurnIsTaken(s, uuid);
    } else {
      assert s.outputs + [] == s.outputs;
    }
  }

  lemma TurnIsTaken(s: State, uuid: Uuid)
    requires Inv(s) && s.now.main != MainIdle && !IsPairing(s.now)
    requires TurnTaken(s.now).main == MainIdle ==> s.now.main == AwaitEncryption
    ensures
      var t := Apply(s, Turn(s.now, uuid));
      && t.now == TurnTaken(s.now) && t.start == s.start && t.used == s.used && t.made == s.made
      && t.outputs == s.outputs + if t.now.main == MainIdle then [Output(s.now.ids, s.now.collected)] else []
  {
    assert s.outputs + [] == s.outputs;
    if s.now.main == AwaitEncryption {
      SessionIsOver(s.now, s.made[s.start..]);
    }
  }

  lemma TakeTurn(s: State, uuid: Uuid) returns (step: Step, t: State)
    requires Inv(s) && s.now.main != MainIdle && (IsPairing(s.now) ==> uuid !in s.used)
    ensures IsFaultless(step) && Inv(t) && forall rest :: Exec(s, [step] + rest) == Exec(t, rest)
    ensures Nearer(t.now, s.now) && t.now.ids == s.now.ids && t.start == s.start
    ensures t.used == (if IsPairing(s.now) then s.used + {uuid} else s.used)
    ensures |t.made| == |s.made| + (if IsPairing(s.now) then 1 else 0)
    ensures t.outputs == s.outputs + if t.now.main == MainIdle then [Output(s.now.ids, s.now.collected)] else []
  {
    step := Turn(s.now, uuid);
    t := Apply(s, step);
    TurnAdvances(s, uuid);
    ApplyKeeps(s, step);
    forall rest ensures Exec(s, [step] + rest) == Exec(t, rest) {
      assert ([step] + rest)[1..] == rest;
    }
  }

  lemma {:induction false} SessionCanEnd(s: State, supply: seq<Uuid>) returns (steps: seq<Step>)
    requires Inv(s) && s.now.main != MainIdle
    requires AllFresh(supply, s.used) && |supply| >= |s.now.ids| - (|s.made| - s.start)
    ensures Faultless(steps) && Exec(s, steps).now.main == MainIdle
    ensures
      var outputs := Exec(s, steps).outputs;
      |outputs| == |s.outputs| + 1 && outputs[|s.outputs|].ids == s.now.ids && IsFaithful(outputs[|s.outputs|])
    decreases PushWork(s.now), s.now.main == OpenStream, EncryptWork(s.now), StreamWork(s.now), MainWork(s.now)
  {
    var uuid, left := NIL_UUID, supply;
    if IsPairing(s.now) {
      PairingNeedsId(s);
      FreshNext(supply, s.used);
      uuid, left := supply[0], supply[1..];
    }
    var step, t := TakeTurn(s, uuid);
    var rest: seq<Step> := [];
    if t.now.main == MainIdle {
      assert t.outputs == s.outputs + [Output(s.now.ids, s.now.collected)];
    } else {
      assert t.outputs == s.outputs;
      rest := SessionCanEnd(t, left);
    }
    steps := [step] + rest;
    assert Exec(s, steps) == Exec(t, rest);
  }

  lemma FreshNext(supply: seq<Uuid>, used: set<Uuid>)
    requires supply != [] && AllFresh(supply, used)
    ensures supply[0] !in used && AllFresh(supply[1..], used + {supply[0]})
  {
  }

  lemma PairingNeedsId(s: State)
    requires Inv(s) && IsPairing(s.now)
    ensures |s.made| - s.start < |s.now.ids|
  {
    assert Front(s.now, s.made[s.start..]);
  }

  /** No reachable moment of a session is a dead end: from each there is a way on that ends the session with
      its ids paired, in order, as long as the supply has a fresh UUID for every id that still needs one. */
  lemma NoDeadEnd(history: seq<Step>, supply: seq<Uuid>) returns (more: seq<Step>)
    requires Faultless(history) && Exec(INITIAL, history).now.main != MainIdle
    requires
      var s := Exec(INITIAL, history);
      AllFresh(supply, s.used) && |supply| >= |s.now.ids| - |SessionPairs(s)|
    ensures
      var s := Exec(INITIAL, history);
      var t := Exec(s, more);
      && Faultless(more) && t.now.main == MainIdle && |t.outputs| == |s.outputs| + 1
      && t.outputs[|s.outputs|].ids == s.now.ids && IsFaithful(t.outputs[|s.outputs|])
  {
    var s := Reached(history);
    more := SessionCanEnd(s, supply);
  }
}

/** The parser with one producer and one consumer thread, at the grain of its shared accesses:
    the producer checks the counter, adds to it, queues rows one at a time and stores the tail;
    the consumer dequeues a row and later subtracts its bytes. */
module ConcurrentParser {
  import opened Results
  import opened Lines
  import opened Parser

  /** The producer is outside `AddCsvChunk`, past its capacity check, or scanning. */
  datatype Producer = Outside | Checked(chunk: string) | Scanning(unscanned: string)

  datatype State = State(
    rows: seq<string>,
    tail: string,
    buffered: nat,
    producer: Producer,
    inFlight: Option<string>,
    accepted: string,          // bytes of every chunk that passed the check and was added
    delivered: seq<string>,    // rows the consumer is done with
    refusals: nat,             // chunks refused so far
    overflowed: bool)          // an insertion into the row queue has failed

  datatype Step =
    | Check(chunk: string)
    | Produce
    | Dequeue
    | Subtract

  const INITIAL := State([], "", 0, Outside, None, "", [], 0, false)

  /** One step of one thread; a step that is not enabled changes nothing. */
  function Apply(c: Config, s: State, step: Step): State {
    match step
    case Check(chunk) =>
      if s.producer != Outside then s
      else if |chunk| + s.buffered > c.maxBuffered then s.(refusals := s.refusals + 1)
      else s.(producer := Checked(chunk))
    case Produce => ProduceStep(c, s)
    case Dequeue =>
      if s.inFlight != None || s.rows == [] then s
      else s.(inFlight := Some(s.rows[0]), rows := s.rows[1..])
    case Subtract =>
      if s.inFlight == None then s
      else s.(inFlight := None,
              delivered := s.delivered + [s.inFlight.value],
              buffered := SizeSub(s.buffered, |s.inFlight.value| + 1))
  }

  /** The producer past its check: adds to the counter, then queues one line after the other. */
  function ProduceStep(c: Config, s: State): State {
    match s.producer
    case Outside => s
    case Checked(chunk) =>
      s.(buffered := s.buffered + |chunk|,
         producer := Scanning(s.tail + chunk),
         tail := "",
         accepted := s.accepted + chunk)
    case Scanning(text) =>
      var k := Find(text, c.lineBreak);
      if k == |text| then s.(producer := Outside, tail := text)
      else if |s.rows| < QUEUE_CAPACITY then
        s.(rows := s.rows + [text[..k]], producer := Scanning(text[k + 1..]))
      else s.(producer := Outside, overflowed := true)
  }

  /** A schedule: any sequence of steps of the two threads. */
  function Exec(c: Config, s: State, steps: seq<Step>): State
    decreases steps
  {
    if steps == [] then s else Exec(c, Apply(c, s, steps[0]), steps[1..])
  }

  lemma {:induction false} ExecAppend(c: Config, s: State, a: seq<Step>, b: seq<Step>)
    ensures Exec(c, s, a + b) == Exec(c, Exec(c, s, a), b)
    decreases a
  {
    if a == [] {
      assert a + b == b;
    } else {
      assert (a + b)[1..] == a[1..] + b;
      ExecAppend(c, Apply(c, s, a[0]), a[1..], b);
    }
  }

  function InFlightRows(s: State): seq<string> {
    if s.inFlight == None then [] else [s.inFlight.value]
  }

  /** Every row found so far: handed out, in flight, or queued. */
  function Found(s: State): seq<string> {
    s.delivered + InFlightRows(s) + s.rows
  }

  /** The bytes after the last row found: the stored tail, or what is still to be scanned. */
  function Pending(s: State): string {
    match s.producer
    case Scanning(text) => text
    case _ => s.tail
  }

  /** The bytes that queued and in-flight rows (with their line breaks) and pending text stand for. */
  function Outstanding(c: Config, s: State): nat {
    |Unlines(InFlightRows(s), c.lineBreak)| + |Unlines(s.rows, c.lineBreak)| + |Pending(s)|
  }

  ghost predicate Accounted(c: Config, s: State) {
    && Outstanding(c, s) <= s.buffered
    && (!s.overflowed ==> s.buffered == Outstanding(c, s))
    && s.buffered + (if s.producer.Checked? then |s.producer.chunk| else 0) <= c.maxBuffered
    && |s.rows| <= QUEUE_CAPACITY
  }

  /** The accepted bytes are the rows found, each with its line break, and the pending text. */
  ghost predicate Conserved(c: Config, s: State) {
    && AllFree(Found(s), c.lineBreak)
    && (s.producer.Scanning? ==> s.tail == "")
    && c.lineBreak !in s.tail
    && (!s.overflowed ==> Unlines(Found(s), c.lineBreak) + Pending(s) == s.accepted)
  }

  ghost predicate Inv(c: Config, s: State) {
    Accounted(c, s) && Conserved(c, s)
  }

  lemma CheckKeeps(c: Config, s: State, chunk: string)
    requires c.Valid() && Inv(c, s)
    ensures Inv(c, Apply(c, s, Check(chunk)))
  {
    assert Found(Apply(c, s, Check(chunk))) == Found(s);
  }

  lemma DequeueKeeps(c: Config, s: State)
    requires c.Valid() && Inv(c, s)
    ensures Inv(c, Apply(c, s, Dequeue))
    ensures Found(Apply(c, s, Dequeue)) == Found(s)
  {
    var t := Apply(c, s, Dequeue);
    if s.inFlight == None && s.rows != [] {
      var b := c.lineBreak;
      assert s.rows == [s.rows[0]] + s.rows[1..];
      Regroup(s.delivered, [s.rows[0]], s.rows[1..]);
      assert s.delivered + [] == s.delivered;
      assert Found(t) == Found(s);
      UnlinesCons(s.rows[0], s.rows[1..], b);
      UnlinesOne(s.rows[0], b);
    }
  }

  /** The subtraction never wraps. */
  lemma SubtractKeeps(c: Config, s: State)
    requires c.Valid() && Inv(c, s)
    ensures Inv(c, Apply(c, s, Subtract))
    ensures Found(Apply(c, s, Subtract)) == Found(s)
    ensures s.inFlight.Some? ==> Apply(c, s, Subtract).buffered == s.buffered - (|s.inFlight.value| + 1)
  {
    var t := Apply(c, s, Subtract);
    if s.inFlight.Some? {
      UnlinesOne(s.inFlight.value, c.lineBreak);
      assert t.delivered + [] == t.delivered;
      assert Found(t) == Found(s);
    }
  }

  lemma ProduceKeeps(c: Config, s: State)
    requires c.Valid() && Inv(c, s)
    ensures Inv(c, Apply(c, s, Produce))
  {
    var t := Apply(c, s, Produce);
    var b := c.lineBreak;
    match s.producer
    case Outside =>
    case Checked(chunk) =>
      assert Found(t) == Found(s);
      Regroup(Unlines(Found(s), b), s.tail, chunk);
    case Scanning(text) =>
      var k := Find(text, b);
      if k == |text| {
        assert text[..k] == text;
        assert Found(t) == Found(s);
      } else if |s.rows| < QUEUE_CAPACITY {
        QueueLineKeeps(c, s, text, k);
      } else {
        assert Found(t) == Found(s);
      }
  }

  lemma QueuedIsFound(s: State, t: State, line: string)
    requires t.delivered == s.delivered && t.inFlight == s.inFlight && t.rows == s.rows + [line]
    ensures Found(t) == Found(s) + [line]
  {
    Regroup(s.delivered + InFlightRows(s), s.rows, [line]);
  }

  lemma QueueLineKeeps(c: Config, s: State, text: string, k: nat)
    requires c.Valid() && Inv(c, s) && s.producer == Scanning(text)
    requires k == Find(text, c.lineBreak) < |text| && |s.rows| < QUEUE_CAPACITY
    ensures Inv(c, s.(rows := s.rows + [text[..k]], producer := Scanning(text[k + 1..])))
  {
    var line, left := text[..k], text[k + 1..];
    var t := s.(rows := s.rows + [line], producer := Scanning(left));
    CutAt(text, k);
    QueueLineAccounted(c, s, t, line, left);
    QueueLineConserved(c, s, t, line, left);
  }

  lemma QueueLineAccounted(c: Config, s: State, t: State, line: string, left: string)
    requires Accounted(c, s) && s.producer == Scanning(line + [c.lineBreak] + left) && |s.rows| < QUEUE_CAPACITY
    requires t == s.(rows := s.rows + [line], producer := Scanning(left))
    ensures Accounted(c, t)
  {
    UnlinesAppend(s.rows, [line], c.lineBreak);
    UnlinesOne(line, c.lineBreak);
  }

  lemma QueueLineConserved(c: Config, s: State, t: State, line: string, left: string)
    requires Conserved(c, s) && s.producer == Scanning(line + [c.lineBreak] + left) && c.lineBreak !in line
    requires t == s.(rows := s.rows + [line], producer := Scanning(left))
    ensures Conserved(c, t)
  {
    QueuedIsFound(s, t, line);
    NextLineMoves(Found(s), line, left, c.lineBreak);
  }

  lemma ApplyKeeps(c: Config, s: State, step: Step)
    requires c.Valid() && Inv(c, s)
    ensures Inv(c, Apply(c, s, step))
  {
    match step
    case Check(chunk) => CheckKeeps(c, s, chunk);
    case Produce => ProduceKeeps(c, s);
    case Dequeue => DequeueKeeps(c, s);
    case Subtract => SubtractKeeps(c, s);
  }

  lemma {:induction false} ExecKeeps(c: Config, s: State, steps: seq<Step>)
    requires c.Valid() && Inv(c, s)
    ensures Inv(c, Exec(c, s, steps))
    decreases steps
  {
    if steps != [] {
      ApplyKeeps(c, s, steps[0]);
      ExecKeeps(c, Apply(c, s, steps[0]), steps[1..]);
    }
  }

  /** Under every schedule in which no insertion fails, the counter equals the outstanding bytes;
      under every schedule it is at least that, and it never passes the limit,
      although the check and the addition are not one atomic step. */
  lemma CounterIsExact(c: Config, steps: seq<Step>)
    requires c.Valid()
    ensures
      var s := Exec(c, INITIAL, steps);
      && Outstanding(c, s) <= s.buffered <= c.maxBuffered
      && (!s.overflowed ==> s.buffered == Outstanding(c, s))
  {
    ExecKeeps(c, INITIAL, steps);
  }

  /** Under every schedule in which no insertion fails, the rows handed out, in flight and queued are
      the complete lines of the accepted bytes, and the stored tail is what follows the last line break.
      Where the chunks were cut, and how the threads interleaved, cannot be seen. */
  lemma ChunkingInvariance(c: Config, steps: seq<Step>)
    requires c.Valid() && !Exec(c, INITIAL, steps).overflowed
    ensures
      var s := Exec(c, INITIAL, steps);
      && Complete(s.accepted, c.lineBreak) == Found(s) + Complete(Pending(s), c.lineBreak)
      && Rest(s.accepted, c.lineBreak) == Rest(Pending(s), c.lineBreak)
      && (!s.producer.Scanning? ==>
            Complete(s.accepted, c.lineBreak) == Found(s) && Rest(s.accepted, c.lineBreak) == s.tail)
  {
    ExecKeeps(c, INITIAL, steps);
    FoundIsComplete(c, Exec(c, INITIAL, steps));
  }

  lemma FoundIsComplete(c: Config, s: State)
    requires Inv(c, s) && !s.overflowed
    ensures Complete(s.accepted, c.lineBreak) == Found(s) + Complete(Pending(s), c.lineBreak)
    ensures Rest(s.accepted, c.lineBreak) == Rest(Pending(s), c.lineBreak)
    ensures !s.producer.Scanning? ==>
              Complete(s.accepted, c.lineBreak) == Found(s) && Rest(s.accepted, c.lineBreak) == s.tail
  {
    SplitPrefix(Found(s), Pending(s), c.lineBreak);
    if !s.producer.Scanning? {
      SplitUnique(Found(s), s.tail, c.lineBreak);
    }
  }

  /** Once everything is consumed, two runs that accepted the same bytes have handed out the same rows. */
  lemma ScheduleUnobservable(c: Config, steps: seq<Step>, steps': seq<Step>)
    requires c.Valid()
    requires
      var s, s' := Exec(c, INITIAL, steps), Exec(c, INITIAL, steps');
      && s.accepted == s'.accepted && !s.overflowed && !s'.overflowed
      && s.producer == Outside && s'.producer == Outside
      && s.rows == [] && s'.rows == [] && s.inFlight == None && s'.inFlight == None
    ensures Exec(c, INITIAL, steps).delivered == Exec(c, INITIAL, steps').delivered
  {
    ChunkingInvariance(c, steps);
    ChunkingInvariance(c, steps');
    var s, s' := Exec(c, INITIAL, steps), Exec(c, INITIAL, steps');
    assert Found(s) == s.delivered && Found(s') == s'.delivered;
  }

  /** A schedule with its refused checks left out. */
  function WithoutRefusals(c: Config, s: State, steps: seq<Step>): seq<Step>
    decreases steps
  {
    if steps == [] then []
    else
      var later := WithoutRefusals(c, Apply(c, s, steps[0]), steps[1..]);
      if Apply(c, s, steps[0]).refusals > s.refusals then later else [steps[0]] + later
  }

  lemma RefusalsOnlyCountOnce(c: Config, s: State, n: nat, step: Step)
    ensures
      var t := Apply(c, s, step);
      Apply(c, s.(refusals := s.refusals + n), step) == t.(refusals := t.refusals + n)
  {
  }

  lemma {:induction false} RefusalsOnlyCount(c: Config, s: State, n: nat, steps: seq<Step>)
    ensures
      var end := Exec(c, s, steps);
      Exec(c, s.(refusals := s.refusals + n), steps) == end.(refusals := end.refusals + n)
    decreases steps
  {
    if steps != [] {
      RefusalsOnlyCountOnce(c, s, n, steps[0]);
      RefusalsOnlyCount(c, Apply(c, s, steps[0]), n, steps[1..]);
    }
  }

  lemma RefusedOnlyCounts(c: Config, s: State, step: Step)
    ensures
      var t := Apply(c, s, step);
      if t.refusals > s.refusals then t == s.(refusals := s.refusals + 1) else t.refusals == s.refusals
  {
  }

  /** Refused chunks leave no trace: with the refused calls dropped, any schedule ends in the same state,
      and nothing is refused on the way. */
  lemma {:induction false} RefusalsLeaveNoTrace(c: Config, s: State, steps: seq<Step>)
    ensures Exec(c, s, WithoutRefusals(c, s, steps)) == Exec(c, s, steps).(refusals := s.refusals)
    decreases steps
  {
    if steps != [] {
      var t := Apply(c, s, steps[0]);
      RefusedOnlyCounts(c, s, steps[0]);
      RefusalsLeaveNoTrace(c, t, steps[1..]);
      if t.refusals > s.refusals {
        RefusalsOnlyCount(c, s, 1, WithoutRefusals(c, t, steps[1..]));
      } else {
        ExecFirst(c, s, steps[0], WithoutRefusals(c, t, steps[1..]));
      }
    }
  }

  lemma ExecFirst(c: Config, s: State, step: Step, later: seq<Step>)
    ensures Exec(c, s, [step] + later) == Exec(c, Apply(c, s, step), later)
  {
    assert ([step] + later)[1..] == later;
  }

  /** With nothing queued or in flight, the next chunk passes the check exactly when
      it fits beside the unfinished line. */
  lemma NextChunkPasses(c: Config, steps: seq<Step>, chunk: string)
    requires c.Valid()
    requires
      var s := Exec(c, INITIAL, steps);
      s.producer == Outside && s.rows == [] && s.inFlight == None && !s.overflowed
    ensures
      var s := Exec(c, INITIAL, steps);
      Apply(c, s, Check(chunk)).producer == Checked(chunk) <==> |s.tail| + |chunk| <= c.maxBuffered
  {
    ExecKeeps(c, INITIAL, steps);
  }

  // The sequential `AddCsvChunk` is one uninterrupted run of the producer.

  function AsParser(s: State): ParserState {
    ParserState(s.rows, s.tail, s.buffered)
  }

  function Repeat(n: nat): (steps: seq<Step>)
    ensures |steps| == n
  {
    if n == 0 then [] else [Produce] + Repeat(n - 1)
  }

  lemma {:induction false} IdleRun(c: Config, s: State, n: nat)
    requires s.producer == Outside
    ensures Exec(c, s, Repeat(n)) == s
  {
    if n > 0 {
      assert Repeat(n)[1..] == Repeat(n - 1);
      IdleRun(c, s, n - 1);
    }
  }

  /** Where the scan of a text ends when it is not interrupted. */
  function Scanned(c: Config, s: State, text: string): State
    requires |s.rows| <= QUEUE_CAPACITY
  {
    var lines, room := Complete(text, c.lineBreak), QUEUE_CAPACITY - |s.rows|;
    if |lines| <= room then s.(rows := s.rows + lines, tail := Rest(text, c.lineBreak), producer := Outside)
    else s.(rows := s.rows + lines[..room], producer := Outside, overflowed := true)
  }

  lemma ScannedLine(c: Config, s: State, text: string, line: string, left: string)
    requires Complete(text, c.lineBreak) == [line] + Complete(left, c.lineBreak)
    requires Rest(text, c.lineBreak) == Rest(left, c.lineBreak) && |s.rows| < QUEUE_CAPACITY
    ensures Scanned(c, s.(rows := s.rows + [line], producer := Scanning(left)), left) == Scanned(c, s, text)
  {
    LineThenLines(s.rows, line, Complete(left, c.lineBreak), QUEUE_CAPACITY - |s.rows|);
  }

  lemma ScannedAtOnce(c: Config, s: State, text: string)
    requires s.producer == Scanning(text) && |s.rows| <= QUEUE_CAPACITY
    requires Find(text, c.lineBreak) == |text| || |s.rows| == QUEUE_CAPACITY
    ensures ProduceStep(c, s) == Scanned(c, s, text)
  {
    assert s.rows + [] == s.rows;
  }

  lemma {:induction false} ScanRun(c: Config, s: State, text: string, n: nat)
    requires s.producer == Scanning(text) && |s.rows| <= QUEUE_CAPACITY
    requires n > |Complete(text, c.lineBreak)|
    ensures Exec(c, s, Repeat(n)) == Scanned(c, s, text)
    decreases |text|
  {
    var k := Find(text, c.lineBreak);
    assert Repeat(n)[1..] == Repeat(n - 1);
    if k == |text| || |s.rows| == QUEUE_CAPACITY {
      ScannedAtOnce(c, s, text);
      IdleRun(c, Scanned(c, s, text), n - 1);
    } else {
      var t := s.(rows := s.rows + [text[..k]], producer := Scanning(text[k + 1..]));
      ScanRun(c, t, text[k + 1..], n - 1);
      ScannedLine(c, s, text, text[..k], text[k + 1..]);
    }
  }

  lemma LineThenLines(rows: seq<string>, line: string, more: seq<string>, room: nat)
    requires room > 0
    ensures rows + [line] + more == rows + ([line] + more)
    ensures |more| > room - 1 ==> rows + [line] + more[..room - 1] == rows + ([line] + more)[..room]
  {
    if |more| > room - 1 {
      assert ([line] + more)[..room] == [line] + more[..room - 1];
    }
  }

  function ChunkSchedule(c: Config, s: State, chunk: string): seq<Step> {
    [Check(chunk), Produce] + Repeat(|Complete(s.tail + chunk, c.lineBreak)| + 1)
  }

  /** `AddChunk`, which the sequential method computes, is what the producer's steps amount to
      when the consumer does not interrupt them. */
  lemma AddChunkIsARun(c: Config, s: State, chunk: string)
    requires s.producer == Outside && |s.rows| <= QUEUE_CAPACITY
    ensures
      var (p, result) := AddChunk(c, AsParser(s), chunk);
      var t := Exec(c, s, ChunkSchedule(c, s, chunk));
      && AsParser(t) == p
      && t.producer == Outside && t.inFlight == s.inFlight && t.delivered == s.delivered
      && t.accepted == s.accepted + (if result.Retry? then "" else chunk)
      && t.refusals == s.refusals + (if result.Retry? then 1 else 0)
      && (t.overflowed <==> s.overflowed || result == Failure(QueueFull))
  {
    var n := |Complete(s.tail + chunk, c.lineBreak)| + 1;
    var t := Apply(c, s, Check(chunk));
    var u := Apply(c, t, Produce);
    var schedule := ChunkSchedule(c, s, chunk);
    assert schedule[0] == Check(chunk) && schedule[1..][0] == Produce && schedule[1..][1..] == Repeat(n);
    assert Exec(c, s, schedule) == Exec(c, u, Repeat(n));
    if |chunk| + s.buffered > c.maxBuffered {
      IdleRun(c, u, n);
      assert s.accepted + "" == s.accepted;
    } else {
      ScanRun(c, u, s.tail + chunk, n);
    }
  }

  /** `NextRow` is the consumer's two steps with nothing in between. */
  lemma NextRowIsARun(c: Config, s: State)
    requires s.inFlight == None
    ensures
      var t := Exec(c, s, [Dequeue, Subtract]);
      && AsParser(t) == NextRow(c, AsParser(s)).0
      && t.inFlight == None && t.producer == s.producer && t.accepted == s.accepted
      && t.delivered == s.delivered + (if s.rows == [] then [] else [s.rows[0]])
  {
    assert [Dequeue, Subtract][1..] == [Subtract] && [Subtract][1..] == [];
    assert Exec(c, s, [Dequeue, Subtract]) == Apply(c, Apply(c, s, Dequeue), Subtract);
    assert s.delivered + [] == s.delivered;
  }

  // The row queue is large enough when rows are long enough.

  ghost predicate RowsAtLeast(c: Config, bytes: string, k: nat) {
    forall i :: 0 <= i < |Complete(bytes, c.lineBreak)| ==> |Complete(bytes, c.lineBreak)[i]| + 1 >= k
  }

  lemma {:induction false} AcceptedGrows(c: Config, s: State, steps: seq<Step>)
    ensures s.accepted <= Exec(c, s, steps).accepted
    decreases steps
  {
    if steps != [] {
      AcceptedGrows(c, Apply(c, s, steps[0]), steps[1..]);
    }
  }

  lemma RowsAtLeastPrefix(c: Config, bytes: string, more: string, k: nat)
    requires bytes <= more && RowsAtLeast(c, more, k)
    ensures RowsAtLeast(c, bytes, k)
  {
    assert more == bytes + more[|bytes|..];
    SplitConcat(bytes, more[|bytes|..], c.lineBreak);
    forall i | 0 <= i < |Complete(bytes, c.lineBreak)| ensures |Complete(bytes, c.lineBreak)[i]| + 1 >= k {
      assert Complete(more, c.lineBreak)[i] == Complete(bytes, c.lineBreak)[i];
    }
  }

  /** With rows of at least `k` bytes, a full queue leaves too little of the buffer for one more row. */
  lemma FullQueueHasNoNextRow(c: Config, s: State, text: string, k: nat)
    requires c.Valid() && Inv(c, s) && !s.overflowed && RowsAtLeast(c, s.accepted, k)
    requires k * (QUEUE_CAPACITY + 1) > c.maxBuffered
    requires s.producer == Scanning(text) && Find(text, c.lineBreak) < |text|
    ensures |s.rows| < QUEUE_CAPACITY
  {
    FoundIsComplete(c, s);
    var later := Complete(text, c.lineBreak);
    MiddleAtLeast(s.delivered + InFlightRows(s), s.rows, later, k);
    RowsTakeRoom(c, s.rows, later[0], text, k);
  }

  lemma RowsTakeRoom(c: Config, rows: seq<string>, next: string, text: string, k: nat)
    requires forall i :: 0 <= i < |rows| ==> |rows[i]| + 1 >= k
    requires |text| >= |next| + 1 >= k && |Unlines(rows, c.lineBreak)| + |text| < k * (QUEUE_CAPACITY + 1)
    ensures |rows| < QUEUE_CAPACITY
  {
    UnlinesAtLeast(rows, c.lineBreak, k);
    assert |rows| >= QUEUE_CAPACITY ==> k * |rows| >= k * QUEUE_CAPACITY;
  }

  lemma MiddleAtLeast(before: seq<string>, rows: seq<string>, later: seq<string>, k: nat)
    requires forall i :: 0 <= i < |before + rows + later| ==> |(before + rows + later)[i]| + 1 >= k
    ensures forall i :: 0 <= i < |rows| ==> |rows[i]| + 1 >= k
    ensures later != [] ==> |later[0]| + 1 >= k
  {
    var all := before + rows + later;
    forall i | 0 <= i < |rows| ensures |rows[i]| + 1 >= k {
      assert all[|before| + i] == rows[i];
    }
    if later != [] {
      assert all[|before| + |rows|] == later[0];
    }
  }

  lemma {:induction false} NeverOverflows(c: Config, s: State, steps: seq<Step>, k: nat)
    requires c.Valid() && Inv(c, s) && !s.overflowed
    requires k * (QUEUE_CAPACITY + 1) > c.maxBuffered
    requires RowsAtLeast(c, Exec(c, s, steps).accepted, k)
    ensures !Exec(c, s, steps).overflowed
    decreases steps
  {
    if steps != [] {
      AcceptedGrows(c, s, steps);
      RowsAtLeastPrefix(c, s.accepted, Exec(c, s, steps).accepted, k);
      if s.producer.Scanning? && Find(s.producer.unscanned, c.lineBreak) < |s.producer.unscanned| {
        FullQueueHasNoNextRow(c, s, s.producer.unscanned, k);
      }
      ApplyKeeps(c, s, steps[0]);
      NeverOverflows(c, Apply(c, s, steps[0]), steps[1..], k);
    }
  }

  function Copies(n: nat, line: string): (lines: seq<string>)
    ensures |lines| == n && forall i :: 0 <= i < n ==> lines[i] == line
  {
    seq(n, _ => line)
  }

  lemma AddChunkOverflows(c: Config, chunk: string)
    requires |Complete(chunk, c.lineBreak)| == QUEUE_CAPACITY + 1 && |chunk| <= c.maxBuffered
    ensures AddChunk(c, AsParser(INITIAL), chunk).1 == Failure(QueueFull)
  {
    assert "" + chunk == chunk;
  }

  lemma OverflowingChunk(c: Config, lines: seq<string>, chunk: string) returns (steps: seq<Step>)
    requires Complete(chunk, c.lineBreak) == lines && |lines| == QUEUE_CAPACITY + 1 && |chunk| <= c.maxBuffered
    ensures Exec(c, INITIAL, steps).overflowed && Exec(c, INITIAL, steps).accepted == chunk
  {
    steps := ChunkSchedule(c, INITIAL, chunk);
    AddChunkOverflows(c, chunk);
    AddChunkIsARun(c, INITIAL, chunk);
    assert "" + chunk == chunk;
  }

  /** Otherwise one chunk of rows of exactly `k` bytes overflows the queue. */
  lemma ShortRowsOverflow(c: Config, k: nat) returns (steps: seq<Step>)
    requires k >= 1 && k * (QUEUE_CAPACITY + 1) <= c.maxBuffered
    ensures Exec(c, INITIAL, steps).overflowed
    ensures RowsAtLeast(c, Exec(c, INITIAL, steps).accepted, k)
  {
    var b := c.lineBreak;
    var filler := if b == 'a' then 'b' else 'a';
    var line := seq(k - 1, _ => filler);
    var lines := Copies(QUEUE_CAPACITY + 1, line);
    assert AllFree(lines, b);
    var chunk := Unlines(lines, b);
    UnlinesExactly(lines, b, k);
    SplitUnique(lines, "", b);
    assert chunk + "" == chunk;
    steps := OverflowingChunk(c, lines, chunk);
  }

  /** Insertions into the row queue never fail, under any schedule over rows of at least `k` bytes,
      exactly when `k` times one more than the queue's capacity exceeds the buffer limit. */
  lemma RowQueueSuffices(c: Config, k: nat)
    requires c.Valid() && k >= 1
    ensures (forall steps ::
              RowsAtLeast(c, Exec(c, INITIAL, steps).accepted, k) ==> !Exec(c, INITIAL, steps).overflowed)
      <==> k * (QUEUE_CAPACITY + 1) > c.maxBuffered
  {
    if k * (QUEUE_CAPACITY + 1) > c.maxBuffered {
      forall steps | RowsAtLeast(c, Exec(c, INITIAL, steps).accepted, k)
        ensures !Exec(c, INITIAL, steps).overflowed
      {
        NeverOverflows(c, INITIAL, steps, k);
      }
    } else {
      var steps := ShortRowsOverflow(c, k);
    }
  }

  /** At the 500 MiB limit rows of six bytes are enough and rows of five are not. */
  lemma SixByteRowsSuffice(c: Config)
    requires c.maxBuffered == MAX_BUFFERED_BYTES
    ensures forall steps :: RowsAtLeast(c, Exec(c, INITIAL, steps).accepted, 6) ==> !Exec(c, INITIAL, steps).overflowed
    ensures exists steps :: RowsAtLeast(c, Exec(c, INITIAL, steps).accepted, 5) && Exec(c, INITIAL, steps).overflowed
  {
    RowQueueSuffices(c, 6);
    RowQueueSuffices(c, 5);
  }
}

/** What loading a mapping answers, said of the lines of the blob. */
module Loading {
  import opened Results
  import opened Lines
  import opened Whitespace
  import opened Rows
  import opened Parser
  import opened MatchTable
  import opened Worker

  /** The line holds an id and a value: exactly one comma. */
  predicate IsPairLine(line: string) {
    multiset(line)[','] == 1
  }

  function FirstField(line: string): string {
    Normalize(Fields(line, ',')[0])
  }

  /** The second field; a line without a comma has none. */
  function SecondField(line: string): string {
    if Complete(line, ',') == [] then "" else Normalize(Fields(line, ',')[1])
  }

  /** The ids of the lines. */
  function Ids(lines: seq<string>): (ids: seq<string>)
    ensures |ids| == |lines|
  {
    seq(|lines|, i requires 0 <= i < |lines| => FirstField(lines[i]))
  }

  function Values(lines: seq<string>): (values: seq<string>)
    ensures |values| == |lines|
  {
    seq(|lines|, i requires 0 <= i < |lines| => SecondField(lines[i]))
  }

  /** The table has these ids with these values, unmatched, and no others. */
  ghost predicate HasEntries(table: Table, ids: seq<string>, values: seq<string>)
    requires |ids| == |values|
  {
    && (forall i :: 0 <= i < |ids| ==> ids[i] in table && table[ids[i]] == ValueInfo(values[i], false))
    && table.Keys == set id | id in ids
  }

  /** The line can be loaded after those before it: it is a pair, and its id is new. */
  ghost predicate IsLoadable(lines: seq<string>, n: nat)
    requires n < |lines|
  {
    IsPairLine(lines[n]) && Ids(lines)[n] !in Ids(lines)[..n]
  }

  /** `n` is the first line that cannot be loaded, or there is none. */
  ghost predicate LoadsUpTo(lines: seq<string>, n: nat) {
    && n <= |lines|
    && (forall i :: 0 <= i < n ==> IsLoadable(lines, i))
    && (n < |lines| ==> !IsLoadable(lines, n))
  }

  lemma PairLineParses(line: string)
    ensures BuildRow(line, 2, true, ',') ==
      if IsPairLine(line) then Ok(CsvRow([FirstField(line), SecondField(line)]))
      else Err(Failure(UnexpectedNumberOfColumns))
  {
    BuildSucceedsIff(line, 2, true, ',');
    CompleteCount(line, ',');
    if IsPairLine(line) {
      assert line != "" && |Fields(line, ',')| == 2;
      ColumnsNormal(line, 2, ',');
      assert NormalizeAll(Fields(line, ',')) == [FirstField(line), SecondField(line)];
    }
  }

  lemma AddPairLine(rows: seq<string>, table: Table, id: string, value: string)
    requires rows != [] && BuildRow(rows[0], 2, true, ',') == Ok(CsvRow([id, value]))
    ensures AddRows(rows, table) ==
      if id in table then (table, Failure(ElementAlreadyExists))
      else AddRows(rows[1..], table[id := ValueInfo(value, false)])
  {
  }

  lemma AddBadLine(rows: seq<string>, table: Table, result: ExecutionResult)
    requires rows != [] && BuildRow(rows[0], 2, true, ',') == Err(result)
    ensures AddRows(rows, table) == (table, result)
  {
  }

  lemma AddLine(lines: seq<string>, n: nat, table: Table, id: string, value: string)
    requires n < |lines| && id == Ids(lines)[n] && value == Values(lines)[n]
    ensures AddRows(lines[n..], table) ==
      if !IsPairLine(lines[n]) then (table, Failure(UnexpectedNumberOfColumns))
      else if id in table then (table, Failure(ElementAlreadyExists))
      else AddRows(lines[n + 1..], table[id := ValueInfo(value, false)])
  {
    PairLineParses(lines[n]);
    assert lines[n..][1..] == lines[n + 1..];
    if IsPairLine(lines[n]) {
      AddPairLine(lines[n..], table, id, value);
    } else {
      AddBadLine(lines[n..], table, Failure(UnexpectedNumberOfColumns));
    }
  }

  lemma OneMoreEntry(table: Table, ids: seq<string>, values: seq<string>, n: nat)
    requires n < |ids| == |values| && HasEntries(table, ids[..n], values[..n]) && ids[n] !in ids[..n]
    ensures HasEntries(table[ids[n] := ValueInfo(values[n], false)], ids[..n + 1], values[..n + 1])
  {
    assert ids[..n + 1] == ids[..n] + [ids[n]] && values[..n + 1] == values[..n] + [values[n]];
  }

  /** What the answer is when line `n` is the first that cannot be loaded. */
  function AnswerAt(lines: seq<string>, n: nat): ExecutionResult {
    if n >= |lines| then Success
    else if !IsPairLine(lines[n]) then Failure(UnexpectedNumberOfColumns)
    else Failure(ElementAlreadyExists)
  }

  /** From line `k` on, up to the first line that cannot be loaded. */
  lemma {:induction false} AddLines(lines: seq<string>, k: nat, n: nat, table: Table)
    requires k <= n && LoadsUpTo(lines, n) && HasEntries(table, Ids(lines)[..k], Values(lines)[..k])
    ensures
      var (end, result) := AddRows(lines[k..], table);
      HasEntries(end, Ids(lines)[..n], Values(lines)[..n]) && result == AnswerAt(lines, n)
    decreases n - k
  {
    if k < |lines| {
      var id, value := Ids(lines)[k], Values(lines)[k];
      AddLine(lines, k, table, id, value);
      assert id in table <==> id in Ids(lines)[..k];
      if k < n {
        assert IsLoadable(lines, k);
        OneMoreEntry(table, Ids(lines), Values(lines), k);
        AddLines(lines, k + 1, n, table[id := ValueInfo(value, false)]);
      }
    }
  }

  /** A mapping blob the parser does not take, because of its bytes or its lines, leaves the table empty. */
  lemma TooLargeMapping(blob: string)
    requires |blob| > MAX_BUFFERED_BYTES || |Complete(blob, '\n')| > QUEUE_CAPACITY
    ensures ParseMapping(blob) ==
      (map[], if |blob| > MAX_BUFFERED_BYTES then Retry(BufferAtCapacity) else Failure(QueueFull))
  {
    assert "" + blob == blob;
  }

  lemma ParsedLines(blob: string, lines: seq<string>)
    requires lines == Complete(blob, '\n') && |blob| <= MAX_BUFFERED_BYTES && |lines| <= QUEUE_CAPACITY
    ensures ParseMapping(blob) == AddRows(lines, map[])
  {
    assert "" + blob == blob && [] + lines == lines;
  }

  /** A mapping blob that the parser takes is loaded up to its first line that has not exactly one comma or repeats an
      id. That line decides the answer; without one the answer is a success. */
  lemma MappingAnswer(blob: string, n: nat)
    requires |blob| <= MAX_BUFFERED_BYTES && |Complete(blob, '\n')| <= QUEUE_CAPACITY
    requires LoadsUpTo(Complete(blob, '\n'), n)
    ensures
      var lines := Complete(blob, '\n');
      var (table, result) := ParseMapping(blob);
      HasEntries(table, Ids(lines)[..n], Values(lines)[..n]) && result == AnswerAt(lines, n)
  {
    var lines := Complete(blob, '\n');
    ParsedLines(blob, lines);
    assert lines[0..] == lines;
    AddLines(lines, 0, n, map[]);
  }

  ghost predicate AreDistinct(ids: seq<string>) {
    forall i, j :: 0 <= i < j < |ids| ==> ids[i] != ids[j]
  }

  lemma {:induction false} FirstBadLine(lines: seq<string>, k: nat) returns (n: nat)
    requires k <= |lines| && forall i :: 0 <= i < k ==> IsLoadable(lines, i)
    ensures LoadsUpTo(lines, n)
    decreases |lines| - k
  {
    n := k;
    if k < |lines| && IsLoadable(lines, k) {
      n := FirstBadLine(lines, k + 1);
    }
  }

  lemma LoadsAllIff(lines: seq<string>, n: nat)
    requires LoadsUpTo(lines, n)
    ensures n == |lines| <==> (forall i :: 0 <= i < |lines| ==> IsPairLine(lines[i])) && AreDistinct(Ids(lines))
  {
    var ids := Ids(lines);
    if n == |lines| {
      forall i | 0 <= i < |lines| ensures IsPairLine(lines[i]) {
        assert IsLoadable(lines, i);
      }
      forall i, j | 0 <= i < j < |ids| ensures ids[i] != ids[j] {
        assert IsLoadable(lines, j) && ids[i] in ids[..j];
      }
    } else if IsPairLine(lines[n]) {
      var i :| 0 <= i < n && ids[..n][i] == ids[n];
    }
  }

  /** A mapping is loaded if and only if the parser takes it, every line has exactly one comma, and no two lines have
      the same id; the table then has exactly its lines. */
  lemma MappingLoadsIff(blob: string)
    ensures
      var lines := Complete(blob, '\n');
      ParseMapping(blob).1 == Success <==>
        && |blob| <= MAX_BUFFERED_BYTES && |lines| <= QUEUE_CAPACITY
        && (forall i :: 0 <= i < |lines| ==> IsPairLine(lines[i])) && AreDistinct(Ids(lines))
    ensures
      var lines := Complete(blob, '\n');
      ParseMapping(blob).1 == Success ==> HasEntries(ParseMapping(blob).0, Ids(lines), Values(lines))
  {
    var lines := Complete(blob, '\n');
    if |blob| > MAX_BUFFERED_BYTES || |lines| > QUEUE_CAPACITY {
      TooLargeMapping(blob);
    } else {
      var n := FirstBadLine(lines, 0);
      MappingAnswer(blob, n);
      LoadsAllIff(lines, n);
      assert Ids(lines)[..|lines|] == Ids(lines) && Values(lines)[..|lines|] == Values(lines);
    }
  }
}

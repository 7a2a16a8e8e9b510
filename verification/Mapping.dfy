/** The publisher mapping: how the generator prints it and the match worker reads it back. */
module Mapping {
  import opened Results
  import opened Lines
  import opened Whitespace
  import opened Rows
  import opened Parser
  import opened MatchTable
  import opened Worker

  predicate IsUuidCharacter(c: char) {
    '0' <= c <= '9' || 'A' <= c <= 'F' || 'a' <= c <= 'f' || c == '-'
  }

  /** The printed form of a UUID, which stands for it: 36 hexadecimal digits and dashes. */
  type Uuid = text: string | |text| == 36 && forall i :: 0 <= i < 36 ==> IsUuidCharacter(text[i])
    witness "00000000-0000-0000-0000-000000000000"

  const NIL_UUID: Uuid := "00000000-0000-0000-0000-000000000000"

  datatype PlaintextAndEncrypted = PlaintextAndEncrypted(plaintext: string, encryptedId: Uuid)

  function PrintLine(pair: PlaintextAndEncrypted): string {
    pair.plaintext + "," + pair.encryptedId
  }

  function PrintLines(pairs: seq<PlaintextAndEncrypted>): (lines: seq<string>)
    ensures |lines| == |pairs|
  {
    seq(|pairs|, i requires 0 <= i < |pairs| => PrintLine(pairs[i]))
  }

  /** One `id,uuid` line for each pair. */
  function PrintMapping(pairs: seq<PlaintextAndEncrypted>): string {
    Unlines(PrintLines(pairs), '\n')
  }

  /** The generator's appending loop. */
  method AppendMapping(pairs: seq<PlaintextAndEncrypted>) returns (mapping: string)
    ensures mapping == PrintMapping(pairs)
  {
    mapping := "";
    for i := 0 to |pairs|
      invariant mapping == PrintMapping(pairs[..i])
    {
      assert PrintLines(pairs[..i + 1]) == PrintLines(pairs[..i]) + [PrintLine(pairs[i])];
      UnlinesAppend(PrintLines(pairs[..i]), [PrintLine(pairs[i])], '\n');
      UnlinesOne(PrintLine(pairs[i]), '\n');
      mapping := mapping + (pairs[i].plaintext + "," + pairs[i].encryptedId + "\n");
    }
    assert pairs[..|pairs|] == pairs;
  }

  /** An id that survives printing and parsing. */
  ghost predicate IsPlainId(id: string) {
    IsNormal(id) && ',' !in id && '\n' !in id
  }

  ghost predicate ArePlain(pairs: seq<PlaintextAndEncrypted>) {
    forall i :: 0 <= i < |pairs| ==> IsPlainId(pairs[i].plaintext)
  }

  ghost predicate DistinctIds(pairs: seq<PlaintextAndEncrypted>) {
    forall i, j :: 0 <= i < j < |pairs| ==> pairs[i].plaintext != pairs[j].plaintext
  }

  lemma UuidIsPlain(uuid: Uuid)
    ensures IsPlainId(uuid)
  {
    forall i | 0 <= i < |uuid| ensures !IsSpace(uuid[i]) && uuid[i] != ',' {
      assert IsUuidCharacter(uuid[i]);
    }
  }

  lemma LineParses(pair: PlaintextAndEncrypted)
    requires IsPlainId(pair.plaintext)
    ensures BuildRow(PrintLine(pair), 2, true, ',') == Ok(CsvRow([pair.plaintext, pair.encryptedId]))
    ensures '\n' !in PrintLine(pair)
  {
    var key: string, value: string := pair.plaintext, pair.encryptedId;
    UuidIsPlain(pair.encryptedId);
    SplitCons(key, value, ',');
    FindNone(value, ',');
    assert key + [','] + value == PrintLine(pair);
    assert Complete(PrintLine(pair), ',') == [key] && Rest(PrintLine(pair), ',') == value;
    assert RawColumns(PrintLine(pair), ',') == [key, value];
    NormalizeFixpoint(key);
    NormalizeFixpoint(value);
    assert NormalizeAll([key, value]) == [key, value];
  }

  /** The table that holds exactly the given pairs, none of them matched. */
  ghost predicate Holds(table: Table, pairs: seq<PlaintextAndEncrypted>) {
    && (forall k :: k in table ==> exists i :: 0 <= i < |pairs| && pairs[i].plaintext == k)
    && (forall i :: 0 <= i < |pairs| ==>
          pairs[i].plaintext in table && table[pairs[i].plaintext] == ValueInfo(pairs[i].encryptedId, false))
  }

  lemma AddPrintedRow(rows: seq<string>, pair: PlaintextAndEncrypted, table: Table)
    requires rows != [] && rows[0] == PrintLine(pair) && IsPlainId(pair.plaintext)
    ensures AddRows(rows, table) ==
      if pair.plaintext in table then (table, Failure(ElementAlreadyExists))
      else AddRows(rows[1..], table[pair.plaintext := ValueInfo(pair.encryptedId, false)])
  {
    LineParses(pair);
  }

  /** Adding printed lines one by one to a table that holds the pairs before them. */
  lemma {:induction false} AddPrintedRows(pairs: seq<PlaintextAndEncrypted>, n: nat, table: Table)
    requires n <= |pairs| && ArePlain(pairs) && Holds(table, pairs[..n]) && DistinctIds(pairs[..n])
    ensures
      var (end, result) := AddRows(PrintLines(pairs[n..]), table);
      if DistinctIds(pairs) then result == Success && Holds(end, pairs)
      else result == Failure(ElementAlreadyExists)
    decreases |pairs| - n
  {
    if n == |pairs| {
      assert pairs[..n] == pairs;
    } else {
      var pair := pairs[n];
      var key := pair.plaintext;
      AddPrintedRow(PrintLines(pairs[n..]), pair, table);
      assert PrintLines(pairs[n..])[1..] == PrintLines(pairs[n + 1..]);
      if key in table {
        RepeatedId(pairs, n, table);
      } else {
        HoldsNext(pairs, n, table);
        AddPrintedRows(pairs, n + 1, table[key := ValueInfo(pair.encryptedId, false)]);
      }
    }
  }

  lemma RepeatedId(pairs: seq<PlaintextAndEncrypted>, n: nat, table: Table)
    requires n < |pairs| && Holds(table, pairs[..n]) && pairs[n].plaintext in table
    ensures !DistinctIds(pairs)
  {
    var i :| 0 <= i < |pairs[..n]| && pairs[..n][i].plaintext == pairs[n].plaintext;
    assert pairs[i].plaintext == pairs[n].plaintext;
  }

  lemma HoldsNext(pairs: seq<PlaintextAndEncrypted>, n: nat, table: Table)
    requires n < |pairs| && Holds(table, pairs[..n]) && DistinctIds(pairs[..n]) && pairs[n].plaintext !in table
    ensures Holds(table[pairs[n].plaintext := ValueInfo(pairs[n].encryptedId, false)], pairs[..n + 1])
    ensures DistinctIds(pairs[..n + 1])
  {
    var before, now := pairs[..n], pairs[..n + 1];
    var table' := table[pairs[n].plaintext := ValueInfo(pairs[n].encryptedId, false)];
    forall i | 0 <= i < n ensures now[i] == before[i] && before[i].plaintext in table {
    }
    assert now[n] == pairs[n];
    forall k | k in table' ensures exists i :: 0 <= i < |now| && now[i].plaintext == k {
      if k in table {
        var i :| 0 <= i < n && before[i].plaintext == k;
        assert now[i].plaintext == k;
      } else {
        assert now[n].plaintext == k;
      }
    }
  }

  /** Every printed line takes at least 38 bytes, so a mapping that fits the buffer fits the row queue. */
  lemma MappingFitsQueue(pairs: seq<PlaintextAndEncrypted>)
    requires |PrintMapping(pairs)| <= MAX_BUFFERED_BYTES
    ensures |pairs| <= QUEUE_CAPACITY
  {
    forall i | 0 <= i < |pairs| ensures |PrintLines(pairs)[i]| + 1 >= 38 {
      assert PrintLines(pairs)[i] == PrintLine(pairs[i]);
    }
    UnlinesAtLeast(PrintLines(pairs), '\n', 38);
  }

  lemma ParseOfPrint(pairs: seq<PlaintextAndEncrypted>)
    requires ArePlain(pairs) && |PrintMapping(pairs)| <= MAX_BUFFERED_BYTES
    ensures ParseMapping(PrintMapping(pairs)) == AddRows(PrintLines(pairs), map[])
  {
    var text, lines := PrintMapping(pairs), PrintLines(pairs);
    forall i | 0 <= i < |lines| ensures '\n' !in lines[i] {
      assert lines[i] == PrintLine(pairs[i]);
      LineParses(pairs[i]);
    }
    SplitUnique(lines, "", '\n');
    assert text + "" == text && "" + text == text && [] + lines == lines;
    MappingFitsQueue(pairs);
  }

  /** Print, then parse: the table is exactly the printed pairs if the ids are distinct;
      with a repeated id parsing fails with the duplicate error. */
  lemma MappingRoundTrip(pairs: seq<PlaintextAndEncrypted>)
    requires ArePlain(pairs) && |PrintMapping(pairs)| <= MAX_BUFFERED_BYTES
    ensures ParseMapping(PrintMapping(pairs)).1 == if DistinctIds(pairs) then Success else Failure(ElementAlreadyExists)
    ensures DistinctIds(pairs) ==> Holds(ParseMapping(PrintMapping(pairs)).0, pairs)
  {
    ParseOfPrint(pairs);
    assert pairs[0..] == pairs && pairs[..0] == [];
    AddPrintedRows(pairs, 0, map[]);
  }
}

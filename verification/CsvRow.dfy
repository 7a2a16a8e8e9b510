/** Parsing one CSV row into its columns. */
module Rows {
  import opened Results
  import opened Lines
  import opened Streams
  import opened Whitespace

  datatype CsvRow = CsvRow(columns: seq<string>) {
    function GetColumn(index: nat): ResultOr<string> {
      if index >= |columns| then Err(Failure(ColumnIndexOutOfBounds)) else Ok(columns[index])
    }
  }

  /** The fields of a row: what stands between, before and after the delimiters. */
  function Fields(row: string, delimiter: char): (fields: seq<string>)
    ensures |fields| == |Complete(row, delimiter)| + 1
  {
    Complete(row, delimiter) + [Rest(row, delimiter)]
  }

  function Join(fields: seq<string>, delimiter: char): string
    requires fields != []
  {
    Unlines(fields[..|fields| - 1], delimiter) + fields[|fields| - 1]
  }

  function NormalizeAll(fields: seq<string>): (normal: seq<string>)
    ensures |normal| == |fields|
    ensures forall i :: 0 <= i < |fields| ==> normal[i] == Normalize(fields[i])
  {
    seq(|fields|, i requires 0 <= i < |fields| => Normalize(fields[i]))
  }

  /** The columns as stored, with or without whitespace removal. */
  function Stored(pieces: seq<string>, removeWhitespace: bool): (columns: seq<string>)
    ensures |columns| == |pieces|
  {
    if removeWhitespace then NormalizeAll(pieces) else pieces
  }

  lemma StoredAppend(pieces: seq<string>, piece: string, removeWhitespace: bool)
    ensures Stored(pieces + [piece], removeWhitespace)
      == Stored(pieces, removeWhitespace) + [if removeWhitespace then Normalize(piece) else piece]
  {
  }

  /** The fields, except that an empty last field of a row that ends in a non-space delimiter reads as one space. */
  function RawColumns(row: string, delimiter: char): seq<string>
    requires row != ""
  {
    if Rest(row, delimiter) == "" && delimiter != ' ' then Complete(row, delimiter) + [" "] else Fields(row, delimiter)
  }

  /** What `Build` returns. */
  function BuildRow(row: string, numCols: nat, removeWhitespace: bool, delimiter: char): ResultOr<CsvRow> {
    if row == "" then
      if numCols == 0 then Ok(CsvRow([])) else Err(Failure(UnexpectedNumberOfColumns))
    else
      var raw := RawColumns(row, delimiter);
      if |raw| != numCols then Err(Failure(UnexpectedNumberOfColumns))
      else Ok(CsvRow(Stored(raw, removeWhitespace)))
  }

  /** What a `getline` loop takes out of `text`: a last piece counts only when it is not empty. */
  function Pieces(text: string, delimiter: char): seq<string> {
    Complete(text, delimiter) + LastPiece(Rest(text, delimiter))
  }

  function LastPiece(rest: string): seq<string> {
    if rest == "" then [] else [rest]
  }

  lemma FirstOfPieces(text: string, k: nat, more: string, delimiter: char)
    requires Find(text, delimiter) == k < |text| && more == text[k + 1..]
    ensures Pieces(text, delimiter) == [text[..k]] + Pieces(more, delimiter)
  {
    Regroup([text[..k]], Complete(more, delimiter), LastPiece(Rest(more, delimiter)));
  }

  lemma LastOfPieces(text: string, delimiter: char)
    requires Find(text, delimiter) == |text|
    ensures Pieces(text, delimiter) == LastPiece(text)
  {
  }

  lemma {:induction false} EndsWithDelimiter(row: string, delimiter: char)
    requires row != ""
    ensures Rest(row, delimiter) == "" <==> row[|row| - 1] == delimiter
  {
    SplitJoins(row, delimiter);
    var lines, rest := Complete(row, delimiter), Rest(row, delimiter);
    if rest != "" {
      assert row[|row| - 1] == rest[|rest| - 1];
    } else if lines != [] {
      var init, last := lines[..|lines| - 1], lines[|lines| - 1];
      assert lines == init + [last];
      UnlinesAppend(init, [last], delimiter);
      UnlinesOne(last, delimiter);
    }
  }

  /** Padding the row with a space makes the loop see the empty last field. */
  lemma PaddedPieces(row: string, delimiter: char)
    requires row != ""
    ensures Pieces(row + (if row[|row| - 1] == delimiter then " " else ""), delimiter) == RawColumns(row, delimiter)
  {
    EndsWithDelimiter(row, delimiter);
    SplitConcat(row, " ", delimiter);
    assert row + "" == row;
    if row[|row| - 1] == delimiter {
      assert "" + " " == " ";
      if delimiter == ' ' {
        assert " "[0 + 1..] == "";
        assert Complete(" ", delimiter) == [""];
      }
    }
  }

  lemma TakeFirst<T>(taken: seq<T>, left: seq<T>)
    requires left != []
    ensures taken + left == taken + [left[0]] + left[1..]
  {
  }

  /** The pieces a stream at position `pos` has still to give. */
  function Left(text: string, pos: nat, eof: bool, delimiter: char): seq<string>
    requires pos <= |text|
  {
    if eof then [] else Pieces(text[pos..], delimiter)
  }

  /** A `getline` from position `pos` takes the first of the pieces that are left. */
  lemma NextPiece(text: string, pos: nat, k: nat, delimiter: char)
    requires pos <= |text| && k == Find(text[pos..], delimiter) < |text| - pos
    ensures Left(text, pos, false, delimiter) == [text[pos..][..k]] + Left(text, pos + k + 1, false, delimiter)
  {
    DropDrop(text, pos, k + 1);
    FirstOfPieces(text[pos..], k, text[pos + k + 1..], delimiter);
  }

  /** One `getline`: takes the next of the pieces that are left, or finds none. */
  method TakePiece(stream: StringStream, delimiter: char) returns (ok: bool, piece: string)
    requires stream.Valid() && !stream.failed
    modifies stream
    ensures stream.Valid() && stream.data == old(stream.data) && ok == !stream.failed
    ensures Left(old(stream.data), old(stream.pos), old(stream.eof), delimiter)
      == if ok then [piece] + Left(stream.data, stream.pos, stream.eof, delimiter) else []
  {
    ghost var left := stream.data[stream.pos..];
    ghost var k := Find(left, delimiter);
    if k < |left| {
      NextPiece(stream.data, stream.pos, k, delimiter);
    } else {
      LastOfPieces(left, delimiter);
    }
    ok, piece := stream.GetLine(delimiter);
  }

  /** The `getline` loop of `Build`. */
  method ReadColumns(stream: StringStream, removeWhitespace: bool, delimiter: char) returns (columns: seq<string>)
    requires stream.Valid() && stream.Good() && stream.pos == 0
    modifies stream
    ensures columns == Stored(Pieces(old(stream.data), delimiter), removeWhitespace)
  {
    ghost var text := stream.data;
    columns := [];
    ghost var taken, left := [], Pieces(text, delimiter);
    assert text[0..] == text;
    var ok, column := TakePiece(stream, delimiter);
    while ok
      invariant stream.Valid() && stream.data == text && ok == !stream.failed
      invariant Pieces(text, delimiter) == taken + left
      invariant left == if ok then [column] + Left(text, stream.pos, stream.eof, delimiter) else []
      invariant columns == Stored(taken, removeWhitespace)
      decreases |left|
    {
      StoredAppend(taken, column, removeWhitespace);
      TakeFirst(taken, left);
      taken, left := taken + [column], left[1..];
      columns := columns + [if removeWhitespace then Normalize(column) else column];
      ok, column := TakePiece(stream, delimiter);
    }
    assert taken + left == taken;
  }

  /** Parses a row by reading delimited pieces off a stream. */
  method Build(row: string, numCols: nat, removeWhitespace: bool, delimiter: char) returns (r: ResultOr<CsvRow>)
    ensures r == BuildRow(row, numCols, removeWhitespace, delimiter)
  {
    if |row| == 0 && numCols == 0 {
      return Ok(CsvRow([]));
    }
    if |row| == 0 && numCols != 0 {
      return Err(Failure(UnexpectedNumberOfColumns));
    }
    var stream := new StringStream();
    stream.Insert(row);
    if row[|row| - 1] == delimiter {
      stream.Insert(" ");
    }
    assert stream.data == row + (if row[|row| - 1] == delimiter then " " else "");
    PaddedPieces(row, delimiter);
    var columns := ReadColumns(stream, removeWhitespace, delimiter);
    if |columns| != numCols {
      return Err(Failure(UnexpectedNumberOfColumns));
    }
    return Ok(CsvRow(columns));
  }

  /** A row is accepted exactly when it is empty and no column is expected,
      or it has one column more than delimiters; it then has its columns and no others. */
  lemma BuildSucceedsIff(row: string, numCols: nat, removeWhitespace: bool, delimiter: char)
    ensures BuildRow(row, numCols, removeWhitespace, delimiter).Ok? <==>
      if row == "" then numCols == 0 else numCols == 1 + multiset(row)[delimiter]
    ensures match BuildRow(row, numCols, removeWhitespace, delimiter)
      case Err(result) => result == Failure(UnexpectedNumberOfColumns)
      case Ok(parsed) =>
        && (forall i: nat :: parsed.GetColumn(i).Ok? <==> i < numCols)
        && (forall i: nat :: parsed.GetColumn(i).Err? ==> parsed.GetColumn(i).result == Failure(ColumnIndexOutOfBounds))
  {
    CompleteCount(row, delimiter);
  }

  lemma FieldsJoin(row: string, delimiter: char)
    ensures Join(Fields(row, delimiter), delimiter) == row
  {
    SplitJoins(row, delimiter);
    assert Fields(row, delimiter)[..|Fields(row, delimiter)| - 1] == Complete(row, delimiter);
  }

  /** Without whitespace removal the joined columns give the row back,
      with one extra space when the row ends in a delimiter that is not a space. */
  lemma ColumnsJoin(row: string, numCols: nat, delimiter: char)
    requires row != "" && BuildRow(row, numCols, false, delimiter).Ok?
    ensures Join(BuildRow(row, numCols, false, delimiter).value.columns, delimiter)
      == row + (if row[|row| - 1] == delimiter != ' ' then " " else "")
  {
    EndsWithDelimiter(row, delimiter);
    SplitJoins(row, delimiter);
    var columns := RawColumns(row, delimiter);
    assert columns[..|columns| - 1] == Complete(row, delimiter);
  }

  /** With whitespace removal the columns are the normal forms of the fields; the padding never shows. */
  lemma ColumnsNormal(row: string, numCols: nat, delimiter: char)
    requires row != "" && BuildRow(row, numCols, true, delimiter).Ok?
    ensures BuildRow(row, numCols, true, delimiter).value.columns == NormalizeAll(Fields(row, delimiter))
  {
    assert " "[1..] == "" && Normalize(" ") == "" == Normalize("");
  }

  /** A carriage return at the end of a row, as in a list with Windows line ends, does not show in its columns. */
  lemma CarriageReturnVanishes(row: string, numCols: nat, delimiter: char)
    requires row != "" && delimiter != '\r'
    ensures BuildRow(row + "\r", numCols, true, delimiter) == BuildRow(row, numCols, true, delimiter)
  {
    var long, rest := row + "\r", Rest(row, delimiter);
    SplitConcat(row, "\r", delimiter);
    SplitJoins(row, delimiter);
    FindNone(rest + "\r", delimiter);
    NormalizeLosesBlanksOnly("", rest, "\r");
    assert "" + rest + "\r" == rest + "\r";
    assert Fields(long, delimiter) == Complete(row, delimiter) + [rest + "\r"];
    assert NormalizeAll(Fields(long, delimiter)) == NormalizeAll(Fields(row, delimiter));
    if numCols == |Fields(row, delimiter)| {
      ColumnsNormal(long, numCols, delimiter);
      ColumnsNormal(row, numCols, delimiter);
    }
  }
}

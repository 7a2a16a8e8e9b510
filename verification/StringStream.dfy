/** The parts of `std::stringstream` the scanners rely on: a get cursor and the eof and fail flags. */
module Streams {
  import opened Lines

  class StringStream {
    var data: string
    var pos: nat
    var eof: bool
    var failed: bool

    predicate Good()
      reads this
    {
      !eof && !failed
    }

    ghost predicate Valid()
      reads this
    {
      pos <= |data|
    }

    constructor ()
      ensures Valid() && Good() && data == "" && pos == 0
    {
      data, pos, eof, failed := "", 0, false, false;
    }

    /** Move construction: the buffer, cursor and flags move over; the source keeps only its flags. */
    constructor MoveFrom(source: StringStream)
      requires source.Valid()
      modifies source
      ensures Valid() && data == old(source.data) && pos == old(source.pos)
      ensures eof == old(source.eof) && failed == old(source.failed)
      ensures source.Valid() && source.data == "" && source.pos == 0
      ensures source.eof == old(source.eof) && source.failed == old(source.failed)
    {
      data, pos, eof, failed := source.data, source.pos, source.eof, source.failed;
      new;
      source.data, source.pos := "", 0;
    }

    /** Appends text; a stream with a flag set takes nothing and fails. */
    method Insert(text: string)
      requires Valid()
      modifies this
      ensures Valid() && pos == old(pos) && eof == old(eof)
      ensures data == if old(Good()) then old(data) + text else old(data)
      ensures failed == !old(Good())
    {
      if Good() {
        data := data + text;
      } else {
        failed := true;
      }
    }

    /** Inserts what `source` has left to read; inserting nothing sets the fail flag. */
    method InsertBuffer(source: StringStream)
      requires Valid() && source.Valid() && source != this
      modifies this, source
      ensures Valid() && source.Valid()
      ensures pos == old(pos) && eof == old(eof)
      ensures source.data == old(source.data) && source.eof == old(source.eof) && source.failed == old(source.failed)
      ensures old(Good()) ==> data == old(data) + old(source.data[source.pos..])
      ensures old(Good()) ==> (failed <==> old(source.pos == |source.data|))
      ensures !old(Good()) ==> data == old(data) && failed
    {
      if Good() {
        if source.pos == |source.data| {
          failed := true;
        } else {
          data := data + source.data[source.pos..];
          source.pos := |source.data|;
        }
      } else {
        failed := true;
      }
    }

    /** `std::getline`: takes up to the delimiter or the end; reaching the end sets eof, taking nothing fails. */
    method GetLine(delimiter: char) returns (ok: bool, line: string)
      requires Valid()
      modifies this
      ensures Valid() && data == old(data) && ok == !failed
      ensures !old(Good()) ==> failed && pos == old(pos) && eof == old(eof)
      ensures old(Good()) ==>
        var left := data[old(pos)..];
        var k := Find(left, delimiter);
        if k < |left|
        then Good() && line == left[..k] && pos == old(pos) + k + 1
        else eof && pos == |data| && line == left && (failed <==> left == "")
    {
      line := "";
      if Good() {
        var left := data[pos..];
        var k := Find(left, delimiter);
        line := left[..k];
        if k < |left| {
          pos := pos + k + 1;
        } else {
          pos := |data|;
          eof := true;
          failed := left == "";
        }
      } else {
        failed := true;
      }
      ok := !failed;
    }

    /** Reads one character, or -1 at the end or on a stream with a flag set. */
    method Get() returns (c: int)
      requires Valid()
      modifies this
      ensures Valid() && data == old(data)
      ensures if old(Good() && pos < |data|)
              then c == data[old(pos)] as int && pos == old(pos) + 1 && Good()
              else c == -1 && failed && pos == old(pos)
    {
      if !Good() || pos == |data| {
        eof := eof || !failed;
        failed := true;
        c := -1;
      } else {
        c := data[pos] as int;
        pos := pos + 1;
      }
    }

    /** The get position; asking a stream at eof sets the fail flag and yields -1. */
    method Tellg() returns (p: int)
      requires Valid()
      modifies this
      ensures Valid() && data == old(data) && pos == old(pos) && eof == old(eof)
      ensures failed == old(failed || eof)
      ensures p == if failed then -1 else pos
    {
      failed := failed || eof;
      p := if failed then -1 else pos;
    }

    /** Clears eof, then moves to an absolute position; a position outside the buffer fails. */
    method SeekTo(target: int)
      requires Valid()
      modifies this
      ensures Valid() && data == old(data) && !eof
      ensures failed == (old(failed) || !(0 <= target <= |data|))
      ensures pos == if failed then old(pos) else target
    {
      eof := false;
      if !failed && 0 <= target <= |data| {
        pos := target;
      } else {
        failed := true;
      }
    }

    /** `seekg(offset, ios::beg)`. */
    method SeekFromBegin(offset: int)
      requires Valid()
      modifies this
      ensures Valid() && data == old(data) && !eof
      ensures failed == (old(failed) || !(0 <= offset <= |data|))
      ensures pos == if failed then old(pos) else offset
    {
      SeekTo(offset);
    }

    /** `seekg(offset, ios::cur)`. */
    method SeekFromCurrent(offset: int)
      requires Valid()
      modifies this
      ensures Valid() && data == old(data) && !eof
      ensures failed == (old(failed) || !(0 <= old(pos) + offset <= |data|))
      ensures pos == if failed then old(pos) else old(pos) + offset
    {
      SeekTo(pos + offset);
    }

    /** `seekg(0, ios::end)`. */
    method SeekEnd()
      requires Valid()
      modifies this
      ensures Valid() && data == old(data) && !eof && failed == old(failed)
      ensures pos == if failed then old(pos) else |data|
    {
      SeekTo(|data|);
    }

    /** Clears both flags and leaves the contents alone. */
    method Clear()
      requires Valid()
      modifies this`eof, this`failed
      ensures Valid() && Good()
    {
      eof, failed := false, false;
    }
  }
}

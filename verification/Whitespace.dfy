/** `absl::RemoveExtraAsciiWhitespace`: strips both ends, keeps the last character of an inner run. */
module Whitespace {

  predicate IsSpace(c: char) {
    c == ' ' || '\t' <= c <= '\r'
  }

  function TrimLeft(s: string): string {
    if s != [] && IsSpace(s[0]) then TrimLeft(s[1..]) else s
  }

  function TrimRight(s: string): string {
    if s != [] && IsSpace(s[|s| - 1]) then TrimRight(s[..|s| - 1]) else s
  }

  function Collapse(s: string): string {
    if |s| < 2 then s
    else if IsSpace(s[0]) && IsSpace(s[1]) then Collapse(s[1..])
    else [s[0]] + Collapse(s[1..])
  }

  function Normalize(s: string): string {
    Collapse(TrimRight(TrimLeft(s)))
  }

  /** No space at either end, no two spaces in a row. */
  ghost predicate IsNormal(s: string) {
    && (s != [] ==> !IsSpace(s[0]) && !IsSpace(s[|s| - 1]))
    && forall i :: 0 <= i < |s| - 1 ==> !(IsSpace(s[i]) && IsSpace(s[i + 1]))
  }

  /** `part` is what is left of `whole` when some characters are struck out. */
  ghost predicate IsSubsequence(part: string, whole: string) {
    || part == ""
    || (whole != "" && IsSubsequence(part, whole[1..]))
    || (whole != "" && part[0] == whole[0] && IsSubsequence(part[1..], whole[1..]))
  }

  /** What is struck out of a prefix is struck out of the whole. */
  lemma {:induction false} SubsequenceOfPrefix(part: string, prefix: string, whole: string)
    requires prefix <= whole && IsSubsequence(part, prefix)
    ensures IsSubsequence(part, whole)
    decreases |whole|
  {
    if part != "" {
      if IsSubsequence(part, prefix[1..]) {
        SubsequenceOfPrefix(part, prefix[1..], whole[1..]);
      } else {
        SubsequenceOfPrefix(part[1..], prefix[1..], whole[1..]);
      }
    }
  }

  lemma {:induction false} SubsequenceKeepsOut(part: string, whole: string)
    requires IsSubsequence(part, whole)
    ensures forall c :: c in part ==> c in whole
    decreases |whole|
  {
    if part != "" {
      if IsSubsequence(part, whole[1..]) {
        SubsequenceKeepsOut(part, whole[1..]);
      } else {
        SubsequenceKeepsOut(part[1..], whole[1..]);
        assert part == [part[0]] + part[1..];
      }
    }
  }

  lemma {:induction false} TrimLeftKeeps(s: string)
    ensures TrimLeft(s) != [] ==> !IsSpace(TrimLeft(s)[0])
    ensures forall part | IsSubsequence(part, TrimLeft(s)) :: IsSubsequence(part, s)
  {
    if s != [] && IsSpace(s[0]) {
      TrimLeftKeeps(s[1..]);
    }
  }

  lemma {:induction false} TrimRightKeeps(s: string)
    ensures TrimRight(s) <= s
    ensures TrimRight(s) != [] ==> !IsSpace(TrimRight(s)[|TrimRight(s)| - 1])
  {
    if s != [] && IsSpace(s[|s| - 1]) {
      TrimRightKeeps(s[..|s| - 1]);
      assert s[..|s| - 1] <= s;
    }
  }

  lemma {:induction false} CollapseStrikes(s: string)
    ensures IsSubsequence(Collapse(s), s)
  {
    if |s| >= 2 {
      CollapseStrikes(s[1..]);
    } else if s != "" {
      assert IsSubsequence(s[1..], s[1..]);
    }
  }

  lemma {:induction false} CollapseKeeps(s: string)
    ensures s != [] ==> Collapse(s) != [] && Collapse(s)[|Collapse(s)| - 1] == s[|s| - 1]
    ensures s != [] ==> IsSpace(Collapse(s)[0]) == IsSpace(s[0])
    ensures forall i :: 0 <= i < |Collapse(s)| - 1 ==> !(IsSpace(Collapse(s)[i]) && IsSpace(Collapse(s)[i + 1]))
  {
    if |s| >= 2 {
      CollapseKeeps(s[1..]);
    }
  }

  lemma {:induction false} CollapseNormal(s: string)
    requires forall i :: 0 <= i < |s| - 1 ==> !(IsSpace(s[i]) && IsSpace(s[i + 1]))
    ensures Collapse(s) == s
  {
    if |s| >= 2 {
      assert !(IsSpace(s[0]) && IsSpace(s[0 + 1]));
      forall i | 0 <= i < |s[1..]| - 1 ensures !(IsSpace(s[1..][i]) && IsSpace(s[1..][i + 1])) {
        assert !(IsSpace(s[i + 1]) && IsSpace(s[i + 1 + 1]));
      }
      CollapseNormal(s[1..]);
    }
  }

  /** The result is in normal form, and is the input with characters struck out. */
  lemma NormalizeIsNormal(s: string)
    ensures IsNormal(Normalize(s)) && IsSubsequence(Normalize(s), s)
    ensures forall c :: c in Normalize(s) ==> c in s
  {
    var left := TrimLeft(s);
    var trimmed := TrimRight(left);
    TrimLeftKeeps(s);
    TrimRightKeeps(left);
    CollapseKeeps(trimmed);
    CollapseStrikes(trimmed);
    assert trimmed != [] ==> trimmed[0] == left[0];
    SubsequenceOfPrefix(Normalize(s), trimmed, left);
    SubsequenceKeepsOut(Normalize(s), s);
  }

  /** The strings left as they are are exactly those in normal form; hence normalising twice is normalising once. */
  lemma NormalizeFixpoint(s: string)
    ensures Normalize(s) == s <==> IsNormal(s)
    ensures Normalize(Normalize(s)) == Normalize(s)
  {
    NormalizeIsNormal(s);
    CollapseNormal(Normalize(s));
    if IsNormal(s) {
      CollapseNormal(s);
    }
  }

  // What is kept, said of the characters of the input.

  /** The six ASCII spaces: space, tab, line feed, vertical tab, form feed and carriage return. */
  predicate IsBlank(c: char) {
    c == ' ' || c == '\t' || c == '\n' || c == '\U{000B}' || c == '\U{000C}' || c == '\r'
  }

  /** A character is kept if it is no blank, or the last of a run of blanks that stands between others. */
  ghost predicate IsKept(s: string, i: nat)
    requires i < |s|
  {
    !IsBlank(s[i]) || (i + 1 < |s| && !IsBlank(s[i + 1]) && exists j :: 0 <= j < i && !IsBlank(s[j]))
  }

  /** The kept characters from position `i` on. */
  ghost function KeptFrom(s: string, i: nat): string
    requires i <= |s|
    decreases |s| - i
  {
    if i == |s| then "" else (if IsKept(s, i) then [s[i]] else "") + KeptFrom(s, i + 1)
  }

  /** The same in one pass; `seen` tells whether there was a character that is no blank. */
  function Keep(s: string, seen: bool): string {
    if s == "" then ""
    else if !IsBlank(s[0]) then [s[0]] + Keep(s[1..], true)
    else if seen && |s| > 1 && !IsBlank(s[1]) then [s[0]] + Keep(s[1..], seen)
    else Keep(s[1..], seen)
  }

  lemma {:induction false} KeepIsKept(s: string, i: nat)
    requires i <= |s|
    ensures KeptFrom(s, i) == Keep(s[i..], exists j :: 0 <= j < i && !IsBlank(s[j]))
    decreases |s| - i
  {
    if i < |s| {
      KeepIsKept(s, i + 1);
      assert s[i..][1..] == s[i + 1..];
      assert (exists j :: 0 <= j < i + 1 && !IsBlank(s[j]))
        <==> (exists j :: 0 <= j < i && !IsBlank(s[j])) || !IsBlank(s[i]);
    }
  }

  lemma {:induction false} KeepTrimsLeft(s: string)
    ensures Keep(s, false) == Keep(TrimLeft(s), true)
  {
    if s != "" && IsSpace(s[0]) {
      KeepTrimsLeft(s[1..]);
    }
  }

  lemma {:induction false} KeepDropsLast(s: string, blank: char, seen: bool)
    requires IsBlank(blank)
    ensures Keep(s + [blank], seen) == Keep(s, seen)
  {
    if s != "" {
      assert (s + [blank])[1..] == s[1..] + [blank];
      KeepDropsLast(s[1..], blank, seen || !IsBlank(s[0]));
    }
  }

  lemma {:induction false} KeepTrimsRight(s: string, seen: bool)
    ensures Keep(s, seen) == Keep(TrimRight(s), seen)
  {
    if s != "" && IsSpace(s[|s| - 1]) {
      var init := s[..|s| - 1];
      assert s == init + [s[|s| - 1]];
      KeepDropsLast(init, s[|s| - 1], seen);
      KeepTrimsRight(init, seen);
    }
  }

  lemma {:induction false} KeepCollapses(s: string)
    requires s != "" ==> !IsSpace(s[|s| - 1])
    ensures Keep(s, true) == Collapse(s)
  {
    if s != "" {
      KeepCollapses(s[1..]);
    }
  }

  lemma NormalizeIsKeep(s: string)
    ensures Normalize(s) == Keep(s, false)
  {
    KeepTrimsLeft(s);
    KeepTrimsRight(TrimLeft(s), true);
    TrimRightKeeps(TrimLeft(s));
    KeepCollapses(TrimRight(TrimLeft(s)));
  }

  /** Exactly what is left: every character that is no blank, and of each run of blanks between two such characters
      the last one; in order, and nothing else. */
  lemma NormalizeKeeps(s: string)
    ensures Normalize(s) == KeptFrom(s, 0)
  {
    NormalizeIsKeep(s);
    KeepIsKept(s, 0);
    assert s[0..] == s;
  }

  function NonBlanks(s: string): string {
    if s == "" then "" else (if IsBlank(s[0]) then "" else [s[0]]) + NonBlanks(s[1..])
  }

  lemma {:induction false} KeepNonBlanks(s: string, seen: bool)
    ensures NonBlanks(Keep(s, seen)) == NonBlanks(s)
  {
    if s != "" {
      KeepNonBlanks(s[1..], seen || !IsBlank(s[0]));
    }
  }

  ghost predicate AllBlank(s: string) {
    forall i :: 0 <= i < |s| ==> IsBlank(s[i])
  }

  lemma {:induction false} KeepDropsBefore(blanks: string, s: string)
    requires AllBlank(blanks)
    ensures Keep(blanks + s, false) == Keep(s, false)
  {
    if blanks == "" {
      assert blanks + s == s;
    } else {
      assert (blanks + s)[1..] == blanks[1..] + s;
      KeepDropsBefore(blanks[1..], s);
    }
  }

  lemma {:induction false} KeepDropsAfter(s: string, blanks: string)
    requires AllBlank(blanks)
    ensures Keep(s + blanks, false) == Keep(s, false)
  {
    if blanks == "" {
      assert s + blanks == s;
    } else {
      var init, last := blanks[..|blanks| - 1], blanks[|blanks| - 1];
      assert s + blanks == s + init + [last];
      KeepDropsLast(s + init, last, false);
      KeepDropsAfter(s, init);
    }
  }

  /** No character but blanks is lost or moved, and blanks before and after a text do not matter. */
  lemma NormalizeLosesBlanksOnly(before: string, s: string, after: string)
    requires AllBlank(before) && AllBlank(after)
    ensures NonBlanks(Normalize(s)) == NonBlanks(s)
    ensures Normalize(before + s + after) == Normalize(s)
  {
    NormalizeIsKeep(s);
    NormalizeIsKeep(before + s + after);
    KeepNonBlanks(s, false);
    KeepDropsAfter(before + s, after);
    KeepDropsBefore(before, s);
  }
}

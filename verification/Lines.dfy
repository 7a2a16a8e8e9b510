/** Splitting text on a separator: the reference that the scanning loops are proved against. */
module Lines {

  /** Position of the first `b`, or `|s|` when there is none. */
  function Find(s: string, b: char): (k: nat)
    ensures k <= |s|
    ensures b !in s[..k]
    ensures k < |s| ==> s[k] == b
  {
    if s == [] || s[0] == b then 0 else 1 + Find(s[1..], b)
  }

  /** The lines of `s` that are ended by a `b`. */
  function Complete(s: string, b: char): seq<string>
    decreases |s|
  {
    var k := Find(s, b);
    if k == |s| then [] else [s[..k]] + Complete(s[k + 1..], b)
  }

  /** What follows the last `b` of `s`. */
  function Rest(s: string, b: char): string
    decreases |s|
  {
    var k := Find(s, b);
    if k == |s| then s else Rest(s[k + 1..], b)
  }

  /** Every line followed by `b`. */
  function Unlines(ls: seq<string>, b: char): string {
    if ls == [] then "" else ls[0] + [b] + Unlines(ls[1..], b)
  }

  ghost predicate AllFree(ls: seq<string>, b: char) {
    forall i :: 0 <= i < |ls| ==> b !in ls[i]
  }

  function Concat(parts: seq<string>): string {
    if parts == [] then "" else parts[0] + Concat(parts[1..])
  }

  lemma {:induction false} FindIsFirst(s: string, b: char, k: nat)
    requires k < |s| && s[k] == b && b !in s[..k]
    ensures Find(s, b) == k
  {
    if k > 0 {
      assert s[0] == s[..k][0];
      assert s[1..][..k - 1] == s[..k][1..];
      FindIsFirst(s[1..], b, k - 1);
    }
  }

  lemma FindNone(s: string, b: char)
    requires b !in s
    ensures Find(s, b) == |s|
  {
  }

  lemma FirstLine(text: string, k: nat, more: string, b: char)
    requires Find(text, b) == k < |text| && more == text[k + 1..]
    ensures Complete(text, b) == [text[..k]] + Complete(more, b) && Rest(text, b) == Rest(more, b)
  {
  }

  lemma LastLine(text: string, b: char)
    requires Find(text, b) == |text|
    ensures Complete(text, b) == [] && Rest(text, b) == text && b !in text
  {
    assert text[..|text|] == text;
  }

  /** Scanning a text from `start`: the next line and what is left after it. */
  lemma NextLine(text: string, start: nat, k: nat, b: char)
    requires start <= |text| && k == Find(text[start..], b) < |text| - start
    ensures Complete(text[start..], b) == [text[start..][..k]] + Complete(text[start + k + 1..], b)
    ensures Rest(text[start..], b) == Rest(text[start + k + 1..], b)
  {
    DropDrop(text, start, k + 1);
    FirstLine(text[start..], k, text[start + k + 1..], b);
  }

  lemma DropDrop<T>(s: seq<T>, i: nat, j: nat)
    requires i + j <= |s|
    ensures s[i..][j..] == s[i + j..]
  {
  }

  /** Cutting into lines and gluing the lines back together loses nothing. */
  lemma {:induction false} SplitJoins(s: string, b: char)
    ensures Unlines(Complete(s, b), b) + Rest(s, b) == s
    ensures AllFree(Complete(s, b), b) && b !in Rest(s, b)
    decreases |s|
  {
    var k := Find(s, b);
    if k < |s| {
      var l, more := s[..k], s[k + 1..];
      SplitJoins(more, b);
      CutAt(s, k);
      GlueLine(l, Complete(more, b), Rest(more, b), b);
    } else {
      assert s[..k] == s;
    }
  }

  lemma CutAt<T>(s: seq<T>, k: nat)
    requires k < |s|
    ensures s == s[..k] + [s[k]] + s[k + 1..]
  {
  }

  lemma GlueLine(l: string, ls: seq<string>, rest: string, b: char)
    requires b !in l && AllFree(ls, b)
    ensures Unlines([l] + ls, b) + rest == l + [b] + (Unlines(ls, b) + rest)
    ensures AllFree([l] + ls, b)
  {
    UnlinesCons(l, ls, b);
    Regroup(l + [b], Unlines(ls, b), rest);
  }

  lemma Regroup<T>(a: seq<T>, c: seq<T>, d: seq<T>)
    ensures a + c + d == a + (c + d)
  {
  }

  lemma UnlinesCons(l: string, ls: seq<string>, b: char)
    ensures Unlines([l] + ls, b) == l + [b] + Unlines(ls, b)
  {
    assert ([l] + ls)[1..] == ls;
  }

  lemma SplitCons(l: string, more: string, b: char)
    requires b !in l
    ensures Complete(l + [b] + more, b) == [l] + Complete(more, b)
    ensures Rest(l + [b] + more, b) == Rest(more, b)
  {
    var s := l + [b] + more;
    assert s[..|l|] == l && s[|l| + 1..] == more;
    FindIsFirst(s, b, |l|);
  }

  /** A text that starts with lines `ls` splits into `ls` and the split of what follows. */
  lemma {:induction false} SplitPrefix(ls: seq<string>, t: string, b: char)
    requires AllFree(ls, b)
    ensures Complete(Unlines(ls, b) + t, b) == ls + Complete(t, b)
    ensures Rest(Unlines(ls, b) + t, b) == Rest(t, b)
  {
    if ls == [] {
      assert Unlines(ls, b) + t == t;
    } else {
      var l, glued := ls[0], Unlines(ls[1..], b);
      Regroup(l + [b], glued, t);
      SplitCons(l, glued + t, b);
      SplitPrefix(ls[1..], t, b);
      Regroup([l], ls[1..], Complete(t, b));
      assert ls == [l] + ls[1..];
    }
  }

  /** The split is the only way to write `s` as terminated lines and an unterminated rest. */
  lemma SplitUnique(ls: seq<string>, t: string, b: char)
    requires AllFree(ls, b) && b !in t
    ensures Complete(Unlines(ls, b) + t, b) == ls
    ensures Rest(Unlines(ls, b) + t, b) == t
  {
    SplitPrefix(ls, t, b);
    FindNone(t, b);
  }

  /** A text of terminated lines splits into them. */
  lemma SplitWhole(ls: seq<string>, b: char)
    requires AllFree(ls, b)
    ensures Complete(Unlines(ls, b), b) == ls && Rest(Unlines(ls, b), b) == ""
  {
    SplitUnique(ls, "", b);
    assert Unlines(ls, b) + "" == Unlines(ls, b);
  }

  lemma UnlinesCut(ls: seq<string>, n: nat, b: char)
    requires n <= |ls|
    ensures |Unlines(ls, b)| == |Unlines(ls[..n], b)| + |Unlines(ls[n..], b)|
  {
    UnlinesAppend(ls[..n], ls[n..], b);
    assert ls[..n] + ls[n..] == ls;
  }

  /** Splitting in two steps, with the unfinished rest carried over, is splitting at once. */
  lemma SplitConcat(s: string, t: string, b: char)
    ensures Complete(s + t, b) == Complete(s, b) + Complete(Rest(s, b) + t, b)
    ensures Rest(s + t, b) == Rest(Rest(s, b) + t, b)
  {
    SplitJoins(s, b);
    assert s + t == Unlines(Complete(s, b), b) + (Rest(s, b) + t);
    SplitPrefix(Complete(s, b), Rest(s, b) + t, b);
  }

  lemma {:induction false} UnlinesAppend(a: seq<string>, c: seq<string>, b: char)
    ensures Unlines(a + c, b) == Unlines(a, b) + Unlines(c, b)
  {
    if a == [] {
      assert a + c == c;
    } else {
      assert (a + c)[1..] == a[1..] + c;
      UnlinesAppend(a[1..], c, b);
    }
  }

  lemma UnlinesOne(l: string, b: char)
    ensures Unlines([l], b) == l + [b]
  {
    assert Unlines([l][1..], b) == "";
  }

  /** Moving the next line from the text that follows to the lines leaves the whole unchanged. */
  lemma NextLineMoves(ls: seq<string>, line: string, left: string, b: char)
    ensures Unlines(ls + [line], b) + left == Unlines(ls, b) + (line + [b] + left)
  {
    UnlinesAppend(ls, [line], b);
    UnlinesOne(line, b);
    Regroup(Unlines(ls, b), line + [b], left);
  }

  lemma {:induction false} ConcatAppend(a: seq<string>, c: seq<string>)
    ensures Concat(a + c) == Concat(a) + Concat(c)
  {
    if a == [] {
      assert a + c == c;
    } else {
      assert (a + c)[1..] == a[1..] + c;
      ConcatAppend(a[1..], c);
    }
  }

  lemma ConcatOne(s: string)
    ensures Concat([s]) == s
  {
    assert [s][1..] == [];
  }

  /** Lines of at least `k` bytes each, line break included, occupy at least `k` times their number. */
  lemma {:induction false} UnlinesAtLeast(ls: seq<string>, b: char, k: nat)
    requires forall i :: 0 <= i < |ls| ==> |ls[i]| + 1 >= k
    ensures |Unlines(ls, b)| >= k * |ls|
  {
    if ls != [] {
      assert |ls[0]| + 1 >= k;
      UnlinesAtLeast(ls[1..], b, k);
      assert k * |ls| == k + k * |ls[1..]|;
    }
  }

  /** Lines of exactly `k` bytes each occupy exactly `k` times their number. */
  lemma {:induction false} UnlinesExactly(ls: seq<string>, b: char, k: nat)
    requires forall i :: 0 <= i < |ls| ==> |ls[i]| + 1 == k
    ensures |Unlines(ls, b)| == k * |ls|
  {
    if ls != [] {
      assert |ls[0]| + 1 == k;
      UnlinesExactly(ls[1..], b, k);
      assert k * |ls| == k + k * |ls[1..]|;
    }
  }

  lemma CountCut(s: string, k: nat, b: char)
    requires k < |s| && s[k] == b && b !in s[..k]
    ensures multiset(s)[b] == 1 + multiset(s[k + 1..])[b]
  {
    CutAt(s, k);
    assert multiset(s) == multiset(s[..k]) + multiset{b} + multiset(s[k + 1..]);
  }

  /** There are as many complete lines as separators. */
  lemma {:induction false} CompleteCount(s: string, b: char)
    ensures |Complete(s, b)| == multiset(s)[b]
    decreases |s|
  {
    var k := Find(s, b);
    if k < |s| {
      CompleteCount(s[k + 1..], b);
      CountCut(s, k, b);
    } else {
      assert s[..k] == s;
    }
  }
}

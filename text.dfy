/** `Join` models JavaScript's `Array.prototype.join`, which the query string
    helper uses. The rest are reference definitions for the proofs: `Split`
    (one-character `split`) reads a query string back, `CountChar` counts the
    `?` in a URL, and `LexLess` (code-unit order) orders the sector table. */
module Text {

  /** `pieces.join(sep)`: the pieces in order with `sep` between neighbours. */
  function Join(pieces: seq<string>, sep: string): string
  {
    if |pieces| == 0 then ""
    else if |pieces| == 1 then pieces[0]
    else pieces[0] + sep + Join(pieces[1..], sep)
  }

  /** `s.split(c)`: the pieces between consecutive occurrences of `c`, empty
      ones included, in order; the empty string splits into one empty piece. */
  function Split(s: string, c: char): (r: seq<string>)
    ensures |r| >= 1
  {
    if |s| == 0 then [""]
    else
      var rest := Split(s[1..], c);
      if s[0] == c then [""] + rest
      else [[s[0]] + rest[0]] + rest[1..]
  }

  /** The number of occurrences of `c` in `s`. */
  function CountChar(s: string, c: char): nat
  {
    if |s| == 0 then 0
    else (if s[0] == c then 1 else 0) + CountChar(s[1..], c)
  }

  /** Strict lexicographic order on characters, as `a < b` on JavaScript
      strings of one code unit per character. */
  predicate LexLess(a: string, b: string)
  {
    if |a| == 0 then |b| > 0
    else if |b| == 0 then false
    else if a[0] == b[0] then LexLess(a[1..], b[1..])
    else a[0] < b[0]
  }

  /** Each element is strictly below its successor. */
  predicate StrictlyAscending(s: seq<string>)
  {
    forall i :: 0 <= i < |s| - 1 ==> LexLess(s[i], s[i + 1])
  }

  /** No string occurs twice. */
  predicate PairwiseDistinct(s: seq<string>)
  {
    forall i, j :: 0 <= i < j < |s| ==> s[i] != s[j]
  }

  lemma {:induction false} SplitWithout(s: string, c: char)
    requires c !in s
    ensures Split(s, c) == [s]
  {
    if |s| > 0 {
      assert c !in s[1..];
      SplitWithout(s[1..], c);
      assert [s[0]] + s[1..] == s;
    }
  }

  /** Splitting at a separator in front of which no separator occurs. */
  lemma {:induction false} SplitAtFirst(a: string, c: char, b: string)
    requires c !in a
    ensures Split(a + [c] + b, c) == [a] + Split(b, c)
  {
    if |a| == 0 {
      assert a + [c] + b == [c] + b;
      assert ([c] + b)[1..] == b;
    } else {
      assert (a + [c] + b)[1..] == a[1..] + [c] + b;
      assert c !in a[1..];
      SplitAtFirst(a[1..], c, b);
      assert [a[0]] + a[1..] == a;
    }
  }

  /** Splitting a join on a one-character separator recovers the pieces when
      no piece contains the separator. */
  lemma {:induction false} SplitJoin(pieces: seq<string>, c: char)
    requires |pieces| > 0
    requires forall i :: 0 <= i < |pieces| ==> c !in pieces[i]
    ensures Split(Join(pieces, [c]), c) == pieces
  {
    if |pieces| == 1 {
      SplitWithout(pieces[0], c);
    } else {
      SplitJoin(pieces[1..], c);
      SplitAtFirst(pieces[0], c, Join(pieces[1..], [c]));
      assert [pieces[0]] + pieces[1..] == pieces;
    }
  }

  /** Joining two non-empty runs of pieces puts one separator between them. */
  lemma {:induction false} JoinAppend(a: seq<string>, b: seq<string>, sep: string)
    requires |a| > 0 && |b| > 0
    ensures Join(a + b, sep) == Join(a, sep) + sep + Join(b, sep)
  {
    if |a| == 1 {
      assert (a + b)[1..] == b;
    } else {
      assert (a + b)[1..] == a[1..] + b;
      JoinAppend(a[1..], b, sep);
    }
  }

  lemma {:induction false} CountAppend(a: string, b: string, c: char)
    ensures CountChar(a + b, c) == CountChar(a, c) + CountChar(b, c)
  {
    if |a| > 0 {
      assert (a + b)[1..] == a[1..] + b;
      CountAppend(a[1..], b, c);
    } else {
      assert a + b == b;
    }
  }

  lemma {:induction false} CountAbsent(s: string, c: char)
    ensures CountChar(s, c) == 0 <==> c !in s
  {
    if |s| > 0 {
      CountAbsent(s[1..], c);
      assert s == [s[0]] + s[1..];
    }
  }

  lemma {:induction false} LexLessIrreflexive(a: string)
    ensures !LexLess(a, a)
  {
    if |a| > 0 {
      LexLessIrreflexive(a[1..]);
    }
  }

  lemma {:induction false} LexLessTransitive(a: string, b: string, c: string)
    requires LexLess(a, b) && LexLess(b, c)
    ensures LexLess(a, c)
  {
    if |a| > 0 && |b| > 0 && |c| > 0 && a[0] == b[0] == c[0] {
      LexLessTransitive(a[1..], b[1..], c[1..]);
    }
  }

  /** Strings that differ in their first character are ordered by it. */
  lemma FirstCharOrders(a: string, b: string)
    requires |a| > 0 && |b| > 0 && a[0] < b[0]
    ensures LexLess(a, b)
  {
  }

  /** A common prefix does not change the order. */
  lemma {:induction false} CommonPrefix(p: string, a: string, b: string)
    ensures LexLess(p + a, p + b) == LexLess(a, b)
  {
    if |p| > 0 {
      assert (p + a)[1..] == p[1..] + a;
      assert (p + b)[1..] == p[1..] + b;
      CommonPrefix(p[1..], a, b);
    } else {
      assert p + a == a && p + b == b;
    }
  }

  /** Strings that agree before position `k` are ordered by their characters at `k`. */
  lemma FirstDifferenceOrders(a: string, b: string, k: nat)
    requires k < |a| && k < |b| && a[k] < b[k]
    requires forall j :: 0 <= j < k ==> a[j] == b[j]
    ensures LexLess(a, b)
  {
    assert a[..k] == b[..k];
    CommonPrefix(a[..k], a[k..], b[k..]);
    assert a == a[..k] + a[k..] && b == b[..k] + b[k..];
  }

  /** A strictly ascending sequence is ordered between any two positions. */
  lemma {:induction false} AscendingAt(s: seq<string>, i: nat, j: nat)
    requires StrictlyAscending(s)
    requires i < j < |s|
    ensures LexLess(s[i], s[j])
    decreases j - i
  {
    if i + 1 < j {
      AscendingAt(s, i + 1, j);
      LexLessTransitive(s[i], s[i + 1], s[j]);
    }
  }

  /** A strictly ascending sequence has no duplicates. */
  lemma AscendingDistinct(s: seq<string>)
    requires StrictlyAscending(s)
    ensures PairwiseDistinct(s)
  {
    forall i, j | 0 <= i < j < |s|
      ensures s[i] != s[j]
    {
      AscendingAt(s, i, j);
      LexLessIrreflexive(s[i]);
    }
  }
}

/** The string operations the generator builds its text with. */
module Text {

  lemma ConcatAssoc<T>(a: seq<T>, b: seq<T>, c: seq<T>)
    ensures a + b + c == a + (b + c)
  {
  }

  /** Appending to a sequence that extends `start` appends to what follows `start`. */
  lemma SuffixAppend<T>(start: seq<T>, before: seq<T>, after: seq<T>, extra: seq<T>)
    requires start <= before && after == before + extra
    ensures start <= after && after[|start|..] == before[|start|..] + extra
  {
  }

  lemma PrefixTrans<T>(a: seq<T>, b: seq<T>, c: seq<T>)
    requires a <= b && b <= c
    ensures a <= c
  {
  }

  /** `' '.repeat(n)` */
  function Spaces(n: nat): (r: string)
    ensures |r| == n && forall i :: 0 <= i < n ==> r[i] == ' '
  {
    seq(n, _ => ' ')
  }

  /** JavaScript's `s.substring(start)`: empty once `start` passes the end. */
  function Substring(s: string, start: nat): string
  {
    if start <= |s| then s[start..] else ""
  }

  /** `xs.join(sep)` */
  function Join(sep: string, xs: seq<string>): string
  {
    if xs == [] then ""
    else if |xs| == 1 then xs[0]
    else xs[0] + sep + Join(sep, xs[1..])
  }

  /** The left fold `xs.reduce((acc, x) => acc + sep + x, '')`. */
  function Fold(sep: string, xs: seq<string>): string
  {
    if xs == [] then "" else Fold(sep, xs[..|xs| - 1]) + sep + xs[|xs| - 1]
  }

  lemma FoldAppend(sep: string, xs: seq<string>, x: string)
    ensures Fold(sep, xs + [x]) == Fold(sep, xs) + sep + x
  {
    assert (xs + [x])[..|xs|] == xs;
  }

  lemma {:induction false} JoinAppend(sep: string, xs: seq<string>, x: string)
    requires xs != []
    ensures Join(sep, xs + [x]) == Join(sep, xs) + sep + x
  {
    if |xs| == 1 {
      assert (xs + [x])[1..] == [x];
    } else {
      assert (xs + [x])[1..] == xs[1..] + [x];
      JoinAppend(sep, xs[1..], x);
    }
  }

  /** The fold puts one separator in front of every element: the join with a leading separator. */
  lemma {:induction false} FoldIsJoin(sep: string, xs: seq<string>)
    ensures Fold(sep, xs) == if xs == [] then "" else sep + Join(sep, xs)
  {
    if xs != [] {
      var init, last := xs[..|xs| - 1], xs[|xs| - 1];
      assert Fold(sep, xs) == Fold(sep, init) + sep + last;
      FoldIsJoin(sep, init);
      if init == [] {
        assert Join(sep, xs) == last;
      } else {
        assert init + [last] == xs;
        JoinAppend(sep, init, last);
        ConcatAssoc(sep, Join(sep, init), sep + last);
      }
    }
  }

  /** Cutting the leading separator off the fold gives exactly the join. */
  lemma FoldThenSubstringIsJoin(sep: string, xs: seq<string>)
    ensures Substring(Fold(sep, xs), |sep|) == Join(sep, xs)
  {
    FoldIsJoin(sep, xs);
    if xs != [] {
      assert (sep + Join(sep, xs))[|sep|..] == Join(sep, xs);
    }
  }

  /** Joining two non-empty runs of pieces joins their joins with one separator. */
  lemma {:induction false} JoinConcat(sep: string, xs: seq<string>, ys: seq<string>)
    requires xs != [] && ys != []
    ensures Join(sep, xs + ys) == Join(sep, xs) + sep + Join(sep, ys)
  {
    if |xs| == 1 {
      assert (xs + ys)[1..] == ys;
    } else {
      assert (xs + ys)[1..] == xs[1..] + ys;
      JoinConcat(sep, xs[1..], ys);
      ConcatAssoc(xs[0] + sep, Join(sep, xs[1..]), sep + Join(sep, ys));
    }
  }

  /** A join of non-empty pieces is empty exactly when there are no pieces. */
  lemma {:induction false} JoinEmpty(sep: string, xs: seq<string>)
    requires forall i :: 0 <= i < |xs| ==> xs[i] != ""
    ensures Join(sep, xs) == "" <==> xs == []
  {
    if |xs| > 1 {
      assert |Join(sep, xs)| >= |xs[0]| > 0;
    }
  }

  // ----- indentation of the lines of a text -----

  /** The text holds no line break. */
  predicate SingleLine(t: string)
  {
    '\n' !in t
  }

  /** A fold of single-line pieces with a single-line separator is single-line. */
  lemma {:induction false} FoldSingleLine(sep: string, xs: seq<string>)
    requires SingleLine(sep)
    requires forall i :: 0 <= i < |xs| ==> SingleLine(xs[i])
    ensures SingleLine(Fold(sep, xs))
  {
    if xs != [] {
      FoldSingleLine(sep, xs[..|xs| - 1]);
    }
  }

  /** Position `i` starts a line of `t`. */
  predicate LineStart(t: string, i: int)
  {
    i == 0 || (0 < i <= |t| && t[i - 1] == '\n')
  }

  /** At position `i` of `t` stand `k` spaces. */
  predicate IndentAt(t: string, i: int, k: nat)
  {
    0 <= i && i + k <= |t| && forall j :: i <= j < i + k ==> t[j] == ' '
  }

  /** Every line of `t` begins with (at least) `k` spaces. */
  ghost predicate LinesIndented(t: string, k: nat)
  {
    forall i :: 0 <= i <= |t| && LineStart(t, i) ==> IndentAt(t, i, k)
  }

  lemma SingleLineIndented(t: string, k: nat)
    requires forall j :: 0 <= j < |t| ==> t[j] != '\n'
    requires IndentAt(t, 0, k)
    ensures LinesIndented(t, k)
  {
  }

  lemma IndentedWeaken(t: string, k: nat, d: nat)
    requires LinesIndented(t, k + d)
    ensures LinesIndented(t, k)
  {
    forall i | 0 <= i <= |t| && LineStart(t, i)
      ensures IndentAt(t, i, k)
    {
      assert IndentAt(t, i, k + d);
    }
  }

  /** Two indented texts joined by a line break form an indented text. */
  lemma IndentedConcat(a: string, b: string, k: nat)
    requires LinesIndented(a, k) && LinesIndented(b, k)
    ensures LinesIndented(a + "\n" + b, k)
  {
    var t := a + "\n" + b;
    forall i | 0 <= i <= |t| && LineStart(t, i)
      ensures IndentAt(t, i, k)
    {
      if i <= |a| {
        assert LineStart(a, i);
        assert IndentAt(a, i, k);
        forall j | i <= j < i + k ensures t[j] == ' ' {
          assert t[j] == a[j];
        }
      } else {
        var i' := i - |a| - 1;
        assert LineStart(b, i');
        assert IndentAt(b, i', k);
        forall j | i <= j < i + k ensures t[j] == ' ' {
          assert t[j] == b[j - |a| - 1];
        }
      }
    }
  }

  lemma {:induction false} IndentedJoinLines(xs: seq<string>, k: nat)
    requires xs != []
    requires forall i :: 0 <= i < |xs| ==> LinesIndented(xs[i], k)
    ensures LinesIndented(Join("\n", xs), k)
  {
    if |xs| > 1 {
      IndentedJoinLines(xs[1..], k);
      IndentedConcat(xs[0], Join("\n", xs[1..]), k);
    }
  }
}

/** The string computations of the generation stage: joining passages with a
    separator and counting whitespace-delimited words as `len(s.split())` does. */
module Text {

  /** The separator placed between passages when the context is assembled. */
  const ParagraphBreak: string := "\n\n"

  /** The characters Python's `str.split()` treats as whitespace, restricted to
      ASCII: TAB, LF, VT, FF, CR (9..13), the four separators 28..31 and SPACE. */
  predicate IsSpace(c: char)
  {
    (9 <= c as int <= 13) || (28 <= c as int <= 31) || c == ' '
  }

  predicate AllSpace(s: string)
  {
    forall i :: 0 <= i < |s| ==> IsSpace(s[i])
  }

  // ---------------------------------------------------------------------------
  // Joining
  // ---------------------------------------------------------------------------

  /** `sep.join(parts)`. */
  function Join(parts: seq<string>, sep: string): (r: string)
    ensures parts != [] ==> |parts[0]| <= |r| && r[..|parts[0]|] == parts[0]
  {
    if |parts| == 0 then ""
    else if |parts| == 1 then parts[0]
    else parts[0] + sep + Join(parts[1..], sep)
  }

  function SumLengths(parts: seq<string>): nat
  {
    if parts == [] then 0 else |parts[0]| + SumLengths(parts[1..])
  }

  /** Where part `i` starts in `Join(parts, sep)`: every earlier part and one
      separator after each of them. */
  function Offset(parts: seq<string>, sep: string, i: nat): nat
    requires i <= |parts|
  {
    SumLengths(parts[..i]) + i * |sep|
  }

  /** The joined string is as long as its parts plus one separator between
      each two neighbouring parts. */
  lemma {:induction false} JoinLength(parts: seq<string>, sep: string)
    ensures |parts| == 0 ==> |Join(parts, sep)| == 0
    ensures |parts| > 0 ==> |Join(parts, sep)| == SumLengths(parts) + (|parts| - 1) * |sep|
  {
    if |parts| > 1 {
      JoinLength(parts[1..], sep);
    }
  }

  lemma SliceOfSuffix(a: string, b: string, x: nat, y: nat)
    requires x <= y <= |b|
    ensures (a + b)[|a| + x..|a| + y] == b[x..y]
  {
  }

  lemma {:induction false} OffsetStep(parts: seq<string>, sep: string, i: nat)
    requires 0 < i < |parts|
    ensures Offset(parts, sep, i) == |parts[0]| + |sep| + Offset(parts[1..], sep, i - 1)
  {
    assert parts[..i][1..] == parts[1..][..i - 1];
  }

  /** The joined string holds the parts in their given order: part `i` sits at
      `Offset(parts, sep, i)`. */
  lemma {:induction false} JoinPartAt(parts: seq<string>, sep: string, i: nat)
    requires i < |parts|
    ensures Offset(parts, sep, i) + |parts[i]| <= |Join(parts, sep)|
    ensures Join(parts, sep)[Offset(parts, sep, i)..Offset(parts, sep, i) + |parts[i]|] == parts[i]
  {
    if i == 0 {
      assert parts[..0] == [];
      if |parts| > 1 {
        assert Join(parts, sep) == parts[0] + (sep + Join(parts[1..], sep));
      }
    } else {
      JoinPartAt(parts[1..], sep, i - 1);
      OffsetStep(parts, sep, i);
      assert Join(parts, sep) == (parts[0] + sep) + Join(parts[1..], sep);
      SliceOfSuffix(parts[0] + sep, Join(parts[1..], sep),
                    Offset(parts[1..], sep, i - 1), Offset(parts[1..], sep, i - 1) + |parts[i]|);
    }
  }

  /** Exactly one separator follows every part except the last. */
  lemma {:induction false} JoinSeparatorAfter(parts: seq<string>, sep: string, i: nat)
    requires i + 1 < |parts|
    ensures Offset(parts, sep, i) + |parts[i]| + |sep| <= |Join(parts, sep)|
    ensures Join(parts, sep)[Offset(parts, sep, i) + |parts[i]|..Offset(parts, sep, i) + |parts[i]| + |sep|] == sep
  {
    if i == 0 {
      assert parts[..0] == [];
      assert Join(parts, sep) == parts[0] + (sep + Join(parts[1..], sep));
      SliceOfSuffix(parts[0], sep + Join(parts[1..], sep), 0, |sep|);
    } else {
      JoinSeparatorAfter(parts[1..], sep, i - 1);
      OffsetStep(parts, sep, i);
      var o := Offset(parts[1..], sep, i - 1) + |parts[i]|;
      assert Join(parts, sep) == (parts[0] + sep) + Join(parts[1..], sep);
      SliceOfSuffix(parts[0] + sep, Join(parts[1..], sep), o, o + |sep|);
    }
  }

  // ---------------------------------------------------------------------------
  // Splitting on whitespace
  // ---------------------------------------------------------------------------

  /** Length of the longest whitespace-free prefix of `s`. */
  function RunLength(s: string): (n: nat)
    ensures n <= |s|
    ensures forall i :: 0 <= i < n ==> !IsSpace(s[i])
    ensures n < |s| ==> IsSpace(s[n])
  {
    if s == [] || IsSpace(s[0]) then 0 else 1 + RunLength(s[1..])
  }

  /** `s.split()`: the maximal whitespace-free runs of `s`, left to right. */
  function Words(s: string): (ws: seq<string>)
    ensures forall k :: 0 <= k < |ws| ==> ws[k] != []
    ensures forall k :: 0 <= k < |ws| ==> forall i :: 0 <= i < |ws[k]| ==> !IsSpace(ws[k][i])
    ensures ws == [] <==> AllSpace(s)
    ensures s != [] && !IsSpace(s[0]) ==> ws != [] && ws[0] == s[..RunLength(s)]
    decreases |s|
  {
    if s == [] then []
    else if IsSpace(s[0]) then Words(s[1..])
    else
      var n := RunLength(s);
      [s[..n]] + Words(s[n..])
  }

  /** `len(s.split())`. */
  function WordCount(s: string): (n: nat)
    ensures n == 0 <==> AllSpace(s)
  {
    |Words(s)|
  }

  /** Concatenation of a sequence of strings. */
  function Concat(ws: seq<string>): string
  {
    if ws == [] then "" else ws[0] + Concat(ws[1..])
  }

  /** The characters of `s` that are not whitespace, in order. */
  function NonSpace(s: string): string
  {
    if s == [] then ""
    else if IsSpace(s[0]) then NonSpace(s[1..])
    else [s[0]] + NonSpace(s[1..])
  }

  lemma {:induction false} NonSpaceOfRun(s: string, n: nat)
    requires n <= |s|
    requires forall i :: 0 <= i < n ==> !IsSpace(s[i])
    ensures NonSpace(s) == s[..n] + NonSpace(s[n..])
  {
    if n > 0 {
      NonSpaceOfRun(s[1..], n - 1);
      assert s[1..][n - 1..] == s[n..];
      assert s[..n] == [s[0]] + s[1..][..n - 1];
    }
  }

  /** Splitting loses only whitespace: the words put back together are the
      non-whitespace characters of `s`, in order. */
  lemma {:induction false} WordsKeepEveryNonSpace(s: string)
    ensures Concat(Words(s)) == NonSpace(s)
    decreases |s|
  {
    if s == [] {
    } else if IsSpace(s[0]) {
      WordsKeepEveryNonSpace(s[1..]);
    } else {
      var n := RunLength(s);
      WordsKeepEveryNonSpace(s[n..]);
      NonSpaceOfRun(s, n);
      assert ([s[..n]] + Words(s[n..]))[1..] == Words(s[n..]);
    }
  }

  /** An independent count of the words of `s`: scan left to right and count
      each non-whitespace character whose predecessor is whitespace (or that
      comes first, when `afterSpace` holds). */
  function RunStarts(s: string, afterSpace: bool): nat
  {
    if s == [] then 0
    else (if !IsSpace(s[0]) && afterSpace then 1 else 0) + RunStarts(s[1..], IsSpace(s[0]))
  }

  /** Whether the scan is "after whitespace" once it has read all of `s`. */
  function EndsAfterSpace(s: string, afterSpace: bool): bool
  {
    if s == [] then afterSpace else IsSpace(s[|s| - 1])
  }

  lemma {:induction false} RunStartsSkipRun(s: string, n: nat)
    requires n <= |s|
    requires forall i :: 0 <= i < n ==> !IsSpace(s[i])
    ensures RunStarts(s, false) == RunStarts(s[n..], false)
  {
    if n > 0 {
      RunStartsSkipRun(s[1..], n - 1);
      assert s[1..][n - 1..] == s[n..];
    }
  }

  /** The number of words is the number of maximal whitespace-free runs. */
  lemma {:induction false} WordCountIsRunCount(s: string)
    ensures WordCount(s) == RunStarts(s, true)
    decreases |s|
  {
    if s == [] {
    } else if IsSpace(s[0]) {
      WordCountIsRunCount(s[1..]);
    } else {
      var n := RunLength(s);
      WordCountIsRunCount(s[n..]);
      RunStartsSkipRun(s[1..], n - 1);
      assert s[1..][n - 1..] == s[n..];
      var t := s[n..];
      if t != [] {
        assert IsSpace(t[0]);
        assert RunStarts(t, false) == RunStarts(t, true);
      }
      assert Words(s) == [s[..n]] + Words(t);
    }
  }

  lemma {:induction false} RunStartsAppend(a: string, b: string, afterSpace: bool)
    ensures RunStarts(a + b, afterSpace) == RunStarts(a, afterSpace) + RunStarts(b, EndsAfterSpace(a, afterSpace))
    decreases |a|
  {
    if a == [] {
      assert a + b == b;
    } else {
      RunStartsAppend(a[1..], b, IsSpace(a[0]));
      assert (a + b)[1..] == a[1..] + b;
    }
  }

  lemma {:induction false} RunStartsOfSpace(w: string, afterSpace: bool)
    requires AllSpace(w)
    ensures RunStarts(w, afterSpace) == 0
    decreases |w|
  {
    if w != [] {
      RunStartsOfSpace(w[1..], IsSpace(w[0]));
    }
  }

  /** A non-empty whitespace separator never merges or creates words. */
  lemma WordCountAcrossSpace(a: string, w: string, b: string)
    requires w != [] && AllSpace(w)
    ensures WordCount(a + w + b) == WordCount(a) + WordCount(b)
  {
    WordCountIsRunCount(a + w + b);
    WordCountIsRunCount(a);
    WordCountIsRunCount(b);
    RunStartsAppend(a + w, b, true);
    RunStartsAppend(a, w, true);
    RunStartsOfSpace(w, EndsAfterSpace(a, true));
    assert EndsAfterSpace(a + w, true);
  }

  function SumWordCounts(parts: seq<string>): nat
  {
    if parts == [] then 0 else WordCount(parts[0]) + SumWordCounts(parts[1..])
  }

  /** Counting the words of the joined context equals counting the words of
      each passage and adding them up; a context with no passages has none. */
  lemma {:induction false} WordCountOfJoin(parts: seq<string>, sep: string)
    requires sep != [] && AllSpace(sep)
    ensures WordCount(Join(parts, sep)) == SumWordCounts(parts)
  {
    if |parts| == 0 {
      assert Words("") == [];
    } else if |parts| == 1 {
      assert parts[1..] == [];
    } else {
      WordCountOfJoin(parts[1..], sep);
      WordCountAcrossSpace(parts[0], sep, Join(parts[1..], sep));
    }
  }

  lemma ParagraphBreakIsSpace()
    ensures ParagraphBreak != [] && AllSpace(ParagraphBreak)
  {
  }
}

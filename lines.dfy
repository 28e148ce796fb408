/**
  Python's `str.splitlines()` and `str.splitlines(keepends=True)`: a line
  ends at any of the line-boundary characters, and "\r\n" counts as one
  boundary.
*/
module Lines {
  import opened Text

  /** The characters `str.splitlines` breaks at. */
  predicate IsLineBreak(c: char) {
    c == '\n' || c == '\r' || c == '\U{b}' || c == '\U{c}' || ('\U{1c}' <= c <= '\U{1e}')
    || c == '\U{85}' || c == '\U{2028}' || c == '\U{2029}'
  }

  predicate NoLineBreak(s: string) {
    forall k :: 0 <= k < |s| ==> !IsLineBreak(s[k])
  }

  /** The first line boundary at or after `i`, or `|s|`. */
  function LineEnd(s: string, i: nat): (j: nat)
    requires i <= |s|
    ensures i <= j <= |s|
    ensures forall k :: i <= k < j ==> !IsLineBreak(s[k])
    ensures j < |s| ==> IsLineBreak(s[j])
    decreases |s| - i
  {
    if i == |s| || IsLineBreak(s[i]) then i else LineEnd(s, i + 1)
  }

  /** Where the next line starts after the boundary at `j`. */
  function BreakEnd(s: string, j: nat): (k: nat)
    requires j < |s|
    ensures j < k <= |s|
  {
    if s[j] == '\r' && j + 1 < |s| && s[j + 1] == '\n' then j + 2 else j + 1
  }

  function SplitLinesFrom(s: string, i: nat, keepEnds: bool): seq<string>
    requires i <= |s|
    decreases |s| - i
  {
    if i == |s| then []
    else
      var j := LineEnd(s, i);
      if j == |s| then [s[i..]]
      else [if keepEnds then s[i..BreakEnd(s, j)] else s[i..j]] + SplitLinesFrom(s, BreakEnd(s, j), keepEnds)
  }

  /** `s.splitlines()` */
  function SplitLines(s: string): seq<string> {
    SplitLinesFrom(s, 0, false)
  }

  /** `s.splitlines(keepends=True)` */
  function SplitLinesKeepEnds(s: string): seq<string> {
    SplitLinesFrom(s, 0, true)
  }

  lemma {:induction false} SplitLinesFromConcat(s: string, i: nat)
    requires i <= |s|
    ensures Concat(SplitLinesFrom(s, i, true)) == s[i..]
    decreases |s| - i
  {
    if i < |s| {
      var j := LineEnd(s, i);
      if j < |s| {
        var k := BreakEnd(s, j);
        SplitLinesFromConcat(s, k);
        assert s[i..] == s[i..k] + s[k..];
      }
    }
  }

  /** Joining the lines kept with their ends gives back the text: reading and writing back a file changes nothing. */
  lemma SplitLinesKeepEndsConcat(s: string)
    ensures Concat(SplitLinesKeepEnds(s)) == s
  {
    SplitLinesFromConcat(s, 0);
  }

  lemma {:induction false} SplitLinesFromNoBreak(s: string, i: nat)
    requires i <= |s|
    ensures forall k :: 0 <= k < |SplitLinesFrom(s, i, false)| ==> NoLineBreak(SplitLinesFrom(s, i, false)[k])
    decreases |s| - i
  {
    if i < |s| {
      var j := LineEnd(s, i);
      if j < |s| {
        SplitLinesFromNoBreak(s, BreakEnd(s, j));
      }
    }
  }

  /** `splitlines()` leaves no line-boundary character inside a line. */
  lemma SplitLinesNoBreak(s: string)
    ensures forall k :: 0 <= k < |SplitLines(s)| ==> NoLineBreak(SplitLines(s)[k])
  {
    SplitLinesFromNoBreak(s, 0);
  }

  /** Lines without boundaries, each followed by "\n". */
  function Terminated(ls: seq<string>): string {
    if ls == [] then "" else ls[0] + "\n" + Terminated(ls[1..])
  }

  /** Lines written one per "\n" from `i` on split back into the same lines. */
  lemma {:induction false} SplitTerminatedAt(s: string, i: nat, ls: seq<string>)
    requires i <= |s| && s[i..] == Terminated(ls)
    requires forall k :: 0 <= k < |ls| ==> NoLineBreak(ls[k])
    ensures SplitLinesFrom(s, i, false) == ls
    decreases |ls|
  {
    if ls == [] {
      assert |s[i..]| == 0 && i == |s|;
    } else {
      var next := TerminatedHead(s, i, ls);
      NoBreakTail(ls);
      SplitTerminatedAt(s, next, ls[1..]);
      assert ls == [ls[0]] + ls[1..];
    }
  }

  /** The first line is read back, and the rest of the text holds the other lines. */
  lemma TerminatedHead(s: string, i: nat, ls: seq<string>) returns (next: nat)
    requires ls != [] && i <= |s| && s[i..] == Terminated(ls) && NoLineBreak(ls[0])
    ensures next <= |s| && s[next..] == Terminated(ls[1..])
    ensures SplitLinesFrom(s, i, false) == [ls[0]] + SplitLinesFrom(s, next, false)
  {
    TerminatedLayout(s, i, ls);
    TerminatedStep(s, i, ls[0]);
    next := i + |ls[0]| + 1;
  }

  /** Where the first line and its "\n" sit. */
  lemma TerminatedLayout(s: string, i: nat, ls: seq<string>)
    requires ls != [] && i <= |s| && s[i..] == Terminated(ls)
    ensures var j := i + |ls[0]|;
      j < |s| && s[i..j] == ls[0] && s[j] == '\n' && s[j + 1..] == Terminated(ls[1..])
  {
    var l := ls[0];
    var t := s[i..];
    assert t == l + "\n" + Terminated(ls[1..]);
    assert t[..|l|] == l && t[|l|] == '\n' && t[|l| + 1..] == Terminated(ls[1..]);
  }

  lemma NoBreakTail(ls: seq<string>)
    requires ls != [] && forall k :: 0 <= k < |ls| ==> NoLineBreak(ls[k])
    ensures forall k :: 0 <= k < |ls[1..]| ==> NoLineBreak(ls[1..][k])
  {
    forall k | 0 <= k < |ls[1..]|
      ensures NoLineBreak(ls[1..][k])
    {
      assert ls[1..][k] == ls[k + 1];
    }
  }

  /** A line `l` at `i` ended with "\n" is read back as one line. */
  lemma TerminatedStep(s: string, i: nat, l: string)
    requires i + |l| < |s| && s[i..i + |l|] == l && s[i + |l|] == '\n' && NoLineBreak(l)
    ensures SplitLinesFrom(s, i, false) == [l] + SplitLinesFrom(s, i + |l| + 1, false)
  {
    var j := i + |l|;
    forall k | i <= k < j
      ensures !IsLineBreak(s[k])
    {
      assert s[k] == s[i..j][k - i];
    }
    LineEndAt(s, i, j);
  }

  lemma {:induction false} LineEndAt(s: string, i: nat, j: nat)
    requires i <= j < |s| && IsLineBreak(s[j])
    requires forall k :: i <= k < j ==> !IsLineBreak(s[k])
    ensures LineEnd(s, i) == j
    decreases j - i
  {
    if i < j {
      LineEndAt(s, i + 1, j);
    }
  }

  /** Lines written one per "\n" split back into the same lines. */
  lemma SplitTerminated(ls: seq<string>)
    requires forall k :: 0 <= k < |ls| ==> NoLineBreak(ls[k])
    ensures SplitLines(Terminated(ls)) == ls
  {
    SplitTerminatedAt(Terminated(ls), 0, ls);
  }
}

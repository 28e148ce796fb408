/**
  `_apply_hunks_strict` (server_patch.py:456-493): applies the hunks of one
  file block to the file's lines (each line keeps its line ending), with no
  fuzzy matching.  Python's list semantics are written out: a negative
  cursor reads from the end of the list, or raises `IndexError` when it is
  too far back, and the slice assignment clamps its bounds.
*/
module PatchApply {
  import opened Text
  import opened Lines
  import opened PatchParse

  // ---------------------------------------------------------------------------
  // Python list indexing and slice assignment.

  /** The position `new_lines[k]` reads, or `-1` for `IndexError`; `k < |lines|` is checked by the caller. */
  function PyIndex(n: nat, k: int): (j: int)
    requires k < n
    ensures -1 <= j < n
    ensures k >= 0 ==> j == k
    ensures k < 0 ==> (j == -1 <==> k + n < 0)
  {
    if k >= 0 then k else if k + n >= 0 then k + n else -1
  }

  /** A slice bound as Python adjusts it for a list of length `n`. */
  function SliceBound(k: int, n: nat): (j: nat)
    ensures j <= n
    ensures 0 <= k <= n ==> j == k
  {
    var m := if k < 0 then k + n else k;
    if m < 0 then 0 else if m > n then n else m
  }

  /** `lines[lo:hi] = repl`, with Python's adjustment of the bounds. */
  function Splice(lines: seq<string>, lo: int, hi: int, repl: seq<string>): (r: seq<string>)
    ensures 0 <= lo <= hi <= |lines| ==> r == lines[..lo] + repl + lines[hi..]
  {
    var a := SliceBound(lo, |lines|);
    var b := SliceBound(hi, |lines|);
    var b' := if b < a then a else b;
    lines[..a] + repl + lines[b'..]
  }

  // ---------------------------------------------------------------------------
  // One hunk.

  predicate IsAdd(raw: string) { StartsWith(raw, "+") }
  predicate IsContext(raw: string) { StartsWith(raw, " ") }
  predicate IsDelete(raw: string) { StartsWith(raw, "-") }

  /** How the walk over one hunk body ends. */
  datatype Walk =
    | Walked(cur: int, repl: seq<string>)   // the cursor after the body and the replacement lines
    | Mismatch                              // a checked line differs, or the cursor passed the end
    | IndexErr                              // a negative cursor reached before the first line

  /** The inner `for raw in body` loop, from body line `i`, cursor `cur` and the replacement so far. */
  function WalkBody(lines: seq<string>, body: seq<string>, i: nat, cur: int, repl: seq<string>): Walk
    requires i <= |body|
    decreases |body| - i
  {
    if i == |body| then Walked(cur, repl)
    else
      var raw := body[i];
      if IsAdd(raw) then WalkBody(lines, body, i + 1, cur, repl + [raw[1..] + "\n"])
      else if cur >= |lines| then Mismatch
      else
        var j := PyIndex(|lines|, cur);
        if j < 0 then IndexErr
        else if IsContext(raw) || IsDelete(raw) then
          if RStrip(lines[j], '\n') != raw[1..] then Mismatch
          else WalkBody(lines, body, i + 1, cur + 1, if IsContext(raw) then repl + [lines[j]] else repl)
        else WalkBody(lines, body, i + 1, cur + 1, repl + [lines[j]])
  }

  // ---------------------------------------------------------------------------
  // All hunks.

  /** What `_apply_hunks_strict` gives back, or the exception it raises. */
  datatype Applied =
    | Applied(lines: seq<string>, ok: bool)
    | ApplyRaised(message: string)

  const IndexErrorText := "list index out of range"

  /** The new offset after a hunk that started at `start`, stopped at `cur` and took `lines` to `next`. */
  function NextOffset(offset: int, lines: seq<string>, next: seq<string>, start: int, cur: int): int {
    offset + (|next| - |lines|) - (cur - start)
  }

  /** The outer loop from hunk `k`, over the current lines and offset; `orig` is what a failure returns. */
  function ApplyFrom(orig: seq<string>, lines: seq<string>, hunks: seq<Hunk>, k: nat, offset: int): Applied
    requires k <= |hunks|
    decreases |hunks| - k
  {
    if k == |hunks| then Applied(lines, true)
    else
      var start := hunks[k].oldStart - 1 + offset;
      match WalkBody(lines, hunks[k].body, 0, start, [])
      case Mismatch => Applied(orig, false)
      case IndexErr => ApplyRaised(IndexErrorText)
      case Walked(cur, repl) =>
        var next := Splice(lines, start, cur, repl);
        ApplyFrom(orig, next, hunks, k + 1, NextOffset(offset, lines, next, start, cur))
  }

  /** `_apply_hunks_strict(orig_lines, hunks)` */
  function ApplyHunksStrict(orig: seq<string>, hunks: seq<Hunk>): Applied {
    ApplyFrom(orig, orig, hunks, 0, 0)
  }

  // ---------------------------------------------------------------------------
  // The loop-based applier.

  /** The inner loop over one hunk body. */
  method WalkHunk(lines: seq<string>, body: seq<string>, start: int) returns (w: Walk)
    ensures w == WalkBody(lines, body, 0, start, [])
  {
    var cur := start;
    var repl: seq<string> := [];
    var i := 0;
    while i < |body|
      invariant i <= |body|
      invariant WalkBody(lines, body, i, cur, repl) == WalkBody(lines, body, 0, start, [])
    {
      var raw := body[i];
      if IsAdd(raw) {
        repl := repl + [raw[1..] + "\n"];
      } else {
        if cur >= |lines| {
          return Mismatch;
        }
        var j := PyIndex(|lines|, cur);
        if j < 0 {
          return IndexErr;
        }
        if IsContext(raw) || IsDelete(raw) {
          if RStrip(lines[j], '\n') != raw[1..] {
            return Mismatch;
          }
          if IsContext(raw) {
            repl := repl + [lines[j]];
          }
        } else {
          repl := repl + [lines[j]];
        }
        cur := cur + 1;
      }
      i := i + 1;
    }
    return Walked(cur, repl);
  }

  /** `_apply_hunks_strict(orig_lines, hunks)`, loop by loop. */
  method ApplyHunks(orig: seq<string>, hunks: seq<Hunk>) returns (r: Applied)
    ensures r == ApplyHunksStrict(orig, hunks)
  {
    var newLines := orig;
    var offset := 0;
    var k := 0;
    while k < |hunks|
      invariant k <= |hunks|
      invariant ApplyFrom(orig, newLines, hunks, k, offset) == ApplyHunksStrict(orig, hunks)
    {
      var start := hunks[k].oldStart - 1 + offset;
      var w := WalkHunk(newLines, hunks[k].body, start);
      ApplyFromStep(orig, newLines, hunks, k, offset, w);
      if w.Mismatch? {
        return Applied(orig, false);
      }
      if w.IndexErr? {
        return ApplyRaised(IndexErrorText);
      }
      ghost var before, offset0 := newLines, offset;
      var beforeLen := |newLines|;
      newLines := Splice(newLines, start, w.cur, w.repl);
      var afterLen := |newLines|;
      offset := offset + (afterLen - beforeLen) - (w.cur - start);
      assert offset == NextOffset(offset0, before, newLines, start, w.cur);
      k := k + 1;
    }
    return Applied(newLines, true);
  }

  /** One hunk of the outer loop, given how the walk over its body ended. */
  lemma ApplyFromStep(orig: seq<string>, lines: seq<string>, hunks: seq<Hunk>, k: nat, offset: int, w: Walk)
    requires k < |hunks| && w == WalkBody(lines, hunks[k].body, 0, hunks[k].oldStart - 1 + offset, [])
    ensures var start := hunks[k].oldStart - 1 + offset;
      ApplyFrom(orig, lines, hunks, k, offset)
      == match w
         case Mismatch => Applied(orig, false)
         case IndexErr => ApplyRaised(IndexErrorText)
         case Walked(cur, repl) =>
           var next := Splice(lines, start, cur, repl);
           ApplyFrom(orig, next, hunks, k + 1, NextOffset(offset, lines, next, start, cur))
  {
  }

  // ---------------------------------------------------------------------------
  // Properties.

  /** A failed match gives back the original lines untouched, however many hunks had already been applied. */
  lemma {:induction false} FailureKeepsOriginal(orig: seq<string>, lines: seq<string>, hunks: seq<Hunk>, k: nat, offset: int)
    requires k <= |hunks|
    ensures var r := ApplyFrom(orig, lines, hunks, k, offset); r.Applied? && !r.ok ==> r.lines == orig
    decreases |hunks| - k
  {
    if k < |hunks| {
      var start := hunks[k].oldStart - 1 + offset;
      var w := WalkBody(lines, hunks[k].body, 0, start, []);
      if w.Walked? {
        var next := Splice(lines, start, w.cur, w.repl);
        FailureKeepsOriginal(orig, next, hunks, k + 1, NextOffset(offset, lines, next, start, w.cur));
      }
    }
  }

  lemma StrictFailureKeepsOriginal(orig: seq<string>, hunks: seq<Hunk>)
    ensures var r := ApplyHunksStrict(orig, hunks); r.Applied? && !r.ok ==> r.lines == orig
  {
    FailureKeepsOriginal(orig, orig, hunks, 0, 0);
  }

  /** A body line the parser can produce: a `+`, ` ` or `-` marker and no line break. */
  predicate MarkedLine(raw: string) {
    (IsAdd(raw) || IsContext(raw) || IsDelete(raw)) && NoLineBreak(raw)
  }

  predicate MarkedBody(body: seq<string>) {
    forall i :: 0 <= i < |body| ==> MarkedLine(body[i])
  }

  /** The lines a body expects in the file: its context and `-` lines without their marker. */
  function OldSide(body: seq<string>): seq<string> {
    if body == [] then []
    else (if IsContext(body[0]) || IsDelete(body[0]) then [body[0][1..]] else []) + OldSide(body[1..])
  }

  /** The lines a body leaves in the file: its context and `+` lines without their marker. */
  function NewSide(body: seq<string>): seq<string> {
    if body == [] then []
    else (if IsContext(body[0]) || IsAdd(body[0]) then [body[0][1..]] else []) + NewSide(body[1..])
  }

  /** Every line with its trailing "\n" characters removed. */
  function Stripped(ls: seq<string>): (r: seq<string>)
    ensures |r| == |ls|
  {
    if ls == [] then [] else [RStrip(ls[0], '\n')] + Stripped(ls[1..])
  }

  lemma {:induction false} StrippedAppend(a: seq<string>, b: seq<string>)
    ensures Stripped(a + b) == Stripped(a) + Stripped(b)
  {
    if a != [] {
      assert (a + b)[0] == a[0] && (a + b)[1..] == a[1..] + b;
      StrippedAppend(a[1..], b);
    } else {
      assert a + b == b;
    }
  }

  /** The file lines from `cur` on, stripped, begin with `expected`. */
  predicate MatchesAt(lines: seq<string>, cur: int, expected: seq<string>) {
    0 <= cur && cur + |expected| <= |lines| && forall j :: 0 <= j < |expected| ==> RStrip(lines[cur + j], '\n') == expected[j]
  }

  lemma MatchesAtStep(lines: seq<string>, cur: int, expected: seq<string>)
    requires 0 <= cur < |lines| && expected != []
    ensures MatchesAt(lines, cur, expected) <==> RStrip(lines[cur], '\n') == expected[0] && MatchesAt(lines, cur + 1, expected[1..])
  {
    if RStrip(lines[cur], '\n') == expected[0] && MatchesAt(lines, cur + 1, expected[1..]) {
      forall j | 0 <= j < |expected|
        ensures RStrip(lines[cur + j], '\n') == expected[j]
      {
        if j > 0 {
          assert expected[j] == expected[1..][j - 1];
        }
      }
    }
  }

  /** An added line read back without its "\n" is the text after the marker. */
  lemma AddedLineStripped(raw: string)
    requires |raw| >= 1 && NoLineBreak(raw)
    ensures RStrip(raw[1..] + "\n", '\n') == raw[1..]
  {
    var u := raw[1..];
    var t := u + "\n";
    var r := RStrip(t, '\n');
    assert t[|u|] == '\n';
    if |u| > 0 {
      assert t[|u| - 1] == raw[|raw| - 1];
      assert !IsLineBreak(raw[|raw| - 1]);
    }
    assert r == t[..|u|];
    assert t[..|u|] == u;
  }

  /**
    The walk over a well-formed body from a cursor inside the file succeeds
    exactly when the file lines there, with their "\n" stripped, are the
    body's old side; it never raises.
  */
  lemma {:induction false} WalkSucceedsIff(lines: seq<string>, body: seq<string>, i: nat, cur: int, repl: seq<string>)
    requires i <= |body| && MarkedBody(body) && 0 <= cur <= |lines|
    ensures var w := WalkBody(lines, body, i, cur, repl);
      !w.IndexErr? && (w.Walked? <==> MatchesAt(lines, cur, OldSide(body[i..])))
    decreases |body| - i
  {
    if i == |body| {
      assert body[i..] == [];
    } else {
      var raw := body[i];
      assert body[i..][0] == raw && body[i..][1..] == body[i + 1..];
      if IsAdd(raw) {
        assert !IsContext(raw) && !IsDelete(raw);
        assert OldSide(body[i..]) == OldSide(body[i + 1..]);
        WalkSucceedsIff(lines, body, i + 1, cur, repl + [raw[1..] + "\n"]);
      } else {
        var expected := OldSide(body[i..]);
        assert expected == [raw[1..]] + OldSide(body[i + 1..]);
        if cur < |lines| {
          MatchesAtStep(lines, cur, expected);
          if RStrip(lines[cur], '\n') == raw[1..] {
            WalkSucceedsIff(lines, body, i + 1, cur + 1, if IsContext(raw) then repl + [lines[cur]] else repl);
          }
        }
      }
    }
  }

  /**
    After a successful walk over a well-formed body the cursor has moved past
    the body's old side, and the replacement, stripped, is the body's new
    side: context lines keep the file's own line, added lines get "\n".
  */
  lemma {:induction false} WalkResult(lines: seq<string>, body: seq<string>, i: nat, cur: int, repl: seq<string>)
    requires i <= |body| && MarkedBody(body) && 0 <= cur
    ensures var w := WalkBody(lines, body, i, cur, repl);
      w.Walked? ==> w.cur == cur + |OldSide(body[i..])| && Stripped(w.repl) == Stripped(repl) + NewSide(body[i..])
    decreases |body| - i, 1
  {
    if i == |body| {
      assert body[i..] == [];
    } else if IsAdd(body[i]) {
      WalkResultAdded(lines, body, i, cur, repl);
    } else if cur < |lines| && RStrip(lines[cur], '\n') == body[i][1..] {
      WalkResultChecked(lines, body, i, cur, repl);
    }
  }

  /** `WalkResult` at an added line: the cursor stays and the line, with "\n", joins the replacement. */
  lemma {:induction false} WalkResultAdded(lines: seq<string>, body: seq<string>, i: nat, cur: int, repl: seq<string>)
    requires i < |body| && MarkedBody(body) && 0 <= cur && IsAdd(body[i])
    ensures var w := WalkBody(lines, body, i, cur, repl);
      w.Walked? ==> w.cur == cur + |OldSide(body[i..])| && Stripped(w.repl) == Stripped(repl) + NewSide(body[i..])
    decreases |body| - i, 0
  {
    var raw := body[i];
    SidesStep(body, i);
    var repl' := repl + [raw[1..] + "\n"];
    assert WalkBody(lines, body, i, cur, repl) == WalkBody(lines, body, i + 1, cur, repl');
    WalkResult(lines, body, i + 1, cur, repl');
    AddedLineStripped(raw);
    StrippedAppend(repl, [raw[1..] + "\n"]);
    assert Stripped(repl') == Stripped(repl) + [raw[1..]];
    AppendAssoc(Stripped(repl), [raw[1..]], NewSide(body[i + 1..]));
  }

  /** `WalkResult` at a context or `-` line that matches the file: the cursor moves and a context line is kept. */
  lemma {:induction false} WalkResultChecked(lines: seq<string>, body: seq<string>, i: nat, cur: int, repl: seq<string>)
    requires i < |body| && MarkedBody(body) && 0 <= cur < |lines| && !IsAdd(body[i])
    requires RStrip(lines[cur], '\n') == body[i][1..]
    ensures var w := WalkBody(lines, body, i, cur, repl);
      w.Walked? ==> w.cur == cur + |OldSide(body[i..])| && Stripped(w.repl) == Stripped(repl) + NewSide(body[i..])
    decreases |body| - i, 0
  {
    var raw := body[i];
    SidesStep(body, i);
    assert MarkedLine(raw);
    var repl' := if IsContext(raw) then repl + [lines[cur]] else repl;
    assert WalkBody(lines, body, i, cur, repl) == WalkBody(lines, body, i + 1, cur + 1, repl');
    WalkResult(lines, body, i + 1, cur + 1, repl');
    if IsContext(raw) {
      StrippedAppend(repl, [lines[cur]]);
      assert Stripped(repl') == Stripped(repl) + [raw[1..]];
      AppendAssoc(Stripped(repl), [raw[1..]], NewSide(body[i + 1..]));
    }
  }

  /** How the two sides of a well-formed body grow by its line `i`. */
  lemma SidesStep(body: seq<string>, i: nat)
    requires i < |body| && MarkedBody(body)
    ensures IsAdd(body[i]) ==> OldSide(body[i..]) == OldSide(body[i + 1..])
                               && NewSide(body[i..]) == [body[i][1..]] + NewSide(body[i + 1..])
    ensures IsContext(body[i]) ==> OldSide(body[i..]) == [body[i][1..]] + OldSide(body[i + 1..])
                                   && NewSide(body[i..]) == [body[i][1..]] + NewSide(body[i + 1..])
    ensures IsDelete(body[i]) ==> OldSide(body[i..]) == [body[i][1..]] + OldSide(body[i + 1..])
                                  && NewSide(body[i..]) == NewSide(body[i + 1..])
  {
    assert body[i..][0] == body[i] && body[i..][1..] == body[i + 1..];
    assert MarkedLine(body[i]);
  }

  /** The walk of a hunk whose body has only lines without a marker (an empty line, say): each copies one file line unchecked. */
  lemma {:induction false} UnmarkedLinesCopied(lines: seq<string>, body: seq<string>, i: nat, cur: int, repl: seq<string>)
    requires i <= |body| && 0 <= cur && cur + (|body| - i) <= |lines|
    requires forall k :: 0 <= k < |body| ==> !IsAdd(body[k]) && !IsContext(body[k]) && !IsDelete(body[k])
    ensures WalkBody(lines, body, i, cur, repl) == Walked(cur + |body| - i, repl + lines[cur..cur + |body| - i])
    decreases |body| - i
  {
    if i < |body| {
      UnmarkedLinesCopied(lines, body, i + 1, cur + 1, repl + [lines[cur]]);
      assert repl + [lines[cur]] + lines[cur + 1..cur + |body| - i] == repl + lines[cur..cur + |body| - i];
    }
  }

  /**
    A single hunk whose walk ends inside the file replaces the lines it
    walked over and keeps everything else.
  */
  lemma SingleHunk(orig: seq<string>, h: Hunk)
    requires var w := WalkBody(orig, h.body, 0, h.oldStart - 1, []);
      w.Walked? && 0 <= h.oldStart - 1 <= w.cur <= |orig|
    ensures var w := WalkBody(orig, h.body, 0, h.oldStart - 1, []);
      ApplyHunksStrict(orig, [h]) == Applied(orig[..h.oldStart - 1] + w.repl + orig[w.cur..], true)
  {
    var w := WalkBody(orig, h.body, 0, h.oldStart - 1, []);
    var next := Splice(orig, h.oldStart - 1, w.cur, w.repl);
    assert ApplyFrom(orig, next, [h], 1, NextOffset(0, orig, next, h.oldStart - 1, w.cur)) == Applied(next, true);
  }

  /**
    One well-formed hunk starting inside the file: it applies exactly when
    the file lines at its start, "\n" stripped, are its old side, and the
    new file is then the lines before, the new side, and the lines after.
    Otherwise the file comes back unchanged with `False`.
  */
  lemma WellFormedHunk(orig: seq<string>, h: Hunk)
    requires MarkedBody(h.body) && 1 <= h.oldStart <= |orig| + 1
    ensures var r := ApplyHunksStrict(orig, [h]);
      var start := h.oldStart - 1;
      r.Applied? && (r.ok <==> MatchesAt(orig, start, OldSide(h.body)))
      && (!r.ok ==> r.lines == orig)
      && (r.ok ==> Stripped(r.lines) == Stripped(orig[..start]) + NewSide(h.body)
                                       + Stripped(orig[start + |OldSide(h.body)|..]))
  {
    var start := h.oldStart - 1;
    assert h.body[0..] == h.body;
    WalkSucceedsIff(orig, h.body, 0, start, []);
    WalkResult(orig, h.body, 0, start, []);
    StrictFailureKeepsOriginal(orig, [h]);
    var w := WalkBody(orig, h.body, 0, start, []);
    assert [h][0] == h;
    if w.Walked? {
      SingleHunk(orig, h);
      var r := ApplyHunksStrict(orig, [h]);
      assert r.lines == orig[..start] + w.repl + orig[w.cur..];
      assert Stripped(w.repl) == NewSide(h.body) by {
        assert Stripped([]) + NewSide(h.body) == NewSide(h.body);
      }
      StrippedAppend(orig[..start], w.repl);
      StrippedAppend(orig[..start] + w.repl, orig[w.cur..]);
      assert w.cur == start + |OldSide(h.body)|;
    }
  }

  /**
    The offset carried to the next hunk is the replacement's length less
    twice the number of lines walked over: the change in length is counted
    once by `after_len - before_len` and again by `cur - start`.
  */
  lemma OffsetStep(offset: int, lines: seq<string>, start: int, cur: int, repl: seq<string>)
    requires 0 <= start <= cur <= |lines|
    ensures NextOffset(offset, lines, Splice(lines, start, cur, repl), start, cur) == offset + |repl| - 2 * (cur - start)
  {
  }

  /**
    For a well-formed first hunk that matches, the second hunk is looked for
    `|NewSide| - 2 * |OldSide|` lines away from its declared start: a hunk
    that removes three lines and adds two moves the next hunk by -4, not -1.
  */
  lemma SecondHunkStart(orig: seq<string>, h1: Hunk, h2: Hunk)
    requires MarkedBody(h1.body) && h1.oldStart >= 1
    requires MatchesAt(orig, h1.oldStart - 1, OldSide(h1.body))
    ensures var w := WalkBody(orig, h1.body, 0, h1.oldStart - 1, []);
      w.Walked? && ApplyHunksStrict(orig, [h1, h2])
        == ApplyFrom(orig, Splice(orig, h1.oldStart - 1, w.cur, w.repl), [h1, h2], 1,
                     |NewSide(h1.body)| - 2 * |OldSide(h1.body)|)
  {
    var start := h1.oldStart - 1;
    assert h1.body[0..] == h1.body;
    WalkSucceedsIff(orig, h1.body, 0, start, []);
    WalkResult(orig, h1.body, 0, start, []);
    var w := WalkBody(orig, h1.body, 0, start, []);
    assert |w.repl| == |Stripped(w.repl)| == |NewSide(h1.body)|;
    var next := Splice(orig, start, w.cur, w.repl);
    OffsetStep(0, orig, start, w.cur, w.repl);
  }

  predicate AllAdded(body: seq<string>) {
    forall k :: 0 <= k < |body| ==> IsAdd(body[k])
  }

  /** The lines a body of `+` lines adds, from body line `i` on. */
  function AddedFrom(body: seq<string>, i: nat): seq<string>
    requires i <= |body| && AllAdded(body)
    decreases |body| - i
  {
    if i == |body| then [] else [body[i][1..] + "\n"] + AddedFrom(body, i + 1)
  }

  lemma {:induction false} WalkAdded(lines: seq<string>, body: seq<string>, i: nat, cur: int, repl: seq<string>)
    requires i <= |body| && AllAdded(body)
    ensures WalkBody(lines, body, i, cur, repl) == Walked(cur, repl + AddedFrom(body, i))
    decreases |body| - i
  {
    if i < |body| {
      WalkAdded(lines, body, i + 1, cur, repl + [body[i][1..] + "\n"]);
    }
  }

  /** A `-0,0` hunk of added lines on an empty file: the start is -1, which the slice clamps to 0, so the file becomes the added lines. */
  lemma CreateIntoEmpty(h: Hunk)
    requires h.oldStart == 0 && AllAdded(h.body)
    ensures ApplyHunksStrict([], [h]) == Applied(AddedFrom(h.body, 0), true)
  {
    WalkAdded([], h.body, 0, -1, []);
    assert [] + AddedFrom(h.body, 0) == AddedFrom(h.body, 0);
    assert [h][0] == h;
    var next := Splice([], -1, -1, AddedFrom(h.body, 0));
    assert next == AddedFrom(h.body, 0);
    assert ApplyFrom([], next, [h], 1, NextOffset(0, [], next, -1, -1)) == Applied(next, true);
  }

  /**
    The same `-0,0` hunk on a non-empty file: -1 counts from the end, so the
    lines go in before the file's last line, not at its top.
  */
  lemma ZeroStartInsertsBeforeLastLine(orig: seq<string>, h: Hunk)
    requires orig != [] && h.oldStart == 0 && AllAdded(h.body)
    ensures ApplyHunksStrict(orig, [h]) == Applied(orig[..|orig| - 1] + AddedFrom(h.body, 0) + [orig[|orig| - 1]], true)
  {
    WalkAdded(orig, h.body, 0, -1, []);
    assert [] + AddedFrom(h.body, 0) == AddedFrom(h.body, 0);
    assert [h][0] == h;
    var next := Splice(orig, -1, -1, AddedFrom(h.body, 0));
    assert next == orig[..|orig| - 1] + AddedFrom(h.body, 0) + orig[|orig| - 1..];
    assert orig[|orig| - 1..] == [orig[|orig| - 1]];
    assert ApplyFrom(orig, next, [h], 1, NextOffset(0, orig, next, -1, -1)) == Applied(next, true);
  }

  /** Two hunk lists that differ only in the declared lengths and new start. */
  predicate SameStartsAndBodies(a: seq<Hunk>, b: seq<Hunk>) {
    |a| == |b| && forall k :: 0 <= k < |a| ==> a[k].oldStart == b[k].oldStart && a[k].body == b[k].body
  }

  /** The declared lengths `s` and `t` and the new start are never checked: only the old start and the bodies matter. */
  lemma {:induction false} DeclaredLengthsIgnored(orig: seq<string>, lines: seq<string>, a: seq<Hunk>, b: seq<Hunk>, k: nat, offset: int)
    requires SameStartsAndBodies(a, b) && k <= |a|
    ensures ApplyFrom(orig, lines, a, k, offset) == ApplyFrom(orig, lines, b, k, offset)
    decreases |a| - k
  {
    if k < |a| {
      assert a[k].oldStart == b[k].oldStart && a[k].body == b[k].body;
      var start := a[k].oldStart - 1 + offset;
      var w := WalkBody(lines, a[k].body, 0, start, []);
      if w.Walked? {
        var next := Splice(lines, start, w.cur, w.repl);
        DeclaredLengthsIgnored(orig, next, a, b, k + 1, NextOffset(offset, lines, next, start, w.cur));
      }
    }
  }
}

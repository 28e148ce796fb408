/**
  `_parse_git_unified_patch` (server_patch.py:358-453): reads a GNU/git
  unified diff into file blocks and hunks.  The recursive functions give the
  meaning of each `while` loop; `ParseGitUnifiedPatch` is the loop-based
  parser and is proved to compute them.  A malformed header is an `Err`
  holding the `ValueError` text.
*/
module PatchParse {
  import opened Wrappers
  import opened Text
  import opened Lines

  /** `(a_l, a_s, b_l, b_s, body)`; body lines keep their `+`, `-` or ` ` marker. */
  datatype Hunk = Hunk(oldStart: nat, oldLen: nat, newStart: nat, newLen: nat, body: seq<string>)

  /** `{"old", "new", "hunks", "is_new", "is_delete"}` */
  datatype FileBlock = FileBlock(oldPath: Option<string>, newPath: Option<string>, hunks: seq<Hunk>,
                                 isNew: bool, isDelete: bool)

  // ---------------------------------------------------------------------------
  // The hunk header `^@@\s*-(\d+)(?:,(\d+))?\s+\+(\d+)(?:,(\d+))?\s*@@.*$`.

  datatype HunkHeader = HunkHeader(oldStart: nat, oldLen: nat, newStart: nat, newLen: nat)

  function SkipSpaces(s: string, i: nat): (j: nat)
    requires i <= |s|
    ensures i <= j <= |s|
    ensures forall k :: i <= k < j ==> IsSpace(s[k])
    ensures j < |s| ==> !IsSpace(s[j])
    decreases |s| - i
  {
    if i < |s| && IsSpace(s[i]) then SkipSpaces(s, i + 1) else i
  }

  function SkipDigits(s: string, i: nat): (j: nat)
    requires i <= |s|
    ensures i <= j <= |s|
    ensures AllDigits(s[i..j])
    ensures j < |s| ==> !IsDigit(s[j])
    decreases |s| - i
  {
    if i < |s| && IsDigit(s[i]) then SkipDigits(s, i + 1) else i
  }

  /** `(\d+)` at `i`: its value and where it ends. */
  function ParseNumber(s: string, i: nat): (r: Option<(nat, nat)>)
    requires i <= |s|
    ensures r.Some? ==> i < r.value.1 <= |s|
  {
    var j := SkipDigits(s, i);
    if j == i then None else Some((DigitsValue(s[i..j]), j))
  }

  /** `(\d+)(?:,(\d+))?` at `i`: start, length (1 when omitted) and end. */
  function ParseRange(s: string, i: nat): (r: Option<(nat, nat, nat)>)
    requires i <= |s|
    ensures r.Some? ==> i < r.value.2 <= |s|
  {
    match ParseNumber(s, i)
    case None => None
    case Some((a, p)) => Some(RangeLength(s, a, p))
  }

  /** `(?:,(\d+))?` after the start `a` ends at `p`: the length (1 when omitted) and the range's end. */
  function RangeLength(s: string, a: nat, p: nat): (r: (nat, nat, nat))
    requires p <= |s|
    ensures r.0 == a && p <= r.2 <= |s|
  {
    if p < |s| && s[p] == ',' then
      match ParseNumber(s, p + 1)
      case None => (a, 1, p)
      case Some((len, q)) => (a, len, q)
    else (a, 1, p)
  }

  /**
    The whole header, one piece of the pattern at a time.  Hunk lines come
    from `splitlines()`, so they hold no "\n" and the closing `.*$` always
    matches.
  */
  function ParseHunkHeader(h: string): Option<HunkHeader> {
    if !StartsWith(h, "@@") then None else ParseOldRange(h, SkipSpaces(h, 2))
  }

  /** `-(\d+)(?:,(\d+))?` at `p`. */
  function ParseOldRange(h: string, p: nat): Option<HunkHeader>
    requires p <= |h|
  {
    if p >= |h| || h[p] != '-' then None
    else match ParseRange(h, p + 1)
      case None => None
      case Some((a, s, q)) => ParseNewRange(h, q, a, s)
  }

  /** `\s+\+(\d+)(?:,(\d+))?` at `q`. */
  function ParseNewRange(h: string, q: nat, a: nat, s: nat): Option<HunkHeader>
    requires q <= |h|
  {
    var r := SkipSpaces(h, q);
    if r == q || r >= |h| || h[r] != '+' then None
    else match ParseRange(h, r + 1)
      case None => None
      case Some((b, t, u)) => ParseClose(h, u, HunkHeader(a, s, b, t))
  }

  /** `\s*@@` at `u`. */
  function ParseClose(h: string, u: nat, header: HunkHeader): Option<HunkHeader>
    requires u <= |h|
  {
    var v := SkipSpaces(h, u);
    if v + 2 <= |h| && h[v..v + 2] == "@@" then Some(header) else None
  }

  // ---------------------------------------------------------------------------
  // File blocks.

  predicate EndsBody(line: string) {
    StartsWith(line, "@@") || StartsWith(line, "diff --git") || StartsWith(line, "--- ")
  }

  /** The first `--- ` line at or after `start`, or `|lines|`. */
  function SkipToHeader(lines: seq<string>, start: nat): (j: nat)
    requires start <= |lines|
    ensures start <= j <= |lines|
    ensures j < |lines| ==> StartsWith(lines[j], "--- ")
    ensures forall k :: start <= k < j ==> !StartsWith(lines[k], "--- ")
    decreases |lines| - start
  {
    if start < |lines| && !StartsWith(lines[start], "--- ") then SkipToHeader(lines, start + 1) else start
  }

  /** The end of a hunk body starting at `start`. */
  function BodyEnd(lines: seq<string>, start: nat): (j: nat)
    requires start <= |lines|
    ensures start <= j <= |lines|
    ensures j < |lines| ==> EndsBody(lines[j])
    ensures forall k :: start <= k < j ==> !EndsBody(lines[k])
    decreases |lines| - start
  {
    if start < |lines| && !EndsBody(lines[start]) then BodyEnd(lines, start + 1) else start
  }

  /** `re.match(r"^---\s+(.*)$", line).group(1).strip()` (and the same for `+++`). */
  function PathToken(line: string): string
    requires |line| >= 3
  {
    Strip(line[3..])
  }

  function OldPath(tok: string): Option<string> {
    if tok == "/dev/null" then None else Some(if StartsWith(tok, "a/") then tok[2..] else tok)
  }

  function NewPath(tok: string): Option<string> {
    if tok == "/dev/null" then None else Some(if StartsWith(tok, "b/") then tok[2..] else tok)
  }

  const ErrMissingNewHeader := "Bad patch: expected '+++' after '---'"

  /** The hunk loop of `read_file_block`, from `start`, with the hunks read so far. */
  function ReadHunks(lines: seq<string>, start: nat, acc: seq<Hunk>): (r: Result<(nat, seq<Hunk>), string>)
    requires start <= |lines|
    ensures r.Ok? ==> start <= r.value.0 <= |lines|
    decreases |lines| - start
  {
    if start < |lines| && StartsWith(lines[start], "@@") then
      var hdr := lines[start];
      match ParseHunkHeader(RStrip(hdr, '\r'))
      case None => Err("Bad hunk header: " + hdr)
      case Some(h) =>
        var e := BodyEnd(lines, start + 1);
        ReadHunks(lines, e, acc + [Hunk(h.oldStart, h.oldLen, h.newStart, h.newLen, lines[start + 1..e])])
    else Ok((start, acc))
  }

  /**
    The block of a `---`/`+++` pair: `/dev/null` on one side marks a new or
    deleted file and leaves that side without a path.
  */
  function MakeBlock(oldTok: string, newTok: string, hunks: seq<Hunk>): (f: FileBlock)
    ensures f.isNew <==> f.oldPath.None?
    ensures f.isDelete <==> f.newPath.None?
    ensures f.hunks == hunks
  {
    FileBlock(OldPath(oldTok), NewPath(newTok), hunks, oldTok == "/dev/null", newTok == "/dev/null")
  }

  /** `read_file_block` once the `--- ` line at `h` is found. */
  function ReadBlockAt(lines: seq<string>, h: nat): (r: Result<(nat, Option<FileBlock>), string>)
    requires h < |lines| && StartsWith(lines[h], "--- ")
    ensures r.Ok? ==> h < r.value.0 <= |lines| && r.value.1.Some?
  {
    if h + 1 >= |lines| || !StartsWith(lines[h + 1], "+++ ") then Err(ErrMissingNewHeader)
    else match ReadHunks(lines, h + 2, [])
      case Err(e) => Err(e)
      case Ok((j, hunks)) => Ok((j, Some(MakeBlock(PathToken(lines[h]), PathToken(lines[h + 1]), hunks))))
  }

  /** `read_file_block(start)`: the index reached and the block read, if any. */
  function ReadFileBlock(lines: seq<string>, start: nat): (r: Result<(nat, Option<FileBlock>), string>)
    requires start <= |lines|
    ensures r.Ok? ==> start <= r.value.0 <= |lines|
    ensures r.Ok? && r.value.1.None? ==> r.value.0 == |lines|
    ensures r.Ok? && r.value.1.Some? ==> r.value.0 > start
  {
    var h := SkipToHeader(lines, start);
    if h >= |lines| then Ok((h, None)) else ReadBlockAt(lines, h)
  }

  /** The outer loop, from line `i`, with the blocks read so far. */
  function ParseFrom(lines: seq<string>, i: nat, files: seq<FileBlock>): Result<seq<FileBlock>, string>
    requires i <= |lines|
    decreases |lines| - i
  {
    if i == |lines| then Ok(files)
    else if StartsWith(lines[i], "diff --git ") || StartsWith(lines[i], "--- ") then
      var from := if StartsWith(lines[i], "diff --git ") then i + 1 else i;
      match ReadFileBlock(lines, from)
      case Err(e) => Err(e)
      case Ok((j, f)) =>
        assert j > i by {
          if StartsWith(lines[i], "--- ") && !StartsWith(lines[i], "diff --git ") {
            assert SkipToHeader(lines, i) == i;
          }
        }
        ParseFrom(lines, j, if f.Some? then files + [f.value] else files)
    else ParseFrom(lines, i + 1, files)
  }

  /** `_parse_git_unified_patch(patch_text)` */
  function ParsePatch(patchText: string): Result<seq<FileBlock>, string> {
    ParseFrom(SplitLines(patchText), 0, [])
  }

  // ---------------------------------------------------------------------------
  // The loop-based parser.

  /** The body loop: advances to the next `@@`, `diff --git` or `--- ` line. */
  method ScanBody(lines: seq<string>, bodyStart: nat) returns (e: nat)
    requires bodyStart <= |lines|
    ensures e == BodyEnd(lines, bodyStart)
  {
    e := bodyStart;
    while e < |lines| && !EndsBody(lines[e])
      invariant bodyStart <= e <= |lines|
      invariant BodyEnd(lines, e) == BodyEnd(lines, bodyStart)
    {
      e := e + 1;
    }
  }

  /** The hunk loop of `read_file_block`. */
  method ReadHunksLoop(lines: seq<string>, from: nat) returns (r: Result<(nat, seq<Hunk>), string>)
    requires from <= |lines|
    ensures r == ReadHunks(lines, from, [])
  {
    var start := from;
    var hunks: seq<Hunk> := [];
    while start < |lines| && StartsWith(lines[start], "@@")
      invariant start <= |lines|
      invariant ReadHunks(lines, start, hunks) == ReadHunks(lines, from, [])
      decreases |lines| - start
    {
      var hdr := lines[start];
      var m := ParseHunkHeader(RStrip(hdr, '\r'));
      if m.None? {
        return Err("Bad hunk header: " + hdr);
      }
      var e := ScanBody(lines, start + 1);
      hunks := hunks + [Hunk(m.value.oldStart, m.value.oldLen, m.value.newStart, m.value.newLen, lines[start + 1..e])];
      start := e;
    }
    return Ok((start, hunks));
  }

  /** `read_file_block(start)` */
  method ReadFileBlockLoop(lines: seq<string>, from: nat) returns (r: Result<(nat, Option<FileBlock>), string>)
    requires from <= |lines|
    ensures r == ReadFileBlock(lines, from)
  {
    var start := from;
    while start < |lines| && !StartsWith(lines[start], "--- ")
      invariant from <= start <= |lines|
      invariant SkipToHeader(lines, start) == SkipToHeader(lines, from)
    {
      start := start + 1;
    }
    assert SkipToHeader(lines, start) == start;
    if start >= |lines| {
      return Ok((start, None));
    }
    assert ReadFileBlock(lines, from) == ReadBlockAt(lines, start);
    var oldTok := PathToken(lines[start]);
    if start + 1 >= |lines| || !StartsWith(lines[start + 1], "+++ ") {
      return Err(ErrMissingNewHeader);
    }
    var newTok := PathToken(lines[start + 1]);
    var hs := ReadHunksLoop(lines, start + 2);
    if hs.Err? {
      return Err(hs.error);
    }
    var block := MakeBlock(oldTok, newTok, hs.value.1);
    return Ok((hs.value.0, Some(block)));
  }

  /** `_parse_git_unified_patch(patch_text)`, loop by loop. */
  method ParseGitUnifiedPatch(patchText: string) returns (r: Result<seq<FileBlock>, string>)
    ensures r == ParsePatch(patchText)
  {
    var lines := SplitLines(patchText);
    var n := |lines|;
    var i := 0;
    var files: seq<FileBlock> := [];
    while i < n
      invariant i <= n
      invariant ParseFrom(lines, i, files) == ParseFrom(lines, 0, [])
      decreases n - i
    {
      if StartsWith(lines[i], "diff --git ") {
        var f := ReadFileBlockLoop(lines, i + 1);
        if f.Err? {
          return Err(f.error);
        }
        i := f.value.0;
        if f.value.1.Some? {
          files := files + [f.value.1.value];
        }
      } else if StartsWith(lines[i], "--- ") {
        var f := ReadFileBlockLoop(lines, i);
        if f.Err? {
          return Err(f.error);
        }
        assert SkipToHeader(lines, i) == i;
        i := f.value.0;
        if f.value.1.Some? {
          files := files + [f.value.1.value];
        }
      } else {
        i := i + 1;
      }
    }
    return Ok(files);
  }

  // ---------------------------------------------------------------------------
  // Properties of the parser.

  /** `d` or `d,e`: a range as the header pattern reads it, given its digit runs. */
  function RangeOf(d: string, e: Option<string>): string {
    match e
    case None => d
    case Some(x) => d + "," + x
  }

  /** `\d+` */
  predicate DigitRun(d: string) {
    |d| >= 1 && AllDigits(d)
  }

  predicate RangeRuns(d: string, e: Option<string>) {
    DigitRun(d) && (e.Some? ==> DigitRun(e.value))
  }

  /** `int(m.group(k) or 1)`: the second run's value, or 1 when it is left out. */
  function LengthOf(e: Option<string>): nat
    requires e.Some? ==> AllDigits(e.value)
  {
    match e
    case None => 1
    case Some(x) => DigitsValue(x)
  }

  /** `\s*` */
  predicate AllSpaces(w: string) {
    w == [] || (IsSpace(w[0]) && AllSpaces(w[1..]))
  }

  /** `@@<w1>-<old range><w2>+<new range><w3>@@<rest>` */
  function HeaderOf(w1: string, d1: string, e1: Option<string>, w2: string,
                    d2: string, e2: Option<string>, w3: string, rest: string): string {
    "@@" + (w1 + ("-" + (RangeOf(d1, e1) + (w2 + ("+" + (RangeOf(d2, e2) + (w3 + ("@@" + rest))))))))
  }

  /** What the pattern asks of the pieces: `\s*`, `\s+` and `\s*` blank runs, and digit runs. */
  predicate HeaderPieces(w1: string, d1: string, e1: Option<string>, w2: string,
                         d2: string, e2: Option<string>, w3: string) {
    AllSpaces(w1) && AllSpaces(w2) && |w2| >= 1 && AllSpaces(w3) && RangeRuns(d1, e1) && RangeRuns(d2, e2)
  }

  lemma {:induction false} SkipDigitsTo(s: string, i: nat, j: nat)
    requires i <= j <= |s| && AllDigits(s[i..j])
    requires j == |s| || !IsDigit(s[j])
    ensures SkipDigits(s, i) == j
    decreases j - i
  {
    if i < j {
      assert s[i..j][0] == s[i];
      assert s[i + 1..j] == s[i..j][1..];
      SkipDigitsTo(s, i + 1, j);
    }
  }

  /** A run of digits not followed by a digit reads as its value. */
  lemma ParseDigitsAt(s: string, i: nat, j: nat)
    requires i < j <= |s| && AllDigits(s[i..j])
    requires j == |s| || !IsDigit(s[j])
    ensures ParseNumber(s, i) == Some((DigitsValue(s[i..j]), j))
  {
    SkipDigitsTo(s, i, j);
  }

  lemma {:induction false} SkipSpacesTo(s: string, i: nat, j: nat)
    requires i <= j <= |s| && AllSpaces(s[i..j])
    requires j == |s| || !IsSpace(s[j])
    ensures SkipSpaces(s, i) == j
    decreases j - i
  {
    if i < j {
      assert s[i..j][0] == s[i];
      assert s[i + 1..j] == s[i..j][1..];
      SkipSpacesTo(s, i + 1, j);
    }
  }

  /** A blank is neither a digit nor a comma. */
  lemma SpaceEndsRange(c: char)
    requires IsSpace(c)
    ensures !IsDigit(c) && c != ','
  {
  }

  /** A range followed by neither a digit nor a comma reads as its two numbers. */
  lemma RangeAt(h: string, i: nat, d: string, e: Option<string>)
    requires RangeRuns(d, e) && i + |RangeOf(d, e)| < |h| && h[i..i + |RangeOf(d, e)|] == RangeOf(d, e)
    requires !IsDigit(h[i + |RangeOf(d, e)|]) && h[i + |RangeOf(d, e)|] != ','
    ensures ParseRange(h, i) == Some((DigitsValue(d), LengthOf(e), i + |RangeOf(d, e)|))
  {
    var j := i + |d|;
    if e.None? {
      assert h[i..j] == d;
      ShortRangeAt(h, i, j);
    } else {
      var x := e.value;
      var k := j + 1 + |x|;
      assert h[i..j] == d && h[j] == ',' && h[j + 1..k] == x by {
        CommaSplit(h, i, d, x);
      }
      LongRangeAt(h, i, j, k);
    }
  }

  lemma ShortRangeAt(h: string, i: nat, j: nat)
    requires i < j < |h| && AllDigits(h[i..j]) && !IsDigit(h[j]) && h[j] != ','
    ensures ParseRange(h, i) == Some((DigitsValue(h[i..j]), 1, j))
  {
    ParseDigitsAt(h, i, j);
    RangeFrom(h, i, DigitsValue(h[i..j]), j, 1, j);
  }

  lemma LongRangeAt(h: string, i: nat, j: nat, k: nat)
    requires i < j && j + 1 < k < |h| && AllDigits(h[i..j]) && h[j] == ',' && AllDigits(h[j + 1..k])
    requires !IsDigit(h[k])
    ensures ParseRange(h, i) == Some((DigitsValue(h[i..j]), DigitsValue(h[j + 1..k]), k))
  {
    ParseDigitsAt(h, i, j);
    ParseDigitsAt(h, j + 1, k);
    RangeFrom(h, i, DigitsValue(h[i..j]), j, DigitsValue(h[j + 1..k]), k);
  }

  lemma CommaSplit(h: string, i: nat, d: string, x: string)
    requires i + |d| + 1 + |x| <= |h| && h[i..i + |d| + 1 + |x|] == d + "," + x
    ensures h[i..i + |d|] == d && h[i + |d|] == ',' && h[i + |d| + 1..i + |d| + 1 + |x|] == x
  {
    var w := h[i..i + |d| + 1 + |x|];
    assert h[i..i + |d|] == w[..|d|];
    assert h[i + |d|] == w[|d|];
    assert h[i + |d| + 1..i + |d| + 1 + |x|] == w[|d| + 1..];
  }

  /** `ParseRange` from the numbers it reads. */
  lemma RangeFrom(h: string, i: nat, a: nat, p: nat, len: nat, q: nat)
    requires i <= |h| && ParseNumber(h, i) == Some((a, p))
    requires if p < |h| && h[p] == ',' then ParseNumber(h, p + 1) == Some((len, q))
             else len == 1 && q == p
    ensures ParseRange(h, i) == Some((a, len, q))
  {
  }

  /**
    A header the pattern matches, with any blank runs it allows and digit
    runs with or without leading zeros, reads back as its four numbers; a
    length left out is 1.
  */
  lemma HeaderRoundTrip(w1: string, d1: string, e1: Option<string>, w2: string,
                        d2: string, e2: Option<string>, w3: string, rest: string)
    requires HeaderPieces(w1, d1, e1, w2, d2, e2, w3)
    ensures ParseHunkHeader(HeaderOf(w1, d1, e1, w2, d2, e2, w3, rest))
            == Some(HunkHeader(DigitsValue(d1), LengthOf(e1), DigitsValue(d2), LengthOf(e2)))
  {
    var h := HeaderOf(w1, d1, e1, w2, d2, e2, w3, rest);
    var p := 2 + |w1|;
    var q := p + 1 + |RangeOf(d1, e1)|;
    var r := q + |w2|;
    var u := r + 1 + |RangeOf(d2, e2)|;
    HeaderSlices(w1, RangeOf(d1, e1), w2, RangeOf(d2, e2), w3, rest);
    HeaderAt(h, p, q, r, u, u + |w3|, w1, d1, e1, w2, d2, e2, w3);
  }

  /** Where each piece of `HeaderOf` lies in the line. */
  lemma HeaderSlices(w1: string, r1: string, w2: string, r2: string, w3: string, rest: string)
    ensures var h := "@@" + (w1 + ("-" + (r1 + (w2 + ("+" + (r2 + (w3 + ("@@" + rest))))))));
      var p := 2 + |w1|;
      var q := p + 1 + |r1|;
      var r := q + |w2|;
      var u := r + 1 + |r2|;
      var v := u + |w3|;
      v + 2 <= |h| && h[..2] == "@@" && h[2..p] == w1 && h[p] == '-' && h[p + 1..q] == r1 && h[q..r] == w2
      && h[r] == '+' && h[r + 1..u] == r2 && h[u..v] == w3 && h[v..v + 2] == "@@"
  {
  }

  /** A line holding the pieces of a header at `p`, `q`, `r`, `u` and `v` reads as its numbers. */
  lemma HeaderAt(h: string, p: nat, q: nat, r: nat, u: nat, v: nat, w1: string, d1: string, e1: Option<string>,
                 w2: string, d2: string, e2: Option<string>, w3: string)
    requires HeaderPieces(w1, d1, e1, w2, d2, e2, w3)
    requires p == 2 + |w1| && q == p + 1 + |RangeOf(d1, e1)| && r == q + |w2|
    requires u == r + 1 + |RangeOf(d2, e2)| && v == u + |w3| && v + 2 <= |h|
    requires h[..2] == "@@" && h[2..p] == w1 && h[p] == '-' && h[p + 1..q] == RangeOf(d1, e1) && h[q..r] == w2
    requires h[r] == '+' && h[r + 1..u] == RangeOf(d2, e2) && h[u..v] == w3 && h[v..v + 2] == "@@"
    ensures ParseHunkHeader(h) == Some(HunkHeader(DigitsValue(d1), LengthOf(e1), DigitsValue(d2), LengthOf(e2)))
  {
    SkipSpacesTo(h, 2, p);
    OldRangeAt(h, p, q, r, d1, e1, w2);
    SkipSpacesTo(h, q, r);
    NewRangeAt(h, r, u, v, d2, e2, w3);
    ClosingAt(h, u, v, w3);
    HeaderFrom(h, p, q, r, u, v);
  }

  lemma OldRangeAt(h: string, p: nat, q: nat, r: nat, d: string, e: Option<string>, w2: string)
    requires RangeRuns(d, e) && AllSpaces(w2) && |w2| >= 1
    requires q == p + 1 + |RangeOf(d, e)| && r == q + |w2| && r <= |h|
    requires h[p + 1..q] == RangeOf(d, e) && h[q..r] == w2
    ensures ParseRange(h, p + 1) == Some((DigitsValue(d), LengthOf(e), q))
  {
    assert !IsDigit(h[q]) && h[q] != ',' by {
      assert h[q] == w2[0];
      SpaceEndsRange(w2[0]);
    }
    RangeAt(h, p + 1, d, e);
  }

  lemma NewRangeAt(h: string, r: nat, u: nat, v: nat, d: string, e: Option<string>, w3: string)
    requires RangeRuns(d, e) && AllSpaces(w3)
    requires u == r + 1 + |RangeOf(d, e)| && v == u + |w3| && v + 2 <= |h|
    requires h[r + 1..u] == RangeOf(d, e) && h[u..v] == w3 && h[v..v + 2] == "@@"
    ensures ParseRange(h, r + 1) == Some((DigitsValue(d), LengthOf(e), u))
  {
    ClosingEndsRange(h, u, v, w3);
    RangeAt(h, r + 1, d, e);
  }

  /** The blanks before the closing `@@`, or the `@@` itself, end the new range. */
  lemma ClosingEndsRange(h: string, u: nat, v: nat, w3: string)
    requires AllSpaces(w3) && v == u + |w3| && v + 2 <= |h| && h[u..v] == w3 && h[v..v + 2] == "@@"
    ensures !IsDigit(h[u]) && h[u] != ','
  {
    if u < v {
      assert h[u] == w3[0];
      SpaceEndsRange(w3[0]);
    } else {
      assert h[u] == h[v..v + 2][0];
    }
  }

  lemma ClosingAt(h: string, u: nat, v: nat, w3: string)
    requires AllSpaces(w3) && v == u + |w3| && v + 2 <= |h| && h[u..v] == w3 && h[v..v + 2] == "@@"
    ensures SkipSpaces(h, u) == v
  {
    assert h[v] == h[v..v + 2][0];
    SkipSpacesTo(h, u, v);
  }

  /** `ParseHunkHeader` from where each piece of the pattern ends. */
  lemma HeaderFrom(h: string, p1: nat, q: nat, r: nat, u: nat, v: nat)
    requires StartsWith(h, "@@") && 2 <= |h| && SkipSpaces(h, 2) == p1 && p1 < |h| && h[p1] == '-'
    requires ParseRange(h, p1 + 1).Some? && ParseRange(h, p1 + 1).value.2 == q
    requires q <= |h| && SkipSpaces(h, q) == r && q < r < |h| && h[r] == '+'
    requires ParseRange(h, r + 1).Some? && ParseRange(h, r + 1).value.2 == u
    requires SkipSpaces(h, u) == v && v + 2 <= |h| && h[v..v + 2] == "@@"
    ensures ParseHunkHeader(h) == Some(HunkHeader(ParseRange(h, p1 + 1).value.0, ParseRange(h, p1 + 1).value.1,
                                                  ParseRange(h, r + 1).value.0, ParseRange(h, r + 1).value.1))
  {
    var (a, s, _) := ParseRange(h, p1 + 1).value;
    var (b, t, _) := ParseRange(h, r + 1).value;
    var header := HunkHeader(a, s, b, t);
    assert ParseClose(h, u, header) == Some(header);
    NewRangeFrom(h, q, r, u, header);
    OldRangeFrom(h, p1, q, header);
  }

  lemma NewRangeFrom(h: string, q: nat, r: nat, u: nat, header: HunkHeader)
    requires q <= |h| && SkipSpaces(h, q) == r && q < r < |h| && h[r] == '+'
    requires ParseRange(h, r + 1) == Some((header.newStart, header.newLen, u))
    requires u <= |h| && ParseClose(h, u, header) == Some(header)
    ensures ParseNewRange(h, q, header.oldStart, header.oldLen) == Some(header)
  {
    var HunkHeader(a, s, b, t) := header;
    calc {
      ParseNewRange(h, q, a, s);
      ParseClose(h, u, HunkHeader(a, s, b, t));
    }
  }

  lemma OldRangeFrom(h: string, p1: nat, q: nat, header: HunkHeader)
    requires p1 < |h| && h[p1] == '-'
    requires ParseRange(h, p1 + 1) == Some((header.oldStart, header.oldLen, q))
    requires ParseNewRange(h, q, header.oldStart, header.oldLen) == Some(header)
    ensures ParseOldRange(h, p1) == Some(header)
  {
  }

  /** A range the parser reads is a digit run, optionally a comma and a second run. */
  lemma RangeSound(h: string, i: nat, j: nat) returns (d: string, e: Option<string>)
    requires i <= |h| && ParseRange(h, i).Some? && ParseRange(h, i).value.2 == j
    ensures i < j <= |h| && RangeRuns(d, e) && h[i..j] == RangeOf(d, e)
  {
    var k := SkipDigits(h, i);
    d := h[i..k];
    if k < |h| && h[k] == ',' && ParseNumber(h, k + 1).Some? {
      var m := SkipDigits(h, k + 1);
      e := Some(h[k + 1..m]);
      assert h[i..m] == h[i..k] + "," + h[k + 1..m];
    } else {
      e := None;
    }
  }

  /** The blanks `SkipSpaces` passes over are a blank run. */
  lemma {:induction false} SpacesRun(s: string, i: nat, j: nat)
    requires i <= j <= |s| && forall k :: i <= k < j ==> IsSpace(s[k])
    ensures AllSpaces(s[i..j])
    decreases j - i
  {
    if i < j {
      assert s[i..j][0] == s[i];
      assert s[i + 1..j] == s[i..j][1..];
      SpacesRun(s, i + 1, j);
    }
  }

  /** Where each piece of an accepted header ends. */
  lemma HeaderParts(h: string) returns (p: nat, q: nat, r: nat, u: nat, v: nat)
    requires ParseHunkHeader(h).Some?
    ensures StartsWith(h, "@@") && 2 <= |h| && SkipSpaces(h, 2) == p && p < |h| && h[p] == '-'
    ensures ParseRange(h, p + 1).Some? && ParseRange(h, p + 1).value.2 == q
    ensures q <= |h| && SkipSpaces(h, q) == r && q < r < |h| && h[r] == '+'
    ensures ParseRange(h, r + 1).Some? && ParseRange(h, r + 1).value.2 == u
    ensures SkipSpaces(h, u) == v && v + 2 <= |h| && h[v..v + 2] == "@@"
  {
    p := SkipSpaces(h, 2);
    var a, s;
    a, s, q := OldRangeParts(h, p);
    r, u, v := NewRangeParts(h, q, a, s);
  }

  lemma OldRangeParts(h: string, p: nat) returns (a: nat, s: nat, q: nat)
    requires p <= |h| && ParseOldRange(h, p).Some?
    ensures p < |h| && h[p] == '-' && ParseRange(h, p + 1) == Some((a, s, q))
    ensures ParseNewRange(h, q, a, s).Some?
  {
    var range := ParseRange(h, p + 1).value;
    a, s, q := range.0, range.1, range.2;
  }

  lemma NewRangeParts(h: string, q: nat, a: nat, s: nat) returns (r: nat, u: nat, v: nat)
    requires q <= |h| && ParseNewRange(h, q, a, s).Some?
    ensures SkipSpaces(h, q) == r && q < r < |h| && h[r] == '+'
    ensures ParseRange(h, r + 1).Some? && ParseRange(h, r + 1).value.2 == u
    ensures SkipSpaces(h, u) == v && v + 2 <= |h| && h[v..v + 2] == "@@"
  {
    r := SkipSpaces(h, q);
    var range := ParseRange(h, r + 1).value;
    u := range.2;
    v := CloseParts(h, u, HunkHeader(a, s, range.0, range.1));
  }

  lemma CloseParts(h: string, u: nat, header: HunkHeader) returns (v: nat)
    requires u <= |h| && ParseClose(h, u, header).Some?
    ensures SkipSpaces(h, u) == v && v + 2 <= |h| && h[v..v + 2] == "@@"
  {
    v := SkipSpaces(h, u);
  }

  /** A line cut at `2 <= p < q <= r < u <= v`, with `-` at `p`, `+` at `r` and `@@` at `v`, is those pieces joined. */
  lemma Reassemble(h: string, p: nat, q: nat, r: nat, u: nat, v: nat)
    requires 2 <= p < q <= r < u <= v && v + 2 <= |h|
    requires h[..2] == "@@" && h[p] == '-' && h[r] == '+' && h[v..v + 2] == "@@"
    ensures h == "@@" + (h[2..p] + ("-" + (h[p + 1..q] + (h[q..r] + ("+" + (h[r + 1..u] + (h[u..v] + ("@@" + h[v + 2..]))))))))
  {
    assert h[v..] == "@@" + h[v + 2..];
    assert h[u..] == h[u..v] + h[v..];
    assert h[r + 1..] == h[r + 1..u] + h[u..];
    assert h[r..] == "+" + h[r + 1..];
    assert h[q..] == h[q..r] + h[r..];
    assert h[p + 1..] == h[p + 1..q] + h[q..];
    assert h[p..] == "-" + h[p + 1..];
    assert h[2..] == h[2..p] + h[p..];
    assert h == "@@" + h[2..];
  }

  /** An accepted line joined back from its pieces. */
  lemma HeaderShapeOf(h: string, p: nat, q: nat, r: nat, u: nat, v: nat,
                      d1: string, e1: Option<string>, d2: string, e2: Option<string>)
    requires 2 <= p < q <= r < u <= v && v + 2 <= |h|
    requires h[..2] == "@@" && h[p] == '-' && h[r] == '+' && h[v..v + 2] == "@@"
    requires h[p + 1..q] == RangeOf(d1, e1) && h[r + 1..u] == RangeOf(d2, e2)
    ensures h == HeaderOf(h[2..p], d1, e1, h[q..r], d2, e2, h[u..v], h[v + 2..])
  {
    Reassemble(h, p, q, r, u, v);
  }

  /** The pieces of an accepted line. */
  lemma HeaderSplit(h: string)
    returns (w1: string, d1: string, e1: Option<string>, w2: string,
             d2: string, e2: Option<string>, w3: string, rest: string)
    requires ParseHunkHeader(h).Some?
    ensures HeaderPieces(w1, d1, e1, w2, d2, e2, w3) && h == HeaderOf(w1, d1, e1, w2, d2, e2, w3, rest)
  {
    var p, q, r, u, v := HeaderParts(h);
    d1, e1, d2, e2 := PartsText(h, p, q, r, u, v);
    w1, w2, w3, rest := h[2..p], h[q..r], h[u..v], h[v + 2..];
    HeaderShapeOf(h, p, q, r, u, v, d1, e1, d2, e2);
  }

  /** The text of the pieces `HeaderParts` finds. */
  lemma PartsText(h: string, p: nat, q: nat, r: nat, u: nat, v: nat)
    returns (d1: string, e1: Option<string>, d2: string, e2: Option<string>)
    requires StartsWith(h, "@@") && 2 <= |h| && SkipSpaces(h, 2) == p && p < |h| && h[p] == '-'
    requires ParseRange(h, p + 1).Some? && ParseRange(h, p + 1).value.2 == q
    requires q <= |h| && SkipSpaces(h, q) == r && q < r < |h| && h[r] == '+'
    requires ParseRange(h, r + 1).Some? && ParseRange(h, r + 1).value.2 == u
    requires SkipSpaces(h, u) == v && v + 2 <= |h| && h[v..v + 2] == "@@"
    ensures 2 <= p < q <= r < u <= v && h[..2] == "@@"
    ensures HeaderPieces(h[2..p], d1, e1, h[q..r], d2, e2, h[u..v])
    ensures h[p + 1..q] == RangeOf(d1, e1) && h[r + 1..u] == RangeOf(d2, e2)
  {
    d1, e1 := RangeSound(h, p + 1, q);
    d2, e2 := RangeSound(h, r + 1, u);
    BlanksText(h, p, q, r, u, v);
  }

  lemma BlanksText(h: string, p: nat, q: nat, r: nat, u: nat, v: nat)
    requires 2 <= |h| && SkipSpaces(h, 2) == p && q <= |h| && SkipSpaces(h, q) == r && q < r
    requires u <= |h| && SkipSpaces(h, u) == v
    ensures AllSpaces(h[2..p]) && AllSpaces(h[q..r]) && |h[q..r]| >= 1 && AllSpaces(h[u..v]) && u <= v
  {
    SpacesRun(h, 2, p);
    SpacesRun(h, q, r);
    SpacesRun(h, u, v);
  }

  /**
    Every line the parser accepts as a hunk header has the pattern's shape:
    `@@`, blanks, `-`, a range, at least one blank, `+`, a range, blanks,
    `@@`, and anything after; its numbers are those of the two ranges.
  */
  lemma HeaderSound(h: string)
    returns (w1: string, d1: string, e1: Option<string>, w2: string,
             d2: string, e2: Option<string>, w3: string, rest: string)
    requires ParseHunkHeader(h).Some?
    ensures HeaderPieces(w1, d1, e1, w2, d2, e2, w3) && h == HeaderOf(w1, d1, e1, w2, d2, e2, w3, rest)
    ensures ParseHunkHeader(h) == Some(HunkHeader(DigitsValue(d1), LengthOf(e1), DigitsValue(d2), LengthOf(e2)))
  {
    w1, d1, e1, w2, d2, e2, w3, rest := HeaderSplit(h);
    HeaderRoundTrip(w1, d1, e1, w2, d2, e2, w3, rest);
  }

  /** What the parser promises of every block: the `/dev/null` flags match the missing paths, and no body line could end a body. */
  predicate WellFormedBlock(f: FileBlock) {
    (f.isNew <==> f.oldPath.None?) && (f.isDelete <==> f.newPath.None?) && BodiesClean(f.hunks)
  }

  predicate BodiesClean(hs: seq<Hunk>) {
    forall k, j :: 0 <= k < |hs| && 0 <= j < |hs[k].body| ==> !EndsBody(hs[k].body[j])
  }

  predicate AllWellFormed(files: seq<FileBlock>) {
    forall k :: 0 <= k < |files| ==> WellFormedBlock(files[k])
  }

  lemma AllWellFormedAppend(files: seq<FileBlock>, f: FileBlock)
    requires AllWellFormed(files) && WellFormedBlock(f)
    ensures AllWellFormed(files + [f])
  {
    forall k | 0 <= k < |files + [f]|
      ensures WellFormedBlock((files + [f])[k])
    {
      if k < |files| {
        assert (files + [f])[k] == files[k];
      }
    }
  }

  lemma {:induction false} ReadHunksClean(lines: seq<string>, start: nat, acc: seq<Hunk>)
    requires start <= |lines| && BodiesClean(acc)
    ensures ReadHunks(lines, start, acc).Ok? ==> BodiesClean(ReadHunks(lines, start, acc).value.1)
    decreases |lines| - start
  {
    if start < |lines| && StartsWith(lines[start], "@@") {
      var m := ParseHunkHeader(RStrip(lines[start], '\r'));
      if m.Some? {
        var e := BodyEnd(lines, start + 1);
        var h := Hunk(m.value.oldStart, m.value.oldLen, m.value.newStart, m.value.newLen, lines[start + 1..e]);
        assert BodiesClean(acc + [h]) by {
          forall k, j | 0 <= k < |acc + [h]| && 0 <= j < |(acc + [h])[k].body|
            ensures !EndsBody((acc + [h])[k].body[j])
          {
            if k == |acc| {
              assert (acc + [h])[k].body[j] == lines[start + 1 + j];
            } else {
              assert (acc + [h])[k] == acc[k];
            }
          }
        }
        ReadHunksClean(lines, e, acc + [h]);
      }
    }
  }

  lemma ReadBlockAtWellFormed(lines: seq<string>, h: nat)
    requires h < |lines| && StartsWith(lines[h], "--- ")
    ensures var r := ReadBlockAt(lines, h); r.Ok? ==> WellFormedBlock(r.value.1.value)
  {
    var r := ReadBlockAt(lines, h);
    if r.Ok? {
      var hs := ReadHunks(lines, h + 2, []);
      assert hs.Ok? && r.value.1.value == MakeBlock(PathToken(lines[h]), PathToken(lines[h + 1]), hs.value.1);
      ReadHunksClean(lines, h + 2, []);
    }
  }

  lemma ReadFileBlockWellFormed(lines: seq<string>, start: nat)
    requires start <= |lines|
    ensures var r := ReadFileBlock(lines, start); r.Ok? && r.value.1.Some? ==> WellFormedBlock(r.value.1.value)
  {
    var h := SkipToHeader(lines, start);
    if h < |lines| {
      ReadBlockAtWellFormed(lines, h);
    }
  }

  /** Every block of a successful parse is well formed. */
  lemma {:induction false} ParseFromWellFormed(lines: seq<string>, i: nat, files: seq<FileBlock>)
    requires i <= |lines|
    requires AllWellFormed(files)
    ensures var r := ParseFrom(lines, i, files); r.Ok? ==> AllWellFormed(r.value)
    decreases |lines| - i
  {
    if i < |lines| {
      if StartsWith(lines[i], "diff --git ") || StartsWith(lines[i], "--- ") {
        var from := if StartsWith(lines[i], "diff --git ") then i + 1 else i;
        ReadFileBlockWellFormed(lines, from);
        var b := ReadFileBlock(lines, from);
        if b.Ok? {
          if StartsWith(lines[i], "--- ") && !StartsWith(lines[i], "diff --git ") {
            assert SkipToHeader(lines, i) == i;
          }
          var next := if b.value.1.Some? then files + [b.value.1.value] else files;
          if b.value.1.Some? {
            AllWellFormedAppend(files, b.value.1.value);
          }
          assert ParseFrom(lines, i, files) == ParseFrom(lines, b.value.0, next);
          ParseFromWellFormed(lines, b.value.0, next);
        }
      } else {
        ParseFromWellFormed(lines, i + 1, files);
      }
    }
  }

  lemma ParsePatchWellFormed(patchText: string)
    ensures var r := ParsePatch(patchText);
      r.Ok? ==> forall k :: 0 <= k < |r.value| ==> WellFormedBlock(r.value[k])
  {
    assert AllWellFormed([]);
    ParseFromWellFormed(SplitLines(patchText), 0, []);
  }

  /** One of the two `ValueError`s the parser raises, for the lines from `i` on. */
  predicate ParseErrorFrom(lines: seq<string>, i: nat, e: string) {
    e == ErrMissingNewHeader || exists k :: i <= k < |lines| && BadHeaderLine(lines, k, e)
  }

  /** Line `k` starts with `@@`, is not a hunk header, and `e` names it. */
  predicate BadHeaderLine(lines: seq<string>, k: nat, e: string)
    requires k < |lines|
  {
    StartsWith(lines[k], "@@") && ParseHunkHeader(RStrip(lines[k], '\r')).None? && e == "Bad hunk header: " + lines[k]
  }

  lemma ParseErrorWeaken(lines: seq<string>, i: nat, j: nat, e: string)
    requires i <= j && ParseErrorFrom(lines, j, e)
    ensures ParseErrorFrom(lines, i, e)
  {
  }

  lemma {:induction false} ReadHunksError(lines: seq<string>, start: nat, acc: seq<Hunk>)
    requires start <= |lines|
    ensures ReadHunks(lines, start, acc).Err? ==> ParseErrorFrom(lines, start, ReadHunks(lines, start, acc).error)
    decreases |lines| - start
  {
    if start < |lines| && StartsWith(lines[start], "@@") {
      var m := ParseHunkHeader(RStrip(lines[start], '\r'));
      if m.Some? {
        var e := BodyEnd(lines, start + 1);
        var h := Hunk(m.value.oldStart, m.value.oldLen, m.value.newStart, m.value.newLen, lines[start + 1..e]);
        ReadHunksError(lines, e, acc + [h]);
        if ReadHunks(lines, e, acc + [h]).Err? {
          ParseErrorWeaken(lines, start, e, ReadHunks(lines, e, acc + [h]).error);
        }
      } else {
        assert BadHeaderLine(lines, start, "Bad hunk header: " + lines[start]);
      }
    }
  }

  lemma ReadBlockAtError(lines: seq<string>, h: nat)
    requires h < |lines| && StartsWith(lines[h], "--- ")
    ensures ReadBlockAt(lines, h).Err? ==> ParseErrorFrom(lines, h, ReadBlockAt(lines, h).error)
  {
    if h + 1 < |lines| && StartsWith(lines[h + 1], "+++ ") {
      var hs := ReadHunks(lines, h + 2, []);
      if hs.Err? {
        ReadHunksError(lines, h + 2, []);
        ParseErrorWeaken(lines, h, h + 2, hs.error);
      }
    }
  }

  lemma ReadFileBlockError(lines: seq<string>, from: nat)
    requires from <= |lines|
    ensures ReadFileBlock(lines, from).Err? ==> ParseErrorFrom(lines, from, ReadFileBlock(lines, from).error)
  {
    var h := SkipToHeader(lines, from);
    if h < |lines| {
      ReadBlockAtError(lines, h);
      var r := ReadBlockAt(lines, h);
      if r.Err? {
        ParseErrorWeaken(lines, from, h, r.error);
      }
    }
  }

  /**
    The parser fails only with a `---` line that lacks its `+++` line or
    with an `@@` line that is not a hunk header, and then the message names
    that line.
  */
  lemma {:induction false} ParseFromError(lines: seq<string>, i: nat, files: seq<FileBlock>)
    requires i <= |lines|
    ensures ParseFrom(lines, i, files).Err? ==> ParseErrorFrom(lines, i, ParseFrom(lines, i, files).error)
    decreases |lines| - i
  {
    if i < |lines| {
      if StartsWith(lines[i], "diff --git ") || StartsWith(lines[i], "--- ") {
        var from := if StartsWith(lines[i], "diff --git ") then i + 1 else i;
        var b := ReadFileBlock(lines, from);
        ReadFileBlockError(lines, from);
        if b.Err? {
          ParseErrorWeaken(lines, i, from, b.error);
        } else {
          if StartsWith(lines[i], "--- ") && !StartsWith(lines[i], "diff --git ") {
            assert SkipToHeader(lines, i) == i;
          }
          var next := if b.value.1.Some? then files + [b.value.1.value] else files;
          ParseFromError(lines, b.value.0, next);
          if ParseFrom(lines, b.value.0, next).Err? {
            ParseErrorWeaken(lines, i, b.value.0, ParseFrom(lines, b.value.0, next).error);
          }
        }
      } else {
        ParseFromError(lines, i + 1, files);
        if ParseFrom(lines, i + 1, files).Err? {
          ParseErrorWeaken(lines, i, i + 1, ParseFrom(lines, i + 1, files).error);
        }
      }
    }
  }

  /** Text with no `--- ` line holds no file block: the parse succeeds with nothing. */
  lemma {:induction false} NoHeaderNoBlocks(lines: seq<string>, i: nat, files: seq<FileBlock>)
    requires i <= |lines|
    requires forall k :: i <= k < |lines| ==> !StartsWith(lines[k], "--- ")
    ensures ParseFrom(lines, i, files) == Ok(files)
    decreases |lines| - i
  {
    if i < |lines| {
      if StartsWith(lines[i], "diff --git ") {
        assert SkipToHeader(lines, i + 1) == |lines|;
      } else {
        NoHeaderNoBlocks(lines, i + 1, files);
      }
    }
  }

  /** `/dev/null` is the only token with no path; otherwise one `a/` (old side) or `b/` (new side) is dropped. */
  lemma PathTokens(tok: string, p: string)
    ensures OldPath(tok).None? <==> tok == "/dev/null"
    ensures NewPath(tok).None? <==> tok == "/dev/null"
    ensures OldPath("a/" + p) == Some(p) && NewPath("b/" + p) == Some(p)
    ensures !StartsWith(tok, "a/") && tok != "/dev/null" ==> OldPath(tok) == Some(tok)
    ensures !StartsWith(tok, "b/") && tok != "/dev/null" ==> NewPath(tok) == Some(tok)
  {
    assert ("a/" + p)[0] == 'a' && ("b/" + p)[0] == 'b';
    assert ("a/" + p)[2..] == p && ("b/" + p)[2..] == p;
  }
}

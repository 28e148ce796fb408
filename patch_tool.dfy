/**
  `apply_git_unified_patch_tool` (server_patch.py:496-582): resolves the
  repository root, parses the patch and applies its file blocks one after
  the other to the working tree, recording every patched file in the
  package's modification history.  A block that fails ends the call with an
  error; the blocks before it stay applied.
*/
module PatchTool {
  import opened Wrappers
  import opened Text
  import opened Lines
  import opened PatchParse
  import opened PatchApply
  import opened Paths
  import opened Store

  /** The machine's files (absolute path to text) and directories (absolute paths). */
  class Workspace {
    var files: map<string, string>
    var dirs: set<string>

    constructor(files: map<string, string>, dirs: set<string>)
      ensures this.files == files && this.dirs == dirs
    {
      this.files := files;
      this.dirs := dirs;
    }
  }

  // ---------------------------------------------------------------------------
  // Reading in text mode.

  /** Text-mode reading with universal newlines: "\r\n" and a lone "\r" both become "\n". */
  function ReadText(s: string): (r: string)
    ensures '\r' !in r
    decreases |s|
  {
    if s == [] then []
    else if s[0] == '\r' then "\n" + ReadText(if |s| > 1 && s[1] == '\n' then s[2..] else s[1..])
    else [s[0]] + ReadText(s[1..])
  }

  /** Text without carriage returns reads back as itself. */
  lemma {:induction false} ReadTextPlain(s: string)
    requires '\r' !in s
    ensures ReadText(s) == s
    decreases |s|
  {
    if s != [] {
      assert s[0] != '\r' by {
        assert s[0] in s;
      }
      assert '\r' !in s[1..] by {
        forall k | 0 <= k < |s[1..]|
          ensures s[1..][k] != '\r'
        {
          assert s[1..][k] == s[k + 1] && s[k + 1] in s;
        }
      }
      ReadTextPlain(s[1..]);
      assert s == [s[0]] + s[1..];
    }
  }

  // ---------------------------------------------------------------------------
  // Messages.

  // Every error the tool reports is "Error: " and a reason.

  function RootNotFound(repoRoot: string): string {
    "repo_root not found: " + repoRoot
  }

  /** The "No file blocks" reason shows the first eight lines of the patch. */
  function NoBlocks(patchText: string): string {
    "No file blocks detected in patch.\nHead:\n" + Join(TakeSeq(SplitLines(patchText), 8), "\n")
  }

  const InvalidBlock := "invalid file block (both paths /dev/null?)"

  function Escapes(target: string): string {
    "path escapes repo_root: " + target
  }

  function NotFound(target: string): string {
    "target not found for patch: " + target
  }

  function HunkFailed(target: string): string {
    "Hunk failed for " + target + ". Ensure exact context lines and correct ranges."
  }

  /** The text of the `IsADirectoryError` raised by opening a directory as a file on Linux. */
  function IsADirectory(path: string): string {
    "[Errno 21] Is a directory: '" + path + "'"
  }

  const SuccessHeading := "Success: applied patch\n"

  // ---------------------------------------------------------------------------
  // One file block.

  /** The path a block patches: its new path, or its old path when it deletes. */
  function Target(f: FileBlock): Option<string> {
    if !f.isDelete then f.newPath else f.oldPath
  }

  /** `A`, `D` or `M` and the block's target. */
  function Label(f: FileBlock, target: string): string {
    (if f.isNew then "A " else if f.isDelete then "D " else "M ") + target
  }

  /** Where a target lands: `abspath(join(root, target))`. */
  function TargetPath(cwd: string, root: string, target: string): string {
    AbsPath(cwd, PathJoin(root, target))
  }

  datatype Step =
    | Wrote(files: map<string, string>, target: string)
    | Failed(reason: string)

  /** The outcome of one block on the given files. */
  function ApplyBlock(cwd: string, root: string, dirs: set<string>, files: map<string, string>, f: FileBlock): Step {
    var t := Target(f);
    if t.None? || t.value == "" then Failed(InvalidBlock)
    else
      var target := t.value;
      var abs := TargetPath(cwd, root, target);
      if !StartsWith(abs, root + "/") then Failed(Escapes(target))
      else if !f.isNew && abs !in files && abs !in dirs then Failed(NotFound(target))
      else if !f.isNew && abs in dirs then Failed(IsADirectory(abs))
      else if f.isDelete then Wrote(files - {abs}, target)
      else
        var orig := if f.isNew then "" else ReadText(files[abs]);
        match ApplyHunksStrict(SplitLinesKeepEnds(orig), f.hunks)
        case ApplyRaised(m) => Failed(m)
        case Applied(lines, ok) =>
          if !ok then Failed(HunkFailed(target))
          else if abs in dirs then Failed(IsADirectory(abs))
          else Wrote(files[abs := Concat(lines)], target)
  }

  /** `a` and `b` agree at `p`: both lack it or both hold the same text there. */
  predicate AgreeAt(a: map<string, string>, b: map<string, string>, p: string) {
    (p in a <==> p in b) && (p in a ==> a[p] == b[p])
  }

  /**
    A block that applies writes or removes exactly its own target, which
    lies under the root, and touches no other path.
  */
  lemma ApplyBlockTouchesOnlyTarget(cwd: string, root: string, dirs: set<string>, files: map<string, string>, f: FileBlock)
    ensures var s := ApplyBlock(cwd, root, dirs, files, f);
      s.Wrote? ==>
        Target(f) == Some(s.target) && s.target != ""
        && StartsWith(TargetPath(cwd, root, s.target), root + "/")
        && (f.isDelete <==> TargetPath(cwd, root, s.target) !in s.files)
        && forall p :: p != TargetPath(cwd, root, s.target) ==> AgreeAt(files, s.files, p)
  {
  }

  // ---------------------------------------------------------------------------
  // All blocks, in order, without rollback.

  /** The files, the labels and the patched targets after the given blocks, and the error that stopped them. */
  datatype Run = Run(files: map<string, string>, labels: seq<string>, patched: seq<string>, failure: Option<string>)

  function ApplyBlocks(cwd: string, root: string, dirs: set<string>, blocks: seq<FileBlock>,
                       files: map<string, string>, labels: seq<string>, patched: seq<string>): Run
    decreases |blocks|, 1
  {
    if blocks == [] then Run(files, labels, patched, None)
    else ApplyFirstBlock(cwd, root, dirs, blocks, files, labels, patched)
  }

  /** The first block, then the blocks after it unless it failed. */
  function ApplyFirstBlock(cwd: string, root: string, dirs: set<string>, blocks: seq<FileBlock>,
                           files: map<string, string>, labels: seq<string>, patched: seq<string>): Run
    requires blocks != []
    decreases |blocks|, 0
  {
    match ApplyBlock(cwd, root, dirs, files, blocks[0])
    case Failed(m) => Run(files, labels, patched, Some(m))
    case Wrote(next, target) =>
      ApplyBlocks(cwd, root, dirs, blocks[1..], next, labels + [Label(blocks[0], target)], patched + [target])
  }

  /** One block of the run: it either stops the run with its error or hands its files to the next block. */
  lemma ApplyBlocksStep(cwd: string, root: string, dirs: set<string>, blocks: seq<FileBlock>,
                        files: map<string, string>, labels: seq<string>, patched: seq<string>, s: Step)
    requires blocks != [] && s == ApplyBlock(cwd, root, dirs, files, blocks[0])
    ensures ApplyBlocks(cwd, root, dirs, blocks, files, labels, patched)
            == if s.Failed? then Run(files, labels, patched, Some(s.reason))
               else ApplyBlocks(cwd, root, dirs, blocks[1..], s.files, labels + [Label(blocks[0], s.target)], patched + [s.target])
  {
  }

  /** What the tool returns, the files it leaves and the targets it patched, in order. */
  datatype Outcome = Outcome(message: string, files: map<string, string>, patched: seq<string>)

  function PatchOutcome(cwd: string, dirs: set<string>, files: map<string, string>,
                        repoRoot: string, patchText: string): Outcome
  {
    var root := AbsPath(cwd, repoRoot);
    if root !in dirs then Outcome("Error: " + RootNotFound(repoRoot), files, [])
    else match ParsePatch(patchText)
      case Err(e) => Outcome("Error: " + e, files, [])
      case Ok(blocks) =>
        if blocks == [] then Outcome("Error: " + NoBlocks(patchText), files, [])
        else
          var run := ApplyBlocks(cwd, root, dirs, blocks, files, [], []);
          Outcome(if run.failure.Some? then "Error: " + run.failure.value else SuccessHeading + Join(run.labels, "\n"),
                  run.files, run.patched)
  }

  /** The package the history is kept under: the root's last component. */
  function PatchPackage(root: string): string {
    Basename(RStrip(root, '/'))
  }

  function PatchedRecords(targets: seq<string>): (r: seq<ModRecord>)
    ensures |r| == |targets| && forall k :: 0 <= k < |r| ==> r[k] == Patched(targets[k])
  {
    seq(|targets|, k requires 0 <= k < |targets| => Patched(targets[k]))
  }

  /** The history after one `Patched` record per target was appended under `pkg`. */
  function WithPatched(h: map<string, seq<ModRecord>>, pkg: string, targets: seq<string>): map<string, seq<ModRecord>> {
    if targets == [] then h
    else h[pkg := (if pkg in h then h[pkg] else []) + PatchedRecords(targets)]
  }

  // ---------------------------------------------------------------------------
  // The tool.

  /** One block applied to the workspace. */
  method ApplyBlockIn(ws: Workspace, cwd: string, root: string, f: FileBlock) returns (s: Step)
    modifies ws
    ensures s == ApplyBlock(cwd, root, old(ws.dirs), old(ws.files), f)
    ensures ws.dirs == old(ws.dirs)
    ensures ws.files == if s.Wrote? then s.files else old(ws.files)
  {
    var t := Target(f);
    if t.None? || t.value == "" {
      return Failed(InvalidBlock);
    }
    var target := t.value;
    var abs := AbsPath(cwd, PathJoin(root, target));
    if !StartsWith(abs, root + "/") {
      return Failed(Escapes(target));
    }
    var orig := "";
    if !f.isNew {
      if abs !in ws.files && abs !in ws.dirs {
        return Failed(NotFound(target));
      }
      if abs in ws.dirs {
        return Failed(IsADirectory(abs));
      }
      orig := ReadText(ws.files[abs]);
    }
    if f.isDelete {
      ws.files := ws.files - {abs};
      return Wrote(ws.files, target);
    }
    var r := ApplyHunks(SplitLinesKeepEnds(orig), f.hunks);
    if r.ApplyRaised? {
      return Failed(r.message);
    }
    if !r.ok {
      return Failed(HunkFailed(target));
    }
    if abs in ws.dirs {
      return Failed(IsADirectory(abs));
    }
    ws.files := ws.files[abs := Concat(r.lines)];
    return Wrote(ws.files, target);
  }

  /**
    `apply_git_unified_patch_tool(repo_root, patch_text, record_history)`
    with `os.getcwd()` given as `cwd`: the message, the new files and the
    new history are those of `PatchOutcome`.
  */
  method ApplyGitUnifiedPatchTool(ws: Workspace, store: StateStore, cwd: string, repoRoot: string,
                                  patchText: string, recordHistory: bool) returns (message: string)
    modifies ws, store
    ensures var o := PatchOutcome(cwd, old(ws.dirs), old(ws.files), repoRoot, patchText);
      message == o.message && ws.files == o.files && ws.dirs == old(ws.dirs)
      && store.modificationHistory
         == (if recordHistory then WithPatched(old(store.modificationHistory), PatchPackage(AbsPath(cwd, repoRoot)), o.patched)
             else old(store.modificationHistory))
    ensures store.toolCache == old(store.toolCache) && store.toolCallHistory == old(store.toolCallHistory)
  {
    var root := AbsPath(cwd, repoRoot);
    if root !in ws.dirs {
      return "Error: " + RootNotFound(repoRoot);
    }
    var parsed := ParseGitUnifiedPatch(patchText);
    if parsed.Err? {
      return "Error: " + parsed.error;
    }
    var blocks := parsed.value;
    if blocks == [] {
      return "Error: " + NoBlocks(patchText);
    }
    OutcomeOfRun(cwd, ws.dirs, ws.files, repoRoot, patchText, blocks);
    var failure, labels := ApplyBlocksIn(ws, store, cwd, root, blocks, PatchPackage(root), recordHistory);
    if failure.Some? {
      return "Error: " + failure.value;
    }
    return SuccessHeading + Join(labels, "\n");
  }

  /**
    The loop over the blocks: each block in turn is applied to the
    workspace and, when `recordHistory` holds, recorded under `pkg`; the
    first block that fails ends the loop and keeps what earlier blocks wrote.
  */
  method ApplyBlocksIn(ws: Workspace, store: StateStore, cwd: string, root: string, blocks: seq<FileBlock>,
                       pkg: string, recordHistory: bool) returns (failure: Option<string>, labels: seq<string>)
    modifies ws, store
    ensures var run := ApplyBlocks(cwd, root, old(ws.dirs), blocks, old(ws.files), [], []);
      failure == run.failure && labels == run.labels && ws.files == run.files && ws.dirs == old(ws.dirs)
      && store.modificationHistory
         == (if recordHistory then WithPatched(old(store.modificationHistory), pkg, run.patched)
             else old(store.modificationHistory))
    ensures store.toolCache == old(store.toolCache) && store.toolCallHistory == old(store.toolCallHistory)
  {
    ghost var run := ApplyBlocks(cwd, root, ws.dirs, blocks, ws.files, [], []);
    labels := [];
    var patched: seq<string> := [];
    var i := 0;
    while i < |blocks|
      invariant i <= |blocks|
      invariant ws.dirs == old(ws.dirs)
      invariant ApplyBlocks(cwd, root, ws.dirs, blocks[i..], ws.files, labels, patched) == run
      invariant store.modificationHistory
                == if recordHistory then WithPatched(old(store.modificationHistory), pkg, patched) else old(store.modificationHistory)
      invariant store.toolCache == old(store.toolCache) && store.toolCallHistory == old(store.toolCallHistory)
    {
      ghost var files0 := ws.files;
      var s := ApplyBlockIn(ws, cwd, root, blocks[i]);
      assert blocks[i..][0] == blocks[i] && blocks[i..][1..] == blocks[i + 1..];
      ApplyBlocksStep(cwd, root, ws.dirs, blocks[i..], files0, labels, patched, s);
      if s.Failed? {
        return Some(s.reason), labels;
      }
      labels := labels + [Label(blocks[i], s.target)];
      if recordHistory {
        WithPatchedStep(store.modificationHistory, old(store.modificationHistory), pkg, patched, s.target);
        store.RecordPatchedFile(pkg, s.target);
      }
      patched := patched + [s.target];
      i := i + 1;
    }
    assert blocks[i..] == [];
    return None, labels;
  }

  /** The tool's outcome once the root exists and the patch parses into blocks: that of their run. */
  lemma OutcomeOfRun(cwd: string, dirs: set<string>, files: map<string, string>, repoRoot: string, patchText: string,
                     blocks: seq<FileBlock>)
    requires AbsPath(cwd, repoRoot) in dirs && ParsePatch(patchText) == Ok(blocks) && blocks != []
    ensures var run := ApplyBlocks(cwd, AbsPath(cwd, repoRoot), dirs, blocks, files, [], []);
      PatchOutcome(cwd, dirs, files, repoRoot, patchText)
      == Outcome(if run.failure.Some? then "Error: " + run.failure.value else SuccessHeading + Join(run.labels, "\n"),
                 run.files, run.patched)
  {
  }

  /** Appending one more target's record is one `RecordPatchedFile`. */
  lemma WithPatchedStep(h: map<string, seq<ModRecord>>, h0: map<string, seq<ModRecord>>, pkg: string,
                        targets: seq<string>, t: string)
    requires h == WithPatched(h0, pkg, targets)
    ensures WithPatched(h0, pkg, targets + [t])
            == h[pkg := (if pkg in h then h[pkg] else []) + [Patched(t)]]
  {
    var base := if pkg in h0 then h0[pkg] else [];
    assert PatchedRecords(targets + [t]) == PatchedRecords(targets) + [Patched(t)];
    if targets == [] {
      assert targets + [t] == [t];
      assert PatchedRecords([t]) == [Patched(t)];
      assert h == h0 && base + [Patched(t)] == (if pkg in h then h[pkg] else []) + [Patched(t)];
    } else {
      assert base + PatchedRecords(targets + [t]) == (base + PatchedRecords(targets)) + [Patched(t)];
    }
  }

  // ---------------------------------------------------------------------------
  // What a run can change.

  /** `a` and `b` agree at every path outside the given footprint. */
  lemma AgreeTrans(a: map<string, string>, b: map<string, string>, c: map<string, string>, p: string)
    requires AgreeAt(a, b, p) && AgreeAt(b, c, p)
    ensures AgreeAt(a, c, p)
  {
  }

  /** The blocks extend the patched list, and each newly patched target lies under the root. */
  lemma {:induction false} ApplyBlocksPatched(cwd: string, root: string, dirs: set<string>, blocks: seq<FileBlock>,
                                               files: map<string, string>, labels: seq<string>, patched: seq<string>)
    ensures var r := ApplyBlocks(cwd, root, dirs, blocks, files, labels, patched);
      |patched| <= |r.patched| && r.patched[..|patched|] == patched
      && forall k :: |patched| <= k < |r.patched| ==> StartsWith(TargetPath(cwd, root, r.patched[k]), root + "/")
    decreases |blocks|
  {
    if blocks != [] {
      var s := ApplyBlock(cwd, root, dirs, files, blocks[0]);
      ApplyBlocksStep(cwd, root, dirs, blocks, files, labels, patched, s);
      if s.Wrote? {
        var next := patched + [s.target];
        var r := ApplyBlocks(cwd, root, dirs, blocks[1..], s.files, labels + [Label(blocks[0], s.target)], next);
        ApplyBlockTouchesOnlyTarget(cwd, root, dirs, files, blocks[0]);
        ApplyBlocksPatched(cwd, root, dirs, blocks[1..], s.files, labels + [Label(blocks[0], s.target)], next);
        assert r.patched[..|patched|] == next[..|patched|] == patched;
        forall k | |patched| <= k < |r.patched|
          ensures StartsWith(TargetPath(cwd, root, r.patched[k]), root + "/")
        {
          if k == |patched| {
            assert r.patched[k] == next[|patched|] == s.target;
          }
        }
      }
    }
  }

  /** Every path that is none of the newly patched targets keeps its text. */
  lemma {:induction false} ApplyBlocksKeepsOthers(cwd: string, root: string, dirs: set<string>, blocks: seq<FileBlock>,
                                                   files: map<string, string>, labels: seq<string>, patched: seq<string>,
                                                   r: Run, p: string)
    requires r == ApplyBlocks(cwd, root, dirs, blocks, files, labels, patched)
    requires forall k :: |patched| <= k < |r.patched| ==> p != TargetPath(cwd, root, r.patched[k])
    ensures AgreeAt(files, r.files, p)
    decreases |blocks|
  {
    if blocks != [] {
      var s := ApplyBlock(cwd, root, dirs, files, blocks[0]);
      ApplyBlocksStep(cwd, root, dirs, blocks, files, labels, patched, s);
      if s.Wrote? {
        var next := patched + [s.target];
        ApplyBlockTouchesOnlyTarget(cwd, root, dirs, files, blocks[0]);
        ApplyBlocksPatched(cwd, root, dirs, blocks[1..], s.files, labels + [Label(blocks[0], s.target)], next);
        assert r.patched[|patched|] == next[|patched|] == s.target;
        var target := r.patched[|patched|];
        assert p != TargetPath(cwd, root, target);
        ApplyBlocksKeepsOthers(cwd, root, dirs, blocks[1..], s.files, labels + [Label(blocks[0], s.target)], next, r, p);
        AgreeTrans(files, s.files, r.files, p);
      }
    }
  }

  /** The blocks either all apply, adding one label and one target each, or stop with an error. */
  lemma {:induction false} ApplyBlocksCounts(cwd: string, root: string, dirs: set<string>, blocks: seq<FileBlock>,
                                              files: map<string, string>, labels: seq<string>, patched: seq<string>)
    ensures var r := ApplyBlocks(cwd, root, dirs, blocks, files, labels, patched);
      r.failure.None? ==> |r.labels| == |labels| + |blocks| && |r.patched| == |patched| + |blocks|
    ensures var r := ApplyBlocks(cwd, root, dirs, blocks, files, labels, patched);
      r.failure.Some? ==> |r.patched| < |patched| + |blocks|
    decreases |blocks|
  {
    if blocks != [] {
      var s := ApplyBlock(cwd, root, dirs, files, blocks[0]);
      ApplyBlocksStep(cwd, root, dirs, blocks, files, labels, patched, s);
      if s.Wrote? {
        ApplyBlocksCounts(cwd, root, dirs, blocks[1..], s.files, labels + [Label(blocks[0], s.target)], patched + [s.target]);
      }
    }
  }

  // ---------------------------------------------------------------------------
  // Running blocks one after another.

  /** Labels and targets accumulated before the blocks only prefix what the blocks add. */
  lemma {:induction false} ApplyBlocksAccumulate(cwd: string, root: string, dirs: set<string>, blocks: seq<FileBlock>,
                                                  files: map<string, string>, labels: seq<string>, patched: seq<string>,
                                                  preLabels: seq<string>, prePatched: seq<string>)
    ensures var r := ApplyBlocks(cwd, root, dirs, blocks, files, labels, patched);
      ApplyBlocks(cwd, root, dirs, blocks, files, preLabels + labels, prePatched + patched)
      == Run(r.files, preLabels + r.labels, prePatched + r.patched, r.failure)
    decreases |blocks|
  {
    if blocks != [] {
      var s := ApplyBlock(cwd, root, dirs, files, blocks[0]);
      ApplyBlocksStep(cwd, root, dirs, blocks, files, preLabels + labels, prePatched + patched, s);
      ApplyBlocksStep(cwd, root, dirs, blocks, files, labels, patched, s);
      if s.Wrote? {
        var l := Label(blocks[0], s.target);
        ApplyBlocksAccumulate(cwd, root, dirs, blocks[1..], s.files, labels + [l], patched + [s.target], preLabels, prePatched);
        assert preLabels + labels + [l] == preLabels + (labels + [l]);
        assert prePatched + patched + [s.target] == prePatched + (patched + [s.target]);
      }
    }
  }

  /** The blocks `a + b` run as `a` and then, unless `a` failed, as `b` from where `a` stopped. */
  lemma {:induction false} ApplyBlocksSplit(cwd: string, root: string, dirs: set<string>, a: seq<FileBlock>, b: seq<FileBlock>,
                                             files: map<string, string>, labels: seq<string>, patched: seq<string>)
    ensures var ra := ApplyBlocks(cwd, root, dirs, a, files, labels, patched);
      ApplyBlocks(cwd, root, dirs, a + b, files, labels, patched)
      == if ra.failure.Some? then ra else ApplyBlocks(cwd, root, dirs, b, ra.files, ra.labels, ra.patched)
    decreases |a|
  {
    if a == [] {
      assert a + b == b;
    } else {
      assert (a + b)[0] == a[0] && (a + b)[1..] == a[1..] + b;
      var s := ApplyBlock(cwd, root, dirs, files, a[0]);
      ApplyBlocksStep(cwd, root, dirs, a + b, files, labels, patched, s);
      ApplyBlocksStep(cwd, root, dirs, a, files, labels, patched, s);
      if s.Wrote? {
        ApplyBlocksSplit(cwd, root, dirs, a[1..], b, s.files, labels + [Label(a[0], s.target)], patched + [s.target]);
      }
    }
  }

  /**
    Applying the blocks `a + b` is applying `a`, then `b` to what `a` left:
    an error in `a` stops the run before `b`, and an error in `b` keeps
    everything `a` wrote (nothing is rolled back).
  */
  lemma BlocksCompose(cwd: string, root: string, dirs: set<string>, a: seq<FileBlock>, b: seq<FileBlock>,
                      files: map<string, string>)
    ensures var ra := ApplyBlocks(cwd, root, dirs, a, files, [], []);
      var rb := ApplyBlocks(cwd, root, dirs, b, ra.files, [], []);
      ApplyBlocks(cwd, root, dirs, a + b, files, [], [])
      == if ra.failure.Some? then ra
         else Run(rb.files, ra.labels + rb.labels, ra.patched + rb.patched, rb.failure)
  {
    var ra := ApplyBlocks(cwd, root, dirs, a, files, [], []);
    ApplyBlocksSplit(cwd, root, dirs, a, b, files, [], []);
    if ra.failure.None? {
      ApplyBlocksAccumulate(cwd, root, dirs, b, ra.files, [], [], ra.labels, ra.patched);
      assert ra.labels + [] == ra.labels && ra.patched + [] == ra.patched;
    }
  }

  // ---------------------------------------------------------------------------
  // The whole call.

  /**
    The call changes nothing but the files it lists as patched, all of which
    lie under the root; in particular no path outside the root changes.
  */
  lemma OutcomeFootprint(cwd: string, dirs: set<string>, files: map<string, string>, repoRoot: string, patchText: string)
    ensures var o := PatchOutcome(cwd, dirs, files, repoRoot, patchText);
      var root := AbsPath(cwd, repoRoot);
      (forall k :: 0 <= k < |o.patched| ==> StartsWith(TargetPath(cwd, root, o.patched[k]), root + "/"))
      && (forall p :: (forall k :: 0 <= k < |o.patched| ==> p != TargetPath(cwd, root, o.patched[k]))
                      ==> AgreeAt(files, o.files, p))
      && (forall p :: !StartsWith(p, root + "/") ==> AgreeAt(files, o.files, p))
  {
    var root := AbsPath(cwd, repoRoot);
    var o := PatchOutcome(cwd, dirs, files, repoRoot, patchText);
    if root in dirs && ParsePatch(patchText).Ok? && ParsePatch(patchText).value != [] {
      var blocks := ParsePatch(patchText).value;
      ApplyBlocksPatched(cwd, root, dirs, blocks, files, [], []);
      forall p | forall k :: 0 <= k < |o.patched| ==> p != TargetPath(cwd, root, o.patched[k])
        ensures AgreeAt(files, o.files, p)
      {
        ApplyBlocksKeepsOthers(cwd, root, dirs, blocks, files, [], [], ApplyBlocks(cwd, root, dirs, blocks, files, [], []), p);
      }
    }
    forall p | !StartsWith(p, root + "/")
      ensures AgreeAt(files, o.files, p)
    {
      forall k | 0 <= k < |o.patched|
        ensures p != TargetPath(cwd, root, o.patched[k])
      {
      }
    }
  }

  lemma ErrorPrefix(detail: string)
    ensures StartsWith("Error: " + detail, "Error: ")
    ensures !StartsWith("Error: " + detail, SuccessHeading)
  {
    assert ("Error: " + detail)[0] == 'E';
  }

  /**
    The call answers "Success: applied patch" exactly when the root exists,
    the patch parses into at least one block and every block applies; then
    every block is listed and recorded.  Otherwise it answers with an error.
  */
  lemma OutcomeMessage(cwd: string, dirs: set<string>, files: map<string, string>, repoRoot: string, patchText: string)
    ensures var o := PatchOutcome(cwd, dirs, files, repoRoot, patchText);
      var root := AbsPath(cwd, repoRoot);
      var parsed := ParsePatch(patchText);
      var ok := root in dirs && parsed.Ok? && parsed.value != []
                && ApplyBlocks(cwd, root, dirs, parsed.value, files, [], []).failure.None?;
      (StartsWith(o.message, SuccessHeading) <==> ok)
      && (!ok ==> StartsWith(o.message, "Error: "))
      && (ok ==> |o.patched| == |parsed.value|)
      && (!ok && parsed.Ok? && parsed.value != [] ==> |o.patched| < |parsed.value|)
  {
    var root := AbsPath(cwd, repoRoot);
    var parsed := ParsePatch(patchText);
    var o := PatchOutcome(cwd, dirs, files, repoRoot, patchText);
    if root !in dirs {
      ErrorPrefix(RootNotFound(repoRoot));
    } else if parsed.Err? {
      ErrorPrefix(parsed.error);
    } else if parsed.value == [] {
      ErrorPrefix(NoBlocks(patchText));
    } else {
      var run := ApplyBlocks(cwd, root, dirs, parsed.value, files, [], []);
      ApplyBlocksCounts(cwd, root, dirs, parsed.value, files, [], []);
      if run.failure.Some? {
        ErrorPrefix(run.failure.value);
      } else {
        assert o.message == SuccessHeading + Join(run.labels, "\n");
      }
    }
  }

  // ---------------------------------------------------------------------------
  // Blocks on plain paths.

  /** A modification of a plain relative path under a plain root writes the patched lines to root/path. */
  lemma PlainModifyApplies(cwd: string, rootComps: seq<string>, targetComps: seq<string>, dirs: set<string>,
                           files: map<string, string>, f: FileBlock, lines: seq<string>)
    requires rootComps != [] && AllPlain(rootComps) && targetComps != [] && AllPlain(targetComps)
    requires f.newPath == Some(Join(targetComps, "/")) && !f.isNew && !f.isDelete
    requires var abs := "/" + Join(rootComps, "/") + "/" + Join(targetComps, "/");
      abs in files && abs !in dirs
      && ApplyHunksStrict(SplitLinesKeepEnds(ReadText(files[abs])), f.hunks) == Applied(lines, true)
    ensures var abs := "/" + Join(rootComps, "/") + "/" + Join(targetComps, "/");
      ApplyBlock(cwd, "/" + Join(rootComps, "/"), dirs, files, f)
      == Wrote(files[abs := Concat(lines)], Join(targetComps, "/"))
  {
    PlainTargetInsideRoot(cwd, rootComps, targetComps);
    PlainTargetNonEmpty(targetComps);
  }

  lemma PlainTargetNonEmpty(cs: seq<string>)
    requires cs != [] && AllPlain(cs)
    ensures Join(cs, "/") != ""
  {
    JoinEndsWithLast(cs);
  }

  /** A new file whose one hunk starts at 0 and only adds lines is created holding exactly those lines. */
  lemma NewFileCreated(cwd: string, rootComps: seq<string>, targetComps: seq<string>, dirs: set<string>,
                       files: map<string, string>, h: Hunk)
    requires rootComps != [] && AllPlain(rootComps) && targetComps != [] && AllPlain(targetComps)
    requires h.oldStart == 0 && AllAdded(h.body)
    requires "/" + Join(rootComps, "/") + "/" + Join(targetComps, "/") !in dirs
    ensures var abs := "/" + Join(rootComps, "/") + "/" + Join(targetComps, "/");
      var f := FileBlock(None, Some(Join(targetComps, "/")), [h], true, false);
      ApplyBlock(cwd, "/" + Join(rootComps, "/"), dirs, files, f)
      == Wrote(files[abs := Concat(AddedFrom(h.body, 0))], Join(targetComps, "/"))
  {
    PlainTargetInsideRoot(cwd, rootComps, targetComps);
    PlainTargetNonEmpty(targetComps);
    assert SplitLinesKeepEnds("") == [];
    CreateIntoEmpty(h);
  }

  /** A deletion of an existing file removes exactly that file, whatever its hunks say. */
  lemma DeleteRemoves(cwd: string, rootComps: seq<string>, targetComps: seq<string>, dirs: set<string>,
                      files: map<string, string>, hunks: seq<Hunk>)
    requires rootComps != [] && AllPlain(rootComps) && targetComps != [] && AllPlain(targetComps)
    requires var abs := "/" + Join(rootComps, "/") + "/" + Join(targetComps, "/");
      abs in files && abs !in dirs
    ensures var abs := "/" + Join(rootComps, "/") + "/" + Join(targetComps, "/");
      var f := FileBlock(Some(Join(targetComps, "/")), None, hunks, false, true);
      ApplyBlock(cwd, "/" + Join(rootComps, "/"), dirs, files, f)
      == Wrote(files - {abs}, Join(targetComps, "/"))
  {
    PlainTargetInsideRoot(cwd, rootComps, targetComps);
    PlainTargetNonEmpty(targetComps);
  }

  /**
    A modification without hunks rewrites the file as text mode read it:
    carriage returns become "\n", and a file without them is left as it was.
  */
  lemma NoHunksRewritesText(cwd: string, rootComps: seq<string>, targetComps: seq<string>, dirs: set<string>,
                            files: map<string, string>)
    requires rootComps != [] && AllPlain(rootComps) && targetComps != [] && AllPlain(targetComps)
    requires var abs := "/" + Join(rootComps, "/") + "/" + Join(targetComps, "/");
      abs in files && abs !in dirs
    ensures var abs := "/" + Join(rootComps, "/") + "/" + Join(targetComps, "/");
      var t := Join(targetComps, "/");
      var s := ApplyBlock(cwd, "/" + Join(rootComps, "/"), dirs, files, FileBlock(Some(t), Some(t), [], false, false));
      s == Wrote(files[abs := ReadText(files[abs])], t)
      && ('\r' !in files[abs] ==> s.files == files)
  {
    var abs := "/" + Join(rootComps, "/") + "/" + Join(targetComps, "/");
    var t := Join(targetComps, "/");
    var orig := SplitLinesKeepEnds(ReadText(files[abs]));
    assert ApplyHunksStrict(orig, []) == Applied(orig, true);
    SplitLinesKeepEndsConcat(ReadText(files[abs]));
    PlainModifyApplies(cwd, rootComps, targetComps, dirs, files, FileBlock(Some(t), Some(t), [], false, false), orig);
    if '\r' !in files[abs] {
      ReadTextPlain(files[abs]);
    }
  }

  /** An absolute target whose first component is not the root's is refused before anything is read. */
  lemma AbsoluteTargetRefused(cwd: string, rootComps: seq<string>, targetComps: seq<string>, dirs: set<string>,
                              files: map<string, string>, f: FileBlock)
    requires rootComps != [] && AllPlain(rootComps) && targetComps != [] && AllPlain(targetComps)
    requires targetComps[0] != rootComps[0]
    requires Target(f) == Some("/" + Join(targetComps, "/"))
    ensures ApplyBlock(cwd, "/" + Join(rootComps, "/"), dirs, files, f) == Failed(Escapes("/" + Join(targetComps, "/")))
  {
    AbsoluteTargetOutsideRoot(cwd, rootComps, targetComps);
  }

  /** A target `../t` that leaves the root is refused before anything is read. */
  lemma DotDotTargetRefused(cwd: string, rootComps: seq<string>, targetComps: seq<string>, dirs: set<string>,
                            files: map<string, string>, f: FileBlock)
    requires rootComps != [] && AllPlain(rootComps) && targetComps != [] && AllPlain(targetComps)
    requires targetComps[0] != rootComps[|rootComps| - 1]
    requires Target(f) == Some("../" + Join(targetComps, "/"))
    ensures ApplyBlock(cwd, "/" + Join(rootComps, "/"), dirs, files, f) == Failed(Escapes("../" + Join(targetComps, "/")))
  {
    DotDotTargetOutsideRoot(cwd, rootComps, targetComps);
  }

  /** History is recorded under the root's last component. */
  lemma PatchPackagePlain(rootComps: seq<string>)
    requires rootComps != [] && AllPlain(rootComps)
    ensures PatchPackage("/" + Join(rootComps, "/")) == rootComps[|rootComps| - 1]
  {
    var root := "/" + Join(rootComps, "/");
    JoinEndsWithLast(rootComps);
    assert root[|root| - 1] != '/';
    var r := RStrip(root, '/');
    assert r == root[..|root|] == root;
    BasenameOfPlainRoot(rootComps);
  }
}

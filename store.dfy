/**
  The per-package state store of the repair server (server.py:17-21 and the
  store tools at server.py:78-146, 235-340; server_patch.py holds an identical
  copy for its own process).  The three nested dictionaries of `server_state`
  are the three map fields of `StateStore`; every tool is a method that
  changes exactly the entry of the package it is given.
*/
module Store {
  import opened Text

  /** The `operation` of one recorded change. */
  datatype DiffOp = Add | Delete | Keep

  function OpName(op: DiffOp): string {
    match op
    case Add => "add"
    case Delete => "delete"
    case Keep => "keep"
  }

  /** `{"operation", "line_number", "content"}` */
  datatype Change = Change(op: DiffOp, lineNumber: int, content: string)

  /**
    One entry of `modification_history[package]`: either what
    `track_file_modification_tool` stores (with a `diff`), or what the patch
    tool stores (`operation: "git_unified_patch"`, no `diff`).  The
    timestamps are not modelled.
  */
  datatype ModRecord =
    | Tracked(filePath: string, diff: seq<Change>)
    | Patched(filePath: string)

  // ---------------------------------------------------------------------------
  // Classification of unified-diff lines (server.py:105-133).

  /** The marker character a change of kind `op` is read from. */
  function Marker(op: DiffOp): char {
    match op
    case Add => '+'
    case Delete => '-'
    case Keep => ' '
  }

  /** The record produced for line `index` of the diff output (none for the header lines or others). */
  function ClassifyLine(line: string, index: int): (r: seq<Change>)
    ensures |r| <= 1
    ensures |r| == 1 <==> index >= 3 && |line| > 0 && line[0] in {'+', '-', ' '}
    ensures |r| == 1 ==> Marker(r[0].op) == line[0] && r[0].lineNumber == index - 2
                         && r[0].content == RStrip(line[1..], '\n')
  {
    if index < 3 then []
    else if StartsWith(line, "+") then [Change(Add, index - 2, RStrip(line[1..], '\n'))]
    else if StartsWith(line, "-") then [Change(Delete, index - 2, RStrip(line[1..], '\n'))]
    else if StartsWith(line, " ") then [Change(Keep, index - 2, RStrip(line[1..], '\n'))]
    else []
  }

  /** The records produced from the first `n` diff lines. */
  function DiffPrefix(lines: seq<string>, n: nat): seq<Change>
    requires n <= |lines|
  {
    if n == 0 then [] else DiffPrefix(lines, n - 1) + ClassifyLine(lines[n - 1], n - 1)
  }

  /** The `diff` list stored for the given diff output. */
  function DiffEntries(lines: seq<string>): seq<Change> {
    DiffPrefix(lines, |lines|)
  }

  /** Every record in `d` comes from one classified line among the first `n`. */
  ghost predicate RecordsFromLines(lines: seq<string>, n: nat, d: seq<Change>)
    requires n <= |lines|
  {
    forall k :: 0 <= k < |d| ==>
      3 <= d[k].lineNumber + 2 < n && ClassifyLine(lines[d[k].lineNumber + 2], d[k].lineNumber + 2) == [d[k]]
  }

  /** The records of `d` are in strictly increasing line order. */
  ghost predicate InLineOrder(d: seq<Change>) {
    forall k, m :: 0 <= k < m < |d| ==> d[k].lineNumber < d[m].lineNumber
  }

  /** Appending the classification of line `n - 1` keeps every record tied to its line. */
  lemma FromLinesExtend(lines: seq<string>, n: nat, d: seq<Change>, c: seq<Change>)
    requires 0 < n <= |lines| && RecordsFromLines(lines, n - 1, d)
    requires c == ClassifyLine(lines[n - 1], n - 1)
    ensures RecordsFromLines(lines, n, d + c)
  {
    var r := d + c;
    forall k | 0 <= k < |d|
      ensures r[k] == d[k]
    {
    }
    if |c| == 1 {
      assert r[|d|] == c[0] && c == [c[0]];
    }
  }

  /** Appending the classification of line `n - 1` after records of earlier lines keeps line order. */
  lemma InLineOrderExtend(lines: seq<string>, n: nat, d: seq<Change>, c: seq<Change>)
    requires 0 < n <= |lines| && RecordsFromLines(lines, n - 1, d) && InLineOrder(d)
    requires c == ClassifyLine(lines[n - 1], n - 1)
    ensures InLineOrder(d + c)
  {
    var r := d + c;
    forall k, m | 0 <= k < m < |r|
      ensures r[k].lineNumber < r[m].lineNumber
    {
      assert r[k] == d[k];
      if m < |d| {
        assert r[m] == d[m];
      } else {
        assert r[m] == c[0];
      }
    }
  }

  /** Every record comes from one classified line, and records are in line order. */
  lemma {:induction false} DiffPrefixSound(lines: seq<string>, n: nat)
    requires n <= |lines|
    ensures RecordsFromLines(lines, n, DiffPrefix(lines, n)) && InLineOrder(DiffPrefix(lines, n))
  {
    if n > 0 {
      DiffPrefixSound(lines, n - 1);
      var d, c := DiffPrefix(lines, n - 1), ClassifyLine(lines[n - 1], n - 1);
      assert DiffPrefix(lines, n) == d + c;
      FromLinesExtend(lines, n, d, c);
      InLineOrderExtend(lines, n, d, c);
    }
  }

  /** Every `+`, `-` or ` ` line after the three header lines yields a record. */
  lemma {:induction false} DiffPrefixComplete(lines: seq<string>, n: nat, i: nat)
    requires i < n <= |lines|
    requires i >= 3 && |lines[i]| > 0 && lines[i][0] in {'+', '-', ' '}
    ensures exists k :: 0 <= k < |DiffPrefix(lines, n)| && DiffPrefix(lines, n)[k] == ClassifyLine(lines[i], i)[0]
  {
    var d := DiffPrefix(lines, n - 1);
    if i == n - 1 {
      assert DiffPrefix(lines, n)[|d|] == ClassifyLine(lines[i], i)[0];
    } else {
      DiffPrefixComplete(lines, n - 1, i);
      var k :| 0 <= k < |d| && d[k] == ClassifyLine(lines[i], i)[0];
      assert DiffPrefix(lines, n)[k] == d[k];
    }
  }

  /**
    The stored `diff` in both directions: a record exists for line `i`
    exactly when `i >= 3` and the line starts with `+`, `-` or a space; it has
    that line's kind, the number `i - 2` and the line's text without its
    marker and trailing newlines; and records are ordered by line number.
  */
  lemma DiffEntriesCharacterization(lines: seq<string>)
    ensures forall k :: 0 <= k < |DiffEntries(lines)| ==>
      var e := DiffEntries(lines)[k];
      3 <= e.lineNumber + 2 < |lines| && ClassifyLine(lines[e.lineNumber + 2], e.lineNumber + 2) == [e]
    ensures forall i :: 3 <= i < |lines| && |lines[i]| > 0 && lines[i][0] in {'+', '-', ' '} ==>
      ClassifyLine(lines[i], i)[0] in DiffEntries(lines)
    ensures forall k, m :: 0 <= k < m < |DiffEntries(lines)| ==>
      DiffEntries(lines)[k].lineNumber < DiffEntries(lines)[m].lineNumber
  {
    DiffPrefixSound(lines, |lines|);
    forall i | 3 <= i < |lines| && |lines[i]| > 0 && lines[i][0] in {'+', '-', ' '}
      ensures ClassifyLine(lines[i], i)[0] in DiffEntries(lines)
    {
      DiffPrefixComplete(lines, |lines|, i);
    }
  }

  /** The loop of `track_file_modification_tool` that builds `diff`. */
  method ClassifyDiffLines(diffLines: seq<string>) returns (diff: seq<Change>)
    ensures diff == DiffEntries(diffLines)
  {
    diff := [];
    var i := 0;
    while i < |diffLines|
      invariant 0 <= i <= |diffLines|
      invariant diff == DiffPrefix(diffLines, i)
    {
      var line := diffLines[i];
      if i >= 3 {
        if StartsWith(line, "+") {
          diff := diff + [Change(Add, i - 2, RStrip(line[1..], '\n'))];
        } else if StartsWith(line, "-") {
          diff := diff + [Change(Delete, i - 2, RStrip(line[1..], '\n'))];
        } else if StartsWith(line, " ") {
          diff := diff + [Change(Keep, i - 2, RStrip(line[1..], '\n'))];
        }
      }
      i := i + 1;
    }
  }

  /** `lst.count(x)` */
  function Count(s: seq<string>, x: string): nat {
    multiset(s)[x]
  }

  /** What `check_repeat_tool_call` says about a blocked call. */
  function BlockedMessage(toolName: string, maxRepeat: int): string {
    "Tool call " + toolName + " exceeded " + "max repeat " + "count (" + IntToString(maxRepeat) + ")"
  }

  /** Server-side state storage. */
  class StateStore {
    var modificationHistory: map<string, seq<ModRecord>>
    var toolCallHistory: map<string, seq<string>>
    var toolCache: map<string, map<string, string>>

    constructor ()
      ensures modificationHistory == map[] && toolCallHistory == map[] && toolCache == map[]
    {
      modificationHistory := map[];
      toolCallHistory := map[];
      toolCache := map[];
    }

    /** The call history of `pkg` (empty when the package has none). */
    function CallHistory(pkg: string): seq<string>
      reads this
    {
      if pkg in toolCallHistory then toolCallHistory[pkg] else []
    }

    /** The result cache of `pkg` (empty when the package has none). */
    function Cache(pkg: string): map<string, string>
      reads this
    {
      if pkg in toolCache then toolCache[pkg] else map[]
    }

    /** The modification history of `pkg` (empty when the package has none). */
    function Mods(pkg: string): seq<ModRecord>
      reads this
    {
      if pkg in modificationHistory then modificationHistory[pkg] else []
    }

    /** `check_repeat_tool_call`: its only effect is creating an empty history list. */
    method CheckRepeatToolCall(toolName: string, argsKey: string, maxRepeat: int, pkg: string)
      returns (allowed: bool, message: string)
      modifies this
      ensures allowed <==> Count(old(CallHistory(pkg)), argsKey) < maxRepeat
      ensures message == if allowed then "Tool call allowed" else BlockedMessage(toolName, maxRepeat)
      ensures toolCallHistory == old(toolCallHistory)[pkg := old(CallHistory(pkg))]
      ensures CallHistory(pkg) == old(CallHistory(pkg))
      ensures toolCache == old(toolCache) && modificationHistory == old(modificationHistory)
    {
      if pkg !in toolCallHistory {
        toolCallHistory := toolCallHistory[pkg := []];
      }
      var repeatCount := Count(toolCallHistory[pkg], argsKey);
      if repeatCount >= maxRepeat {
        return false, BlockedMessage(toolName, maxRepeat);
      }
      return true, "Tool call allowed";
    }

    /** `check_tool_cache`: its only effect is creating an empty cache. */
    method CheckToolCache(callKey: string, toolName: string, pkg: string) returns (hit: bool, result: string)
      modifies this
      ensures hit <==> callKey in old(Cache(pkg))
      ensures result == if hit then old(Cache(pkg))[callKey] else ""
      ensures toolCache == old(toolCache)[pkg := old(Cache(pkg))]
      ensures Cache(pkg) == old(Cache(pkg))
      ensures toolCallHistory == old(toolCallHistory) && modificationHistory == old(modificationHistory)
    {
      if pkg !in toolCache {
        toolCache := toolCache[pkg := map[]];
      }
      if callKey in toolCache[pkg] {
        return true, toolCache[pkg][callKey];
      }
      return false, "";
    }

    /** `cache_tool_result`: stores (or overwrites) one entry of the package's cache. */
    method CacheToolResult(callKey: string, result: string, pkg: string) returns (message: string)
      modifies this
      ensures toolCache == old(toolCache)[pkg := old(Cache(pkg))[callKey := result]]
      ensures toolCallHistory == old(toolCallHistory) && modificationHistory == old(modificationHistory)
      ensures message == "Successfully cached result for " + callKey
    {
      if pkg !in toolCache {
        toolCache := toolCache[pkg := map[]];
      }
      toolCache := toolCache[pkg := toolCache[pkg][callKey := result]];
      message := "Successfully cached result for " + callKey;
    }

    /**
      `reset_package_cache_tool`: empties this package's cache and call
      history if it has them; everything else is untouched.
    */
    method ResetPackageCache(pkg: string) returns (success: bool, message: string)
      modifies this
      ensures toolCache == if pkg in old(toolCache) then old(toolCache)[pkg := map[]] else old(toolCache)
      ensures toolCallHistory == if pkg in old(toolCallHistory) then old(toolCallHistory)[pkg := []] else old(toolCallHistory)
      ensures modificationHistory == old(modificationHistory)
      ensures success && message == "Cleared tool_cache and tool_call_history for package '" + pkg + "'."
    {
      if pkg in toolCache {
        toolCache := toolCache[pkg := map[]];
      }
      if pkg in toolCallHistory {
        toolCallHistory := toolCallHistory[pkg := []];
      }
      success := true;
      message := "Cleared tool_cache and tool_call_history for package '" + pkg + "'.";
    }

    /** `record_tool_call_history`: appends the key to the package's list. */
    method RecordToolCallHistory(callKey: string, pkg: string) returns (message: string)
      modifies this
      ensures toolCallHistory == old(toolCallHistory)[pkg := old(CallHistory(pkg)) + [callKey]]
      ensures toolCache == old(toolCache) && modificationHistory == old(modificationHistory)
      ensures message == "Recorded tool call history for " + pkg
    {
      if pkg !in toolCallHistory {
        toolCallHistory := toolCallHistory[pkg := []];
      }
      toolCallHistory := toolCallHistory[pkg := toolCallHistory[pkg] + [callKey]];
      message := "Recorded tool call history for " + pkg;
    }

    /**
      `track_file_modification_tool` over the lines `difflib.unified_diff`
      produced for the old and new contents: exactly one record is appended.
    */
    method TrackFileModification(pkg: string, filePath: string, diffLines: seq<string>) returns (message: string)
      modifies this
      ensures modificationHistory == old(modificationHistory)[pkg := old(Mods(pkg)) + [Tracked(filePath, DiffEntries(diffLines))]]
      ensures toolCache == old(toolCache) && toolCallHistory == old(toolCallHistory)
      ensures message == "Successfully tracked modification to " + filePath
    {
      if pkg !in modificationHistory {
        modificationHistory := modificationHistory[pkg := []];
      }
      var diff := ClassifyDiffLines(diffLines);
      modificationHistory := modificationHistory[pkg := modificationHistory[pkg] + [Tracked(filePath, diff)]];
      message := "Successfully tracked modification to " + filePath;
    }

    /** The history entry the patch tool appends for one applied file (server_patch.py:569-578). */
    method RecordPatchedFile(pkg: string, filePath: string)
      modifies this
      ensures modificationHistory == old(modificationHistory)[pkg := old(Mods(pkg)) + [Patched(filePath)]]
      ensures toolCache == old(toolCache) && toolCallHistory == old(toolCallHistory)
    {
      modificationHistory := modificationHistory[pkg := Mods(pkg) + [Patched(filePath)]];
    }
  }

  /** Recording a key raises its count by one and leaves every other key's count alone. */
  lemma CountAfterRecord(h: seq<string>, key: string, other: string)
    ensures Count(h + [key], key) == Count(h, key) + 1
    ensures other != key ==> Count(h + [key], other) == Count(h, other)
  {
    assert multiset(h + [key]) == multiset(h) + multiset{key};
  }

  /**
    With bound 3, three recorded calls with the same key block the fourth
    check, and after a reset the key is allowed again.
  */
  method RepeatBoundScenario(store: StateStore, pkg: string, key: string) returns (fourth: bool, afterReset: bool)
    modifies store
    requires pkg !in store.toolCallHistory
    ensures !fourth && afterReset
  {
    var _ := store.RecordToolCallHistory(key, pkg);
    var _ := store.RecordToolCallHistory(key, pkg);
    var _ := store.RecordToolCallHistory(key, pkg);
    assert store.CallHistory(pkg) == [key, key, key];
    assert multiset([key, key, key]) == multiset{key, key, key};
    var msg;
    fourth, msg := store.CheckRepeatToolCall("tool", key, 3, pkg);
    var _, _ := store.ResetPackageCache(pkg);
    afterReset, msg := store.CheckRepeatToolCall("tool", key, 3, pkg);
  }

  /** After `cache_tool_result(k, r, p)`, `check_tool_cache(k, _, p)` hits with `r`. */
  method CacheRoundTrip(store: StateStore, key: string, result: string, pkg: string, toolName: string)
    returns (hit: bool, cached: string)
    modifies store
    ensures hit && cached == result
  {
    var _ := store.CacheToolResult(key, result, pkg);
    hit, cached := store.CheckToolCache(key, toolName, pkg);
  }
}

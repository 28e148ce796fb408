# Build-bench repair loop, modelled in Dafny

Build-bench repairs software packages that fail to build. It has two parts.
The client (`client.py`) drives a language model through repair attempts.
The tool server (`server.py`, or `server_patch.py`, which adds a patch tool)
exposes tools over MCP: a per-package state store, a build-result classifier,
a prompt builder, file-change tracking and, in `server_patch.py`, a
unified-diff patch engine. This project models that core and proves what it
promises.

| file | what it models |
|---|---|
| `wrappers.dfy`, `text.dfy`, `lines.dfy` | `Option`/`Result`, the Python string operations used (`startswith`, `in`, `lower`, `rstrip`, `strip`, `str(int)`, `join`, slicing) and `str.splitlines` with and without `keepends` |
| `json.dfy` | `make_args_key`: the tool name, `::`, then the arguments as compact JSON with sorted keys |
| `store.dfy` | the `server_state` store as class `StateStore`, with one method per store tool; the diff-line classification of `track_file_modification_tool` |
| `build_result.dfy` | `parse_build_result_tool` and the text `check_build_result` wraps around the build oracle's answer |
| `prompt.dfy` | `update_prompt_with_history_tool` |
| `patch_parse.dfy` | `_parse_git_unified_patch`: recursive functions give the meaning of each loop, and a loop-based parser is proved to compute them |
| `patch_apply.dfy` | `_apply_hunks_strict`, including Python's negative list indexing and its clamping of slice bounds |
| `paths.dfy` | POSIX `os.path.join`, `normpath`, `abspath` and `basename` |
| `patch_tool.dfy` | `apply_git_unified_patch_tool` over a `Workspace` (file map and directory set) and the store |
| `patch_server_variants.dfy` | two `server_patch.py` tools that differ from their `server.py` counterparts, modelled as written |
| `chat.dfy`, `client.dfy` | the transcript, the model and tool-server oracles, and the orchestrator class `Orchestrator` |

Each loop the source runs is an imperative `method`. Each method is proved
equal to a recursive specification function, and the properties are lemmas
about those functions:
- the tool-call loop, the round loop and the attempt loop of the client;
- the three loops of the patch parser;
- the two loops of the hunk applier;
- the block loop of the patch tool;
- the diff-classification loop.

The model and the tool server are pure functions of a call counter and the
request. Every reply they could give is therefore covered.

The client connects to `server.py` by default (`client.py:78`). The rest of
the model therefore uses the `server.py` versions of the diff classification
and of the prompt tool. The `server_patch.py` copies, which differ, are shown
under Findings.

Behaviours of the code worth noting:
- The build-status text is what follows the first ": " (`split(": ", 1)[-1]`) (`BuildResult.StatusCharacterization`).
- The hunk applier carries the offset `(after_len - before_len) - (cur - start)` to the next hunk. A hunk that replaces three lines with two therefore moves the next hunk by -4 (`PatchApply.OffsetStep`, `PatchApply.SecondHunkStart`).
- `parse_build_result_tool` finds "ok" inside "broken", so a broken build counts as a success (`BuildResult.BrokenClassifiesAsSuccess`). The client then ends the package as succeeded.
- The declared hunk lengths and the new start are parsed but never used (`PatchApply.DeclaredLengthsIgnored`).

## Model

| member | source | states |
|---|---|---|
| Json.SortByKey | client.py:59 | the sorted argument list has exactly the members of the input, as a multiset |
| Json.SortByKeySorted | client.py:59 | `sort_keys=True`: the members come out ordered by key, and distinct keys stay distinct |
| Json.SortedUnique | client.py:59 | two key-sorted lists with distinct keys and the same members are equal: sorting is canonical |
| Json.SerializeUpToOrder | client.py:59 | two JSON values that differ only in the order of object members, at any depth, serialise to the same text under `sort_keys=True` |
| Json.ArgsKeyOrderIndependent | client.py:58-59 | two argument objects that decode to equal dicts, with members in any order at any depth, give the same call key |
| Json.EmptyArgsKey | client.py:312-322 | arguments that fail to decode become `{}`, and their key is `name::{}` |
| Store.ClassifyLine | server.py:108-133 | a diff line yields a record exactly when its index is at least 3 and it starts with `+`, `-` or a space; the record has that marker's kind, number `index - 2` and the text after the marker with trailing newlines removed |
| Store.DiffPrefixSound | server.py:104-133 | every stored change comes from one classified diff line, and changes are in increasing line order |
| Store.DiffPrefixComplete | server.py:104-133 | every classifiable diff line after the three header lines has its change stored |
| Store.DiffEntriesCharacterization | server.py:104-133 | the stored `diff` in both directions: a change exists exactly for the classifiable lines, each equals its line's classification, and they are in line order |
| Store.ClassifyDiffLines | server.py:104-133 | the loop builds exactly the characterised `diff` list |
| Store.StateStore.constructor | server.py:17-21 | the store starts with three empty tables |
| Store.StateStore.CheckRepeatToolCall | server.py:236-260 | allowed exactly when the key was recorded fewer than `max_repeat` times; the blocked message names the tool and the bound; the only change is an empty list for a new package |
| Store.StateStore.CheckToolCache | server.py:264-281 | a hit exactly when the key is cached, returning the cached text, otherwise `""`; the only change is an empty cache for a new package |
| Store.StateStore.CacheToolResult | server.py:285-298 | stores or overwrites exactly that key of that package's cache |
| Store.StateStore.ResetPackageCache | server.py:302-324 | empties this package's cache and call history if present; the modification history and other packages are untouched |
| Store.StateStore.RecordToolCallHistory | server.py:328-340 | appends the key to this package's call history only |
| Store.StateStore.TrackFileModification | server.py:79-146 | appends exactly one record, holding the path and the characterised `diff`, to this package's modification history |
| Store.StateStore.RecordPatchedFile | server_patch.py:569-578 | appends one patch record, which has no `diff`, for the file |
| Store.CountAfterRecord | server.py:252 | recording a key raises its count by one and leaves every other key's count alone |
| Store.RepeatBoundScenario | server.py:248-317 | with bound 3, three records of a key block the fourth check, and after a reset the key is allowed again |
| Store.CacheRoundTrip | server.py:274-297 | after caching a result under a key, the cache check hits with that result |
| BuildResult.FindFrom | server.py:160 | the first occurrence of the separator at or after a position, or none |
| BuildResult.StatusCharacterization | server.py:160 | the status is the text after the first ": ", or the whole text when there is none |
| BuildResult.CheckBuildResultStatus | server.py:555-561 | the status of `check_build_result`'s text is the oracle's own words |
| BuildResult.KeywordAt | server.py:160-164 | a success keyword anywhere in the lower-cased oracle text classifies the build as a success |
| BuildResult.BrokenHeadClassifiesAsSuccess | server.py:160-164 | any text starting "Build broken! " classifies as a success, because "broken" contains "ok" |
| BuildResult.BrokenClassifiesAsSuccess | tools/auto_repair/check_build_res.py:65 | the oracle's full answer for a broken package classifies as a success |
| BuildResult.SucceededClassifiesAsSuccess | tools/auto_repair/check_build_res.py:69 | the oracle's answer for a succeeded build classifies as a success |
| BuildResult.FailureWithoutSOrK | server.py:160-165 | a status with no `s` and no `k` in either case classifies as a failure, since every keyword holds one of them |
| Prompt.UserPromptShape | server.py:183-205 | the user message opens with the package sentence and the temporary-directory sentence; on the first attempt that is all of it; later it ends with the attempt count and the request for a new plan |
| Prompt.UpdatePromptShape | server.py:171-214 | fails with `KeyError: 'diff'` exactly on a later attempt that meets a patch record; otherwise returns two messages: the given system prompt verbatim and the user message |
| Prompt.RenderModsAppend | server.py:193-201 | records are rendered one after another in stored order |
| Prompt.RenderChangesAppend | server.py:196-200 | change lines are rendered one after another in stored order |
| Prompt.EveryRecordRendered | server.py:189-201 | on a later attempt every stored record appears with its `File:` line, its `Changes:` line and all its change lines |
| Prompt.EveryChangeRendered | server.py:196-200 | each change line appears, with its content cut to at most 200 characters and left whole when shorter |
| PatchServerVariants.DiffPrefixAsWrittenAllAdds | server_patch.py:108-136 | as written, every diff line after the header is stored, and stored as an add numbered from 1 |
| PatchServerVariants.ClassificationsAgree | server_patch.py:111-136 | the as-written and the intended classification agree on a line exactly when it is a header line or an added line |
| PatchServerVariants.DeleteLineStoredAsAdd | server_patch.py:113-128 | a deleted line `-x` is stored as an added `x`, where `server.py` stores a delete |
| PatchServerVariants.PromptAsWrittenIgnoresInputs | server_patch.py:187-209 | as written, the prompt ignores the package name, the path and the history |
| PatchServerVariants.PromptAsWrittenDropsIntro | server_patch.py:187-218 | as written, the user message always lacks the package sentence that the `server.py` version opens with |
| Lines.SplitLinesKeepEndsConcat | server_patch.py:544 | joining the lines read with their ends gives back the text, so reading and writing back changes nothing |
| Lines.SplitLinesNoBreak | server_patch.py:364 | no patch line holds a line-boundary character |
| Lines.SplitTerminated | server_patch.py:364 | lines each written with a "\n" split back into the same lines |
| Paths.Basename | server_patch.py:570 | the base name is a suffix of the path, holds no "/", and is the whole path or preceded by a "/" |
| Paths.SplitJoin | server_patch.py:532 | splitting at "/" undoes joining components that hold no "/" |
| Paths.NormPathPlain | server_patch.py:513 | an absolute path of plain components is already normal, so `abspath` keeps the root as given |
| Paths.PlainTargetInsideRoot | server_patch.py:532-533 | a plain relative target resolves to root, "/", target, and passes the guard |
| Paths.AbsoluteTargetOutsideRoot | server_patch.py:532-533 | an absolute target with a different first component resolves outside the root |
| Paths.DotDotResolves | server_patch.py:532 | `<root>/../<t>` resolves to the root's parent followed by `<t>` |
| Paths.DotDotTargetOutsideRoot | server_patch.py:532-533 | `../<t>` lies outside the root unless `<t>` starts with the root's own last component |
| Paths.BasenameOfPlainRoot | server_patch.py:570 | history is kept under the root's last component |
| PatchParse.SkipToHeader | server_patch.py:378-381 | the first `--- ` line at or after the start, or the end |
| PatchParse.BodyEnd | server_patch.py:422-429 | a hunk body ends at the first `@@`, `diff --git` or `--- ` line |
| PatchParse.ParseRange | server_patch.py:411-420 | a range parsed at a position ends after it |
| PatchParse.HeaderRoundTrip | server_patch.py:411-420 | every header the pattern `^@@\s*-(\d+)(?:,(\d+))?\s+\+(\d+)(?:,(\d+))?\s*@@.*$` matches, with any blank runs it allows and digit runs with leading zeros, reads back as the values of its digit runs, with 1 for an omitted length |
| PatchParse.HeaderSound | server_patch.py:411-420 | every line accepted as a hunk header has the pattern's shape, and its four numbers are the values of its digit runs |
| PatchParse.PathTokens | server_patch.py:395-405 | `/dev/null` is the only token without a path; otherwise one leading `a/` (old side) or `b/` (new side) is dropped |
| PatchParse.MakeBlock | server_patch.py:395-405 | the new and delete flags are set exactly when that side's path is missing |
| PatchParse.ReadFileBlock | server_patch.py:368-438 | reading a block moves forward, and finds no block only at the end of the text |
| PatchParse.ScanBody | server_patch.py:422-429 | the body loop stops exactly where `BodyEnd` says |
| PatchParse.ReadHunksLoop | server_patch.py:408-430 | the hunk loop computes the hunks, or the header error, that the specification gives |
| PatchParse.ReadFileBlockLoop | server_patch.py:368-438 | `read_file_block` computes the specified block and index |
| PatchParse.ParseGitUnifiedPatch | server_patch.py:358-453 | the loop-based parser computes `ParsePatch` |
| PatchParse.ParsePatchWellFormed | server_patch.py:358-453 | every parsed block has flags matching its missing paths, and no body line could have ended its body |
| PatchParse.ParseFromError | server_patch.py:389-416 | the parser fails only with the missing-`+++` error, or with an error naming a later `@@` line that is not a hunk header |
| PatchParse.NoHeaderNoBlocks | server_patch.py:440-453 | text without a `--- ` line parses to no blocks |
| PatchApply.PyIndex | server_patch.py:472-476 | a non-negative cursor is used as it is; a negative one counts from the end, and raises `IndexError` exactly when it reaches past the start |
| PatchApply.Splice | server_patch.py:490 | slice assignment within bounds replaces exactly the slice |
| PatchApply.WalkHunk | server_patch.py:465-488 | the body loop computes `WalkBody` |
| PatchApply.ApplyHunks | server_patch.py:456-493 | the applier loop computes `ApplyHunksStrict` |
| PatchApply.FailureKeepsOriginal | server_patch.py:473-482 | a failed match returns the original lines, whatever earlier hunks did |
| PatchApply.StrictFailureKeepsOriginal | server_patch.py:456-493 | `_apply_hunks_strict` returns the original lines whenever it returns `False` |
| PatchApply.WalkSucceedsIff | server_patch.py:468-488 | a well-formed body walks exactly when the file lines there, stripped, are its old side, and it never raises |
| PatchApply.WalkResult | server_patch.py:468-488 | after a walk the cursor is past the old side, and the replacement, stripped, is the new side |
| PatchApply.UnmarkedLinesCopied | server_patch.py:484-488 | body lines without a marker copy file lines unchecked |
| PatchApply.SingleHunk | server_patch.py:462-493 | one hunk inside the file replaces the lines it walked over and keeps the rest |
| PatchApply.WellFormedHunk | server_patch.py:456-493 | one hunk applies exactly when the file matches its old side, and the result is the lines before, the new side, and the lines after; otherwise the file comes back unchanged |
| PatchApply.OffsetStep | server_patch.py:489-492 | the carried offset is the replacement length less twice the lines walked over |
| PatchApply.SecondHunkStart | server_patch.py:463-492 | after a matching first hunk, the second is looked for `|new| - 2*|old|` lines from its declared start |
| PatchApply.CreateIntoEmpty | server_patch.py:465-490 | an add-only hunk at `-0,0` on an empty file yields exactly the added lines |
| PatchApply.ZeroStartInsertsBeforeLastLine | server_patch.py:465-490 | an add-only hunk at `-0` on a non-empty file inserts before the last line, since the start -1 is a negative slice bound |
| PatchApply.DeclaredLengthsIgnored | server_patch.py:464-465 | only the old start and the bodies matter; the declared lengths and new start never change the result |
| PatchTool.ReadText | server_patch.py:542-543 | text-mode reading leaves no carriage return |
| PatchTool.ReadTextPlain | server_patch.py:542-543 | text without carriage returns reads back unchanged |
| PatchTool.PatchedRecords | server_patch.py:572-578 | one patch record per patched target, in order |
| PatchTool.ApplyBlockTouchesOnlyTarget | server_patch.py:524-562 | a block that applies writes or removes exactly its own target, which lies under the root, and no other path |
| PatchTool.ApplyBlockIn | server_patch.py:524-562 | applying one block to the workspace has the outcome of `ApplyBlock`, and writes the files only when it succeeds |
| PatchTool.ApplyBlocksIn | server_patch.py:522-578 | the block loop leaves the files of the run and records one history entry per applied block |
| PatchTool.ApplyGitUnifiedPatchTool | server_patch.py:497-582 | the message, the files and the history are those of `PatchOutcome`; the cache and call history are untouched |
| PatchTool.ApplyBlocksPatched | server_patch.py:523-566 | blocks only extend the patched list, and every patched target lies under the root |
| PatchTool.ApplyBlocksKeepsOthers | server_patch.py:523-562 | every path that is no newly patched target keeps its text |
| PatchTool.ApplyBlocksCounts | server_patch.py:522-566 | either every block applies, adding one label and one target each, or the run stops early with an error |
| PatchTool.ApplyBlocksSplit | server_patch.py:522-566 | running `a + b` runs `a`, then `b` from where `a` stopped unless `a` failed |
| PatchTool.BlocksCompose | server_patch.py:522-566 | an error in a later block keeps everything earlier blocks wrote: nothing is rolled back |
| PatchTool.OutcomeFootprint | server_patch.py:512-582 | the call changes only the files it lists as patched, all under the root; no path outside the root changes |
| PatchTool.OutcomeMessage | server_patch.py:512-580 | the answer starts "Success: applied patch" exactly when the root exists, the patch has blocks and all apply; otherwise it starts "Error: " |
| PatchTool.PlainModifyApplies | server_patch.py:532-562 | a modification of a plain path under a plain root writes the patched lines to root/path |
| PatchTool.NewFileCreated | server_patch.py:537-562 | a new file with one add-only hunk at 0 is created holding exactly those lines |
| PatchTool.DeleteRemoves | server_patch.py:547-551 | a deletion removes exactly that file, whatever its hunks say |
| PatchTool.NoHunksRewritesText | server_patch.py:542-562 | a block without hunks rewrites the file in text mode, and leaves a file without carriage returns as it was |
| PatchTool.AbsoluteTargetRefused | server_patch.py:532-534 | an absolute target outside the root is refused before anything is read |
| PatchTool.DotDotTargetRefused | server_patch.py:532-534 | a `../` target that leaves the root is refused before anything is read |
| PatchTool.PatchPackagePlain | server_patch.py:570 | history goes under the root's last component |
| Client.UploadSucceededIsSuccess | client.py:422-425 | the upload test is just "success" in the lower-cased result |
| Client.CheckBeforeUploadRefused | client.py:336-358 | a build check before a successful upload is answered with the upload-first error; the tool does not run and nothing is recorded |
| Client.RepeatedCallBlocked | client.py:360-370 | a key already recorded three times is blocked: no execution, no record, no cache change, and a nudge before the assistant/tool pair |
| Client.ExecuteCounts | client.py:384-410 | running the tool counts one execution and touches only this package's cache |
| Client.ExecuteCache | client.py:394-406 | only an error-free `modify_file_tool` result is cached, under its key |
| Client.RunAllowedFacts | client.py:371-416 | an allowed call is recorded once and runs the tool only on a cache miss; a hit returns the cached text |
| Client.ConcludeFacts | client.py:418-451 | the transcript gains the nudge if blocked, then the assistant/tool pair; the upload flag rises on a successful upload; a build check passes by the classifier |
| Client.AllowedCallRecordedOnce | client.py:371-416 | an allowed call raises its key's count by one; the tool runs exactly on a miss; a hit feeds back the cached text |
| Client.OnlyCleanModifyCached | client.py:394-406 | a call changes the package's cache only for a fresh error-free `modify_file_tool` result |
| Client.CallLeavesOthersAlone | client.py:310-451 | a call touches no other package's history, cache or flag, and makes no model call; the orchestrator itself writes no modification record |
| Client.UploadFlagRule | client.py:418-442 | the flag is set exactly when an upload tool's fed-back text contains "success", and is never cleared |
| Client.PassedOnlyAfterUpload | client.py:336-451 | a call passes only as a build check after a successful upload, and the transcript then ends with a passing check |
| Client.RoundPassedAfterUpload | client.py:310-451 | a round passes only through a build check after an upload |
| Client.RoundUploadMonotone | client.py:310-451 | over a round the upload flag and `did_upload` only rise, and `did_upload` implies the flag |
| Client.RoundCounts | client.py:310-451 | a round makes no model call and runs at most one tool per call; the orchestrator itself writes no modification record |
| Client.FallbackFacts | client.py:467-488 | the fallback uploads exactly when nothing was uploaded, never reports success, and never sets the flag |
| Client.RoundsCounts | client.py:303-465 | the rounds make at most one model call per remaining round; the orchestrator itself writes no modification record |
| Client.RoundsOkAfterUpload | client.py:303-465 | a success reported by the rounds comes from a build check after an upload |
| Client.RoundsText | client.py:298-462 | the reported text is the text the rounds started with, or the non-empty content of a reply to one of the model calls made in these rounds |
| Client.ToolsLoopFacts | client.py:277-488 | one attempt makes at most `1 + max_tool_rounds` model calls and reports success only after a passing check following an upload; the orchestrator itself writes no modification record |
| Client.AttemptSummary | client.py:224-269 | one attempt either ends the package, by success with the succeeded text for this attempt or by a failed prompt update, or hands on the failure text for this attempt |
| Client.AttemptsText | client.py:220-272 | a success writes the succeeded text of some attempt k between the first and `max_build_attempts`, and the upload flag is set; a failure that ran its attempts writes the failed text of attempt `max_build_attempts`; a prompt failure can only come from attempt 2 on |
| Client.AttemptsCounts | client.py:224-269 | the attempts make at most `(1 + max_tool_rounds)` model calls each |
| Client.ProcessPackageFacts | client.py:192-275 | success implies the upload flag and that the file holds the succeeded text of some attempt k with 1 <= k <= `max_build_attempts`; a failure writes the failed text of attempt `max_build_attempts`; with no attempts the text is empty; a failed prompt update needs at least two attempts; at most `max_build_attempts * (1 + max_tool_rounds)` model calls; the orchestrator itself writes no modification record |
| Client.Orchestrator.constructor | client.py:74-108 | the client starts with no upload flags and the given limits |
| Client.Orchestrator.ExecuteTool | client.py:384-410 | the tool call of a cache miss does what `Execute` specifies |
| Client.Orchestrator.RunAllowedCall | client.py:371-416 | an allowed call does what `RunAllowed` specifies |
| Client.Orchestrator.HandleToolCall | client.py:310-451 | one tool call does what `CallStep` specifies, to the store and the transcript |
| Client.Orchestrator.ConcludeCall | client.py:418-451 | the end of a call does what `Conclude` specifies |
| Client.Orchestrator.ProcessToolCalls | client.py:310-451 | the loop over a reply's tool calls does what `CallsFrom` specifies, leaving at a passing check |
| Client.Orchestrator.FallbackUpload | client.py:467-486 | the fallback upload does what `Fallback` specifies |
| Client.Orchestrator.LlmToolsLoop | client.py:277-488 | `_llm_tools_loop` does what `ToolsLoop` specifies |
| Client.Orchestrator.ToolRounds | client.py:303-488 | the round loop and the fallback upload do what `RoundsFrom` specifies; a failed model call leaves the loop for the fallback |
| Client.Orchestrator.ProcessOnePackage | client.py:192-275 | `process_one_package` does what `ProcessPackage` specifies |

## Left out

- `init_package_environment_tool` and the reading of the system-prompt file are not modelled. The package path and the formatted system prompt are parameters of `ProcessOnePackage`.
- `connect`, `list_tools_openai_format`, `process_all_packages` and `cleanup` are not modelled. `process_all_packages` catches every exception raised for a package, so a failed prompt update ends the package with nothing written (`written == None`).
- Tools the model calls are answers of the `ToolServer` oracle. The store tools, the patch tool, `modify_file_tool` and the archive and upload tools then have no effect on the store or the files. The orchestrator calls the store tools itself, and those calls are modelled through `StateStore`.
- Client.RoundCounts, Client.RoundsCounts, Client.ToolsLoopFacts, Client.CallLeavesOthersAlone, Client.ProcessPackageFacts: a tool the model invokes, such as `track_file_modification_tool` or `apply_git_unified_patch_tool`, has no store effect in the model. The modification history that attempt k leaves for attempt k+1's prompt through such calls is therefore not captured; the lemmas state only that the orchestrator's own steps write no record.
- Client.Orchestrator.ProcessOnePackage: the "Build failed after attempt" message is appended to a transcript the next attempt discards, so it has no effect on the result.
- Client.Orchestrator.ProcessOnePackage: the insertion of a system message when the first message is not one is not modelled. `update_prompt_with_history_tool` always puts the system message first.
- The store tools' `try`/`except` around dictionary operations is not modelled. Those operations cannot fail on the modelled state.
- Logging, timestamps and `print` are not modelled. They do not affect any returned value.
- The 600-second timeout is the `TimedOut` outcome of the tool oracle. Exceptions from the language-model client are the `CallFailed` reply.
- The JSON encoding of tool results is not modelled: tools return Dafny values, not JSON text. `make_args_key` is modelled for argument objects, except floating-point numbers, which `JsonValue` omits.
- Json.ArgsKeyOrderIndependent: arguments that decode to something other than an object (for example the text `[1]`, which `json.loads` at client.py:313 turns into a list) are not representable, because `Args` is a member list. The key such a call gets is not modelled.
- PatchParse.ParseRange, PatchParse.HeaderRoundTrip, PatchParse.HeaderSound: `Text.IsDigit` accepts the ASCII digits only. Python's `\d` and `int()` also accept other Unicode decimal digits (for example Arabic-Indic digits), so a header written with those is refused by the model and accepted by the code.
- `ToLower` maps ASCII letters only. Python's full Unicode lower-casing is not modelled.
- PatchTool.ApplyGitUnifiedPatchTool: `os.makedirs` is not modelled. The directory set stays unchanged, and an error from creating a parent directory, or from writing under a path that is a file, is not captured.
- PatchTool.ApplyGitUnifiedPatchTool: file encodings are not modelled. Files are text, and a decoding error is not captured.
- PatchTool.ApplyGitUnifiedPatchTool: the working directory `os.path.abspath` uses is a parameter.
- Paths.Basename: `normpath` is modelled on plain strings for POSIX only. The lemmas about the patch tool's guard cover roots and targets made of plain components, not every path.
- `get_file_content_tool`, `modify_file_tool`, the archive tools, `upload_file_to_obs_tool`, `get_structure_of_files` and `get_packages_to_process` are I/O against the file system, the build service or the network. They are not part of this model.

## Findings

| source | as written | input that shows it | evidently intended | confidence | as-written member | corrected member |
|---|---|---|---|---|---|---|
| server_patch.py:113 | `line.startswith("")` holds for every line, so every diff line after the header is stored as an add | the diff lines `--- a`, `+++ b`, `@@ -1 +0,0 @@`, `-x`: the line `-x` is stored as an add of `x` | `line.startswith("+")`, as in server.py:110, so that deletes and context lines keep their kind | high (not executed) | PatchServerVariants.DeleteLineStoredAsAdd | Store.DiffEntriesCharacterization |
| server_patch.py:190-209 | every line of the prompt is built with `=` instead of `+=`, so only the last sentence on the path taken survives | any call, e.g. attempt 1: the user message is only the temporary-directory sentence, without the package name or path | `+=`, as in server.py:186-205, so that the message holds the package sentence, the history and the closing | high (not executed) | PatchServerVariants.PromptAsWrittenDropsIntro | Prompt.UpdatePromptShape |

/**
  The repair orchestrator of client.py: for one package it runs up to
  `max_build_attempts` attempts; each attempt clears the package's tool
  cache, asks the server for a fresh prompt, and lets the model call tools
  for up to `max_tool_rounds` rounds.  Around every tool call sit a repeat
  guard, a result cache, and an upload-before-check rule; a build check that
  classifies as a success ends the package.

  The model and the tool server are the `Llm` and `ToolServer` functions of
  module Chat.  The state store's own tools are modelled by `Store.StateStore`
  and are called directly, as the server would run them.
*/
module Client {
  import opened Wrappers
  import opened Text
  import opened Json
  import opened Chat
  import opened Store
  import opened BuildResult
  import opened Prompt

  // ---------------------------------------------------------------------------
  // Constants (client.py:112-113, 328, 337-343, 396, 418-420, 471).

  const DefaultMaxBuildAttempts: nat := 3
  const DefaultMaxToolRounds: nat := 20
  /** The `max_repeat` the client passes to `check_repeat_tool_call`. */
  const MaxRepeat: int := 3

  const CheckBuildTool := "check_build_result"
  const UploadTool := "upload_file_to_obs_tool"
  const UploadToolDeepseek := UploadTool + "_deepseek"
  const ModifyFileTool := "modify_file_tool"
  const FallbackCallId := "fallback_upload"
  const ModelCallFailed := "Model call " + "failed: "
  const SucceededHead := "Build succeeded on attempt "
  const FailedHead := "Build failed on attempt "

  /** The tool result fed back when the build is checked before any upload. */
  const UploadFirst := "ERROR: Cannot " + "call " + CheckBuildTool + " before " + "uploading. "
                       + "You must call " + UploadTool + " first."

  function Nudge(toolName: string): string {
    "Do not call " + toolName + " again in " + "this attempt. " + "Continue with " + "code changes " + "or other tools."
  }

  function TimedOutText(toolName: string): string {
    "Error: Tool " + toolName + " timed out"
  }

  function RaisedText(toolName: string, error: string): string {
    "Error: Tool " + toolName + " failed: " + error
  }

  predicate IsUploadTool(toolName: string) {
    toolName == UploadTool || toolName == UploadToolDeepseek
  }

  /** `"successful" in low or "success" in low` for the lower-cased result. */
  predicate UploadSucceeded(toolRet: string) {
    Mentions(ToLower(toolRet), "successful") || Mentions(ToLower(toolRet), "success")
  }

  /** `"error" not in tool_ret.lower()`: the condition for caching a `modify_file_tool` result. */
  predicate ErrorFree(toolRet: string) {
    !Mentions(ToLower(toolRet), "error")
  }

  /** `choice.finish_reason in ("tool_calls", None)` */
  predicate Continues(finishReason: Option<string>) {
    finishReason.None? || finishReason.value == "tool_calls"
  }

  // ---------------------------------------------------------------------------
  // The state, as a value: the store's three tables and the client's own.

  datatype Snap = Snap(history: map<string, seq<string>>, cache: map<string, map<string, string>>,
                       mods: map<string, seq<ModRecord>>, upload: map<string, bool>,
                       llmCalls: nat, toolExecs: nat)

  function HistOf(h: map<string, seq<string>>, pkg: string): seq<string> {
    if pkg in h then h[pkg] else []
  }

  function CacheOf(c: map<string, map<string, string>>, pkg: string): map<string, string> {
    if pkg in c then c[pkg] else map[]
  }

  function ModsOf(m: map<string, seq<ModRecord>>, pkg: string): seq<ModRecord> {
    if pkg in m then m[pkg] else []
  }

  /** `self.upload_status.get(package_name, False)` */
  predicate UploadOf(u: map<string, bool>, pkg: string) {
    pkg in u && u[pkg]
  }

  // ---------------------------------------------------------------------------
  // One tool call (client.py:310-451).

  /** The state after a tool call's work, and the text fed back for it. */
  datatype Exec = Exec(snap: Snap, text: string)

  /** Running the tool on a cache miss; only a clean `modify_file_tool` result is cached. */
  function Execute(s: Snap, tools: ToolServer, pkg: string, name: string, args: Args, key: string): Exec {
    var s1 := s.(toolExecs := s.toolExecs + 1);
    match tools(s.toolExecs, name, args)
    case Returned(t) =>
      if name == ModifyFileTool && ErrorFree(t)
      then Exec(s1.(cache := s1.cache[pkg := CacheOf(s1.cache, pkg)[key := t]]), t)
      else Exec(s1, t)
    case TimedOut => Exec(s1, TimedOutText(name))
    case Raised(e) => Exec(s1, RaisedText(name, e))
  }

  /** An allowed call: cache lookup (which creates the cache), the tool on a miss, then the key is recorded. */
  function RunAllowed(s: Snap, tools: ToolServer, pkg: string, name: string, args: Args, key: string): Exec {
    var cached := CacheOf(s.cache, pkg);
    var s1 := s.(cache := s.cache[pkg := cached]);
    var e := if key in cached then Exec(s1, cached[key]) else Execute(s1, tools, pkg, name, args, key);
    Exec(e.snap.(history := e.snap.history[pkg := HistOf(e.snap.history, pkg) + [key]]), e.text)
  }

  datatype CallResult = CallResult(snap: Snap, messages: seq<Message>, uploaded: bool, passed: bool)

  /**
    One entry of `choice.message.tool_calls`: the repeat check (whose only
    effect is creating the history list), the upload-before-check rule, the
    block-and-nudge path, the cached or executed call, the upload flag, the
    assistant/tool pair, and the build classification.
  */
  function CallStep(s: Snap, tools: ToolServer, pkg: string, content: Option<string>,
                    calls: seq<ToolCall>, tc: ToolCall, msgs: seq<Message>): CallResult
  {
    var name := tc.name;
    var key := ArgsKey(name, tc.Args());
    var allowed := Count(HistOf(s.history, pkg), key) < MaxRepeat;
    var s1 := s.(history := s.history[pkg := HistOf(s.history, pkg)]);
    var pair := [AssistantMsg(content, calls)];
    if name == CheckBuildTool && !UploadOf(s.upload, pkg) then
      CallResult(s1, msgs + pair + [ToolMsg(tc.id, UploadFirst)], false, false)
    else
      var e := if allowed then RunAllowed(s1, tools, pkg, name, tc.Args(), key) else Exec(s1, BlockedMessage(name, MaxRepeat));
      Conclude(e, pkg, content, calls, tc, msgs, allowed)
  }

  /** After the tool text is known: the nudge, the upload flag, the assistant/tool pair, and the classification. */
  function Conclude(e: Exec, pkg: string, content: Option<string>, calls: seq<ToolCall>, tc: ToolCall,
                    msgs: seq<Message>, allowed: bool): CallResult
  {
    var nudge := if allowed then [] else [UserMsg(Nudge(tc.name))];
    var up := IsUploadTool(tc.name) && UploadSucceeded(e.text);
    var s2 := if up then e.snap.(upload := e.snap.upload[pkg := true]) else e.snap;
    CallResult(s2, msgs + nudge + [AssistantMsg(content, calls)] + [ToolMsg(tc.id, e.text)], up,
               tc.name == CheckBuildTool && ParseBuildResult(e.text).success)
  }

  datatype RoundResult = RoundResult(snap: Snap, messages: seq<Message>, didUpload: bool, passed: bool)

  /** The calls `calls[j..]` of one round, stopping at a build check that passes. */
  function CallsFrom(s: Snap, tools: ToolServer, pkg: string, content: Option<string>,
                     calls: seq<ToolCall>, j: nat, msgs: seq<Message>, didUpload: bool): RoundResult
    requires j <= |calls|
    decreases |calls| - j, 1
  {
    if j == |calls| then RoundResult(s, msgs, didUpload, false)
    else CallAt(s, tools, pkg, content, calls, j, msgs, didUpload)
  }

  /** The call `calls[j]`, then the rest of the round unless it passed. */
  function CallAt(s: Snap, tools: ToolServer, pkg: string, content: Option<string>,
                  calls: seq<ToolCall>, j: nat, msgs: seq<Message>, didUpload: bool): RoundResult
    requires j < |calls|
    decreases |calls| - j, 0
  {
    var r := CallStep(s, tools, pkg, content, calls, calls[j], msgs);
    if r.passed then RoundResult(r.snap, r.messages, didUpload || r.uploaded, true)
    else CallsFrom(r.snap, tools, pkg, content, calls, j + 1, r.messages, didUpload || r.uploaded)
  }

  /** One unfolding of `CallsFrom`, with the call's result named. */
  lemma CallsFromStep(s: Snap, tools: ToolServer, pkg: string, content: Option<string>,
                      calls: seq<ToolCall>, j: nat, msgs: seq<Message>, didUpload: bool, r: CallResult)
    requires j < |calls| && r == CallStep(s, tools, pkg, content, calls, calls[j], msgs)
    ensures CallsFrom(s, tools, pkg, content, calls, j, msgs, didUpload)
            == if r.passed then RoundResult(r.snap, r.messages, didUpload || r.uploaded, true)
               else CallsFrom(r.snap, tools, pkg, content, calls, j + 1, r.messages, didUpload || r.uploaded)
  {
  }

  // ---------------------------------------------------------------------------
  // The tool loop of one attempt (client.py:277-488).

  datatype LoopResult = LoopResult(snap: Snap, messages: seq<Message>, text: string, ok: bool)

  /** Upload the package once more when nothing was uploaded; a failure is swallowed. */
  function Fallback(s: Snap, tools: ToolServer, path: string, msgs: seq<Message>,
                    latest: string, didUpload: bool): LoopResult
  {
    if didUpload then LoopResult(s, msgs, latest, false)
    else
      var s1 := s.(toolExecs := s.toolExecs + 1);
      match tools(s.toolExecs, UploadTool, [("package_path", JStr(path))])
      case Returned(t) => LoopResult(s1, msgs + [ToolMsg(FallbackCallId, t)], latest, false)
      case _ => LoopResult(s1, msgs, latest, false)
  }

  /** `latest_text = choice.message.content or latest_text` */
  function Latest(content: Option<string>, latest: string): string {
    if content.Some? && content.value != "" then content.value else latest
  }

  /** The `while` loop from round `rounds` on, with `reply` the current choice. */
  function RoundsFrom(s: Snap, llm: Llm, tools: ToolServer, pkg: string, path: string, reply: LlmReply,
                      rounds: nat, maxRounds: nat, msgs: seq<Message>, latest: string, didUpload: bool): LoopResult
    requires reply.Reply?
    decreases maxRounds - rounds, 1
  {
    if rounds >= maxRounds || !Continues(reply.finishReason) then Fallback(s, tools, path, msgs, latest, didUpload)
    else RoundAt(s, llm, tools, pkg, path, reply, rounds, maxRounds, msgs, latest, didUpload)
  }

  /** One round's calls, then the next model call and the rounds after it unless a build check passed. */
  function RoundAt(s: Snap, llm: Llm, tools: ToolServer, pkg: string, path: string, reply: LlmReply,
                   rounds: nat, maxRounds: nat, msgs: seq<Message>, latest: string, didUpload: bool): LoopResult
    requires reply.Reply? && rounds < maxRounds
    decreases maxRounds - rounds, 0
  {
    var r := CallsFrom(s, tools, pkg, reply.content, reply.toolCalls, 0, msgs, didUpload);
    if r.passed then LoopResult(r.snap, r.messages, latest, true)
    else
      var next := llm(r.snap.llmCalls, r.messages);
      var s1 := r.snap.(llmCalls := r.snap.llmCalls + 1);
      if next.CallFailed? then Fallback(s1, tools, path, r.messages, latest, r.didUpload)
      else RoundsFrom(s1, llm, tools, pkg, path, next, rounds + 1, maxRounds, r.messages,
                      Latest(next.content, latest), r.didUpload)
  }

  /** One round of `RoundsFrom`, with the round's result named. */
  lemma RoundsFromStep(s: Snap, llm: Llm, tools: ToolServer, pkg: string, path: string, reply: LlmReply,
                       rounds: nat, maxRounds: nat, msgs: seq<Message>, latest: string, didUpload: bool, r: RoundResult)
    requires reply.Reply? && rounds < maxRounds && Continues(reply.finishReason)
    requires r == CallsFrom(s, tools, pkg, reply.content, reply.toolCalls, 0, msgs, didUpload)
    ensures RoundsFrom(s, llm, tools, pkg, path, reply, rounds, maxRounds, msgs, latest, didUpload)
            == if r.passed then LoopResult(r.snap, r.messages, latest, true)
               else
                 var next := llm(r.snap.llmCalls, r.messages);
                 var s1 := r.snap.(llmCalls := r.snap.llmCalls + 1);
                 if next.CallFailed? then Fallback(s1, tools, path, r.messages, latest, r.didUpload)
                 else RoundsFrom(s1, llm, tools, pkg, path, next, rounds + 1, maxRounds, r.messages,
                                 Latest(next.content, latest), r.didUpload)
  {
  }

  /** `_llm_tools_loop`: the first model call, then the rounds. */
  function ToolsLoop(s: Snap, llm: Llm, tools: ToolServer, pkg: string, path: string,
                     maxRounds: nat, msgs: seq<Message>): LoopResult
  {
    var first := llm(s.llmCalls, msgs);
    var s1 := s.(llmCalls := s.llmCalls + 1);
    if first.CallFailed? then LoopResult(s1, msgs, ModelCallFailed + first.error, false)
    else RoundsFrom(s1, llm, tools, pkg, path, first, 0, maxRounds, msgs, TextOf(first.content), false)
  }

  // ---------------------------------------------------------------------------
  // The attempts for one package (client.py:192-275).

  /**
    What processing a package leaves: the text written to the result file
    (`None` when the prompt update raised and nothing was written), and
    whether a build succeeded.
  */
  datatype PackageResult = PackageResult(snap: Snap, written: Option<string>, succeeded: bool)

  /** `reset_package_cache_tool` on the snapshot. */
  function ResetSnap(s: Snap, pkg: string): Snap {
    s.(cache := if pkg in s.cache then s.cache[pkg := map[]] else s.cache,
       history := if pkg in s.history then s.history[pkg := []] else s.history)
  }

  function SucceededText(attempt: nat, content: string): string {
    SucceededHead + NatToString(attempt) + ".\n" + content
  }

  function FailedText(attempt: nat, content: string): string {
    FailedHead + NatToString(attempt) + ".\n" + content
  }

  /** Attempts `attempt..maxAttempts`, with `finalText` the last attempt's text so far. */
  function AttemptsFrom(s: Snap, llm: Llm, tools: ToolServer, pkg: string, path: string, formattedPrompt: string,
                        attempt: nat, maxAttempts: nat, maxRounds: nat, finalText: string): PackageResult
    requires attempt >= 1
    decreases maxAttempts + 1 - attempt, 1
  {
    if attempt > maxAttempts then PackageResult(s, Some(finalText), false)
    else AttemptAt(s, llm, tools, pkg, path, formattedPrompt, attempt, maxAttempts, maxRounds)
  }

  /** Attempt `attempt`: the cache reset, the prompt update, the tool loop, and the attempts after it on failure. */
  function AttemptAt(s: Snap, llm: Llm, tools: ToolServer, pkg: string, path: string, formattedPrompt: string,
                     attempt: nat, maxAttempts: nat, maxRounds: nat): PackageResult
    requires 1 <= attempt <= maxAttempts
    decreases maxAttempts + 1 - attempt, 0
  {
    var s1 := ResetSnap(s, pkg);
    var update := UpdatePromptWithHistory(pkg, path, attempt, formattedPrompt, ModsOf(s1.mods, pkg));
    if update.Err? then PackageResult(s1, None, false)
    else
      var r := ToolsLoop(s1, llm, tools, pkg, path, maxRounds, update.value);
      if r.ok then PackageResult(r.snap, Some(SucceededText(attempt, r.text)), true)
      else AttemptsFrom(r.snap, llm, tools, pkg, path, formattedPrompt, attempt + 1, maxAttempts, maxRounds,
                        FailedText(attempt, r.text))
  }

  /** One attempt of `AttemptsFrom`, with the reset state, the prompt update and the loop's result named. */
  lemma AttemptsFromStep(s: Snap, llm: Llm, tools: ToolServer, pkg: string, path: string, formattedPrompt: string,
                         attempt: nat, maxAttempts: nat, maxRounds: nat, finalText: string,
                         s1: Snap, update: Result<seq<Message>, string>, r: LoopResult)
    requires 1 <= attempt <= maxAttempts
    requires s1 == ResetSnap(s, pkg)
    requires update == UpdatePromptWithHistory(pkg, path, attempt, formattedPrompt, ModsOf(s1.mods, pkg))
    requires update.Ok? ==> r == ToolsLoop(s1, llm, tools, pkg, path, maxRounds, update.value)
    ensures AttemptsFrom(s, llm, tools, pkg, path, formattedPrompt, attempt, maxAttempts, maxRounds, finalText)
            == if update.Err? then PackageResult(s1, None, false)
               else if r.ok then PackageResult(r.snap, Some(SucceededText(attempt, r.text)), true)
               else AttemptsFrom(r.snap, llm, tools, pkg, path, formattedPrompt, attempt + 1, maxAttempts, maxRounds,
                                 FailedText(attempt, r.text))
  {
  }

  /** `process_one_package` after the environment is set up: the upload flag is cleared once. */
  function ProcessPackage(s: Snap, llm: Llm, tools: ToolServer, pkg: string, path: string, formattedPrompt: string,
                          maxAttempts: nat, maxRounds: nat): PackageResult
  {
    AttemptsFrom(s.(upload := s.upload[pkg := false]), llm, tools, pkg, path, formattedPrompt,
                 1, maxAttempts, maxRounds, "")
  }

  // ---------------------------------------------------------------------------
  // What one tool call does.

  /** `"successful" in low or "success" in low` is just `"success" in low`. */
  lemma UploadSucceededIsSuccess(toolRet: string)
    ensures UploadSucceeded(toolRet) <==> Contains(ToLower(toolRet), "success")
  {
    var low := ToLower(toolRet);
    MentionsIsContains(low, "successful");
    MentionsIsContains(low, "success");
    if Contains(low, "successful") {
      var k :| 0 <= k <= |low| - |"successful"| && OccursAt(low, "successful", k);
      assert low[k..k + 7] == low[k..k + 10][..7];
      assert OccursAt(low, "success", k);
    }
  }

  /**
    A build check before any successful upload of the package is answered
    with `UploadFirst`: the tool does not run, the call is not recorded, and
    nothing but the empty history list is created.
  */
  lemma CheckBeforeUploadRefused(s: Snap, tools: ToolServer, pkg: string, content: Option<string>,
                                 calls: seq<ToolCall>, tc: ToolCall, msgs: seq<Message>)
    requires tc.name == CheckBuildTool && !UploadOf(s.upload, pkg)
    ensures var r := CallStep(s, tools, pkg, content, calls, tc, msgs);
      r.snap == s.(history := s.history[pkg := HistOf(s.history, pkg)])
      && HistOf(r.snap.history, pkg) == HistOf(s.history, pkg)
      && r.messages == msgs + [AssistantMsg(content, calls), ToolMsg(tc.id, UploadFirst)]
      && !r.uploaded && !r.passed
  {
  }

  /**
    A call whose key was already recorded `MaxRepeat` times is blocked: the
    tool does not run, nothing is recorded or cached, and the model is told
    not to call it again before the assistant/tool pair.
  */
  lemma RepeatedCallBlocked(s: Snap, tools: ToolServer, pkg: string, content: Option<string>,
                            calls: seq<ToolCall>, tc: ToolCall, msgs: seq<Message>)
    requires !(tc.name == CheckBuildTool && !UploadOf(s.upload, pkg))
    requires Count(HistOf(s.history, pkg), ArgsKey(tc.name, tc.Args())) >= MaxRepeat
    ensures var r := CallStep(s, tools, pkg, content, calls, tc, msgs);
      r.snap.toolExecs == s.toolExecs
      && HistOf(r.snap.history, pkg) == HistOf(s.history, pkg)
      && r.snap.cache == s.cache
      && r.messages == msgs + [UserMsg(Nudge(tc.name)), AssistantMsg(content, calls),
                               ToolMsg(tc.id, BlockedMessage(tc.name, MaxRepeat))]
  {
  }

  /** Running the tool counts one execution and touches only the package's cache. */
  lemma ExecuteCounts(s: Snap, tools: ToolServer, pkg: string, name: string, args: Args, key: string, other: string)
    requires other != pkg
    ensures var x := Execute(s, tools, pkg, name, args, key);
      x.snap.toolExecs == s.toolExecs + 1
      && CacheOf(x.snap.cache, other) == CacheOf(s.cache, other)
      && x.snap.history == s.history && x.snap.upload == s.upload
      && x.snap.mods == s.mods && x.snap.llmCalls == s.llmCalls
  {
  }

  /** Running the tool caches only a clean `modify_file_tool` result, under its key. */
  lemma ExecuteCache(s: Snap, tools: ToolServer, pkg: string, name: string, args: Args, key: string)
    ensures var x := Execute(s, tools, pkg, name, args, key);
      CacheOf(x.snap.cache, pkg) == CacheOf(s.cache, pkg)
      || (name == ModifyFileTool && ErrorFree(x.text)
          && CacheOf(x.snap.cache, pkg) == CacheOf(s.cache, pkg)[key := x.text])
  {
  }

  /** What an allowed call does to the state: one record, at most one execution, the caching rule. */
  lemma RunAllowedFacts(s: Snap, tools: ToolServer, pkg: string, name: string, args: Args, key: string, other: string)
    requires other != pkg
    ensures var e := RunAllowed(s, tools, pkg, name, args, key);
      HistOf(e.snap.history, pkg) == HistOf(s.history, pkg) + [key]
      && e.snap.toolExecs == (if key in CacheOf(s.cache, pkg) then s.toolExecs else s.toolExecs + 1)
      && (key in CacheOf(s.cache, pkg) ==> e.text == CacheOf(s.cache, pkg)[key])
      && (CacheOf(e.snap.cache, pkg) == CacheOf(s.cache, pkg)
          || (name == ModifyFileTool && key !in CacheOf(s.cache, pkg) && ErrorFree(e.text)
              && CacheOf(e.snap.cache, pkg) == CacheOf(s.cache, pkg)[key := e.text]))
      && HistOf(e.snap.history, other) == HistOf(s.history, other)
      && CacheOf(e.snap.cache, other) == CacheOf(s.cache, other)
      && e.snap.upload == s.upload && e.snap.mods == s.mods && e.snap.llmCalls == s.llmCalls
  {
    var cached := CacheOf(s.cache, pkg);
    var s1 := s.(cache := s.cache[pkg := cached]);
    if key !in cached {
      ExecuteCounts(s1, tools, pkg, name, args, key, other);
      ExecuteCache(s1, tools, pkg, name, args, key);
    }
  }

  /** What the end of a call does: the transcript pair, the upload flag, the classification. */
  lemma ConcludeFacts(e: Exec, pkg: string, content: Option<string>, calls: seq<ToolCall>, tc: ToolCall,
                      msgs: seq<Message>, allowed: bool, other: string)
    requires other != pkg
    ensures var r := Conclude(e, pkg, content, calls, tc, msgs, allowed);
      r.snap.(upload := e.snap.upload) == e.snap
      && r.messages == msgs + (if allowed then [] else [UserMsg(Nudge(tc.name))])
                       + [AssistantMsg(content, calls), ToolMsg(tc.id, e.text)]
      && (r.uploaded <==> IsUploadTool(tc.name) && UploadSucceeded(e.text))
      && (UploadOf(r.snap.upload, pkg) <==> UploadOf(e.snap.upload, pkg) || r.uploaded)
      && UploadOf(r.snap.upload, other) == UploadOf(e.snap.upload, other)
      && (r.passed <==> tc.name == CheckBuildTool && ParseBuildResult(e.text).success)
  {
  }

  /**
    An allowed call is recorded exactly once, whether or not its result came
    from the cache; the tool runs exactly when the key is not cached, and a
    cached key's stored text is what the model sees.
  */
  lemma AllowedCallRecordedOnce(s: Snap, tools: ToolServer, pkg: string, content: Option<string>,
                                calls: seq<ToolCall>, tc: ToolCall, msgs: seq<Message>)
    requires !(tc.name == CheckBuildTool && !UploadOf(s.upload, pkg))
    requires Count(HistOf(s.history, pkg), ArgsKey(tc.name, tc.Args())) < MaxRepeat
    ensures var key := ArgsKey(tc.name, tc.Args());
      var r := CallStep(s, tools, pkg, content, calls, tc, msgs);
      HistOf(r.snap.history, pkg) == HistOf(s.history, pkg) + [key]
      && Count(HistOf(r.snap.history, pkg), key) == Count(HistOf(s.history, pkg), key) + 1
      && (r.snap.toolExecs == s.toolExecs + 1 <==> key !in CacheOf(s.cache, pkg))
      && (key in CacheOf(s.cache, pkg) ==>
            r.snap.toolExecs == s.toolExecs && r.messages[|r.messages| - 1] == ToolMsg(tc.id, CacheOf(s.cache, pkg)[key]))
  {
    var key := ArgsKey(tc.name, tc.Args());
    var s1 := s.(history := s.history[pkg := HistOf(s.history, pkg)]);
    var e := RunAllowed(s1, tools, pkg, tc.name, tc.Args(), key);
    assert CallStep(s, tools, pkg, content, calls, tc, msgs) == Conclude(e, pkg, content, calls, tc, msgs, true);
    RunAllowedFacts(s1, tools, pkg, tc.name, tc.Args(), key, pkg + "/");
    ConcludeFacts(e, pkg, content, calls, tc, msgs, true, pkg + "/");
    CountAfterRecord(HistOf(s.history, pkg), key, key);
  }

  /** The tool text a call that is not refused by the upload rule feeds back, and the state it leaves. */
  function ExecOf(s: Snap, tools: ToolServer, pkg: string, tc: ToolCall): Exec {
    var key := ArgsKey(tc.name, tc.Args());
    var s1 := s.(history := s.history[pkg := HistOf(s.history, pkg)]);
    if Count(HistOf(s.history, pkg), key) < MaxRepeat then RunAllowed(s1, tools, pkg, tc.name, tc.Args(), key)
    else Exec(s1, BlockedMessage(tc.name, MaxRepeat))
  }

  /** `CallStep` as the two cases of the upload rule. */
  lemma CallStepCases(s: Snap, tools: ToolServer, pkg: string, content: Option<string>,
                      calls: seq<ToolCall>, tc: ToolCall, msgs: seq<Message>)
    ensures var r := CallStep(s, tools, pkg, content, calls, tc, msgs);
      if tc.name == CheckBuildTool && !UploadOf(s.upload, pkg)
      then r == CallResult(s.(history := s.history[pkg := HistOf(s.history, pkg)]),
                           msgs + [AssistantMsg(content, calls), ToolMsg(tc.id, UploadFirst)], false, false)
      else r == Conclude(ExecOf(s, tools, pkg, tc), pkg, content, calls, tc, msgs,
                         Count(HistOf(s.history, pkg), ArgsKey(tc.name, tc.Args())) < MaxRepeat)
  {
  }

  /** The state an unrefused call's work leaves: the caching rule, and nothing for other packages. */
  lemma ExecOfFacts(s: Snap, tools: ToolServer, pkg: string, tc: ToolCall, other: string)
    requires other != pkg
    ensures var key := ArgsKey(tc.name, tc.Args());
      var e := ExecOf(s, tools, pkg, tc);
      (CacheOf(e.snap.cache, pkg) == CacheOf(s.cache, pkg)
       || (tc.name == ModifyFileTool && key !in CacheOf(s.cache, pkg) && ErrorFree(e.text)
           && CacheOf(e.snap.cache, pkg) == CacheOf(s.cache, pkg)[key := e.text]))
      && HistOf(e.snap.history, other) == HistOf(s.history, other)
      && CacheOf(e.snap.cache, other) == CacheOf(s.cache, other)
      && e.snap.upload == s.upload && e.snap.mods == s.mods && e.snap.llmCalls == s.llmCalls
      && e.snap.toolExecs <= s.toolExecs + 1
  {
    var key := ArgsKey(tc.name, tc.Args());
    var s1 := s.(history := s.history[pkg := HistOf(s.history, pkg)]);
    if Count(HistOf(s.history, pkg), key) < MaxRepeat {
      RunAllowedFacts(s1, tools, pkg, tc.name, tc.Args(), key, other);
    }
  }

  /**
    The package's cache changes only when `modify_file_tool` ran and
    returned a text without "error" (in any case), and then only that key,
    to that text.
  */
  lemma OnlyCleanModifyCached(s: Snap, tools: ToolServer, pkg: string, content: Option<string>,
                              calls: seq<ToolCall>, tc: ToolCall, msgs: seq<Message>)
    ensures var key := ArgsKey(tc.name, tc.Args());
      var r := CallStep(s, tools, pkg, content, calls, tc, msgs);
      var t := r.messages[|r.messages| - 1].result;
      CacheOf(r.snap.cache, pkg) == CacheOf(s.cache, pkg)
      || (tc.name == ModifyFileTool && key !in CacheOf(s.cache, pkg) && ErrorFree(t)
          && CacheOf(r.snap.cache, pkg) == CacheOf(s.cache, pkg)[key := t])
  {
    CallStepCases(s, tools, pkg, content, calls, tc, msgs);
    if !(tc.name == CheckBuildTool && !UploadOf(s.upload, pkg)) {
      var allowed := Count(HistOf(s.history, pkg), ArgsKey(tc.name, tc.Args())) < MaxRepeat;
      var e := ExecOf(s, tools, pkg, tc);
      ExecOfFacts(s, tools, pkg, tc, pkg + "/");
      ConcludeFacts(e, pkg, content, calls, tc, msgs, allowed, pkg + "/");
    }
  }

  /**
    A call touches no other package's history, cache or upload flag and makes
    no model call; the orchestrator itself writes no modification record.
  */
  lemma CallLeavesOthersAlone(s: Snap, tools: ToolServer, pkg: string, content: Option<string>,
                              calls: seq<ToolCall>, tc: ToolCall, msgs: seq<Message>, other: string)
    requires other != pkg
    ensures var r := CallStep(s, tools, pkg, content, calls, tc, msgs);
      HistOf(r.snap.history, other) == HistOf(s.history, other)
      && CacheOf(r.snap.cache, other) == CacheOf(s.cache, other)
      && UploadOf(r.snap.upload, other) == UploadOf(s.upload, other)
      && r.snap.mods == s.mods && r.snap.llmCalls == s.llmCalls
      && r.snap.toolExecs <= s.toolExecs + 1
  {
    CallStepCases(s, tools, pkg, content, calls, tc, msgs);
    if !(tc.name == CheckBuildTool && !UploadOf(s.upload, pkg)) {
      var allowed := Count(HistOf(s.history, pkg), ArgsKey(tc.name, tc.Args())) < MaxRepeat;
      var e := ExecOf(s, tools, pkg, tc);
      ExecOfFacts(s, tools, pkg, tc, other);
      ConcludeFacts(e, pkg, content, calls, tc, msgs, allowed, other);
    }
  }

  /**
    The upload flag is set exactly when an upload tool's fed-back text
    contains "success" in any case, and it is never cleared by a call.
  */
  lemma UploadFlagRule(s: Snap, tools: ToolServer, pkg: string, content: Option<string>,
                       calls: seq<ToolCall>, tc: ToolCall, msgs: seq<Message>)
    ensures var r := CallStep(s, tools, pkg, content, calls, tc, msgs);
      var last := r.messages[|r.messages| - 1];
      last.ToolMsg? && last.toolCallId == tc.id
      && (r.uploaded <==> IsUploadTool(tc.name) && Contains(ToLower(last.result), "success"))
      && (UploadOf(r.snap.upload, pkg) <==> UploadOf(s.upload, pkg) || r.uploaded)
  {
    CallStepCases(s, tools, pkg, content, calls, tc, msgs);
    if !(tc.name == CheckBuildTool && !UploadOf(s.upload, pkg)) {
      var allowed := Count(HistOf(s.history, pkg), ArgsKey(tc.name, tc.Args())) < MaxRepeat;
      var e := ExecOf(s, tools, pkg, tc);
      ExecOfFacts(s, tools, pkg, tc, pkg + "/");
      ConcludeFacts(e, pkg, content, calls, tc, msgs, allowed, pkg + "/");
      UploadSucceededIsSuccess(e.text);
    }
  }

  /** The transcript ends with a tool result that classifies as a successful build. */
  predicate EndsWithPassingCheck(msgs: seq<Message>) {
    |msgs| > 0 && msgs[|msgs| - 1].ToolMsg? && ParseBuildResult(msgs[|msgs| - 1].result).success
  }

  /**
    A call passes only as a build check made after the package's upload
    succeeded, whose fed-back text classifies as a success.
  */
  lemma PassedOnlyAfterUpload(s: Snap, tools: ToolServer, pkg: string, content: Option<string>,
                              calls: seq<ToolCall>, tc: ToolCall, msgs: seq<Message>)
    ensures var r := CallStep(s, tools, pkg, content, calls, tc, msgs);
      r.passed ==> tc.name == CheckBuildTool && UploadOf(s.upload, pkg) && UploadOf(r.snap.upload, pkg)
                   && EndsWithPassingCheck(r.messages)
  {
    CallStepCases(s, tools, pkg, content, calls, tc, msgs);
    if !(tc.name == CheckBuildTool && !UploadOf(s.upload, pkg)) {
      var allowed := Count(HistOf(s.history, pkg), ArgsKey(tc.name, tc.Args())) < MaxRepeat;
      var e := ExecOf(s, tools, pkg, tc);
      ExecOfFacts(s, tools, pkg, tc, pkg + "/");
      ConcludeFacts(e, pkg, content, calls, tc, msgs, allowed, pkg + "/");
    }
  }

  // ---------------------------------------------------------------------------
  // What one round does.

  /** A round passes only through a build check after an upload, and then its last message is that check's result. */
  lemma {:induction false} RoundPassedAfterUpload(s: Snap, tools: ToolServer, pkg: string, content: Option<string>,
                                                  calls: seq<ToolCall>, j: nat, msgs: seq<Message>, didUpload: bool)
    requires j <= |calls|
    ensures var r := CallsFrom(s, tools, pkg, content, calls, j, msgs, didUpload);
      r.passed ==> UploadOf(r.snap.upload, pkg) && EndsWithPassingCheck(r.messages)
    decreases |calls| - j
  {
    if j < |calls| {
      var c := CallStep(s, tools, pkg, content, calls, calls[j], msgs);
      CallsFromStep(s, tools, pkg, content, calls, j, msgs, didUpload, c);
      if c.passed {
        PassedOnlyAfterUpload(s, tools, pkg, content, calls, calls[j], msgs);
      } else {
        RoundPassedAfterUpload(c.snap, tools, pkg, content, calls, j + 1, c.messages, didUpload || c.uploaded);
      }
    }
  }

  /**
    Over a round the upload flag and `did_upload` only go up, and
    `did_upload` is set only together with the flag.
  */
  lemma {:induction false} RoundUploadMonotone(s: Snap, tools: ToolServer, pkg: string, content: Option<string>,
                                               calls: seq<ToolCall>, j: nat, msgs: seq<Message>, didUpload: bool)
    requires j <= |calls|
    requires didUpload ==> UploadOf(s.upload, pkg)
    ensures var r := CallsFrom(s, tools, pkg, content, calls, j, msgs, didUpload);
      (UploadOf(s.upload, pkg) ==> UploadOf(r.snap.upload, pkg))
      && (didUpload ==> r.didUpload)
      && (r.didUpload ==> UploadOf(r.snap.upload, pkg))
    decreases |calls| - j
  {
    if j < |calls| {
      var c := CallStep(s, tools, pkg, content, calls, calls[j], msgs);
      CallsFromStep(s, tools, pkg, content, calls, j, msgs, didUpload, c);
      UploadFlagRule(s, tools, pkg, content, calls, calls[j], msgs);
      if !c.passed {
        RoundUploadMonotone(c.snap, tools, pkg, content, calls, j + 1, c.messages, didUpload || c.uploaded);
      }
    }
  }

  /**
    A round makes no model call and runs at most one tool per call; the
    orchestrator itself writes no modification record.
  */
  lemma {:induction false} RoundCounts(s: Snap, tools: ToolServer, pkg: string, content: Option<string>,
                                       calls: seq<ToolCall>, j: nat, msgs: seq<Message>, didUpload: bool)
    requires j <= |calls|
    ensures var r := CallsFrom(s, tools, pkg, content, calls, j, msgs, didUpload);
      r.snap.llmCalls == s.llmCalls && r.snap.mods == s.mods
      && r.snap.toolExecs <= s.toolExecs + (|calls| - j)
    decreases |calls| - j
  {
    if j < |calls| {
      var c := CallStep(s, tools, pkg, content, calls, calls[j], msgs);
      CallsFromStep(s, tools, pkg, content, calls, j, msgs, didUpload, c);
      CallLeavesOthersAlone(s, tools, pkg, content, calls, calls[j], msgs, pkg + "/");
      if !c.passed {
        RoundCounts(c.snap, tools, pkg, content, calls, j + 1, c.messages, didUpload || c.uploaded);
      }
    }
  }

  // ---------------------------------------------------------------------------
  // What the tool loop does.

  /**
    The fallback runs the upload tool exactly when nothing was uploaded in
    the loop, never reports success, and never sets the upload flag, even
    when its text says "success".
  */
  lemma FallbackFacts(s: Snap, tools: ToolServer, path: string, msgs: seq<Message>, latest: string, didUpload: bool)
    ensures var r := Fallback(s, tools, path, msgs, latest, didUpload);
      r.snap == s.(toolExecs := if didUpload then s.toolExecs else s.toolExecs + 1)
      && !r.ok && r.text == latest
      && (didUpload ==> r.messages == msgs)
      && (!didUpload ==> r.messages == msgs
                         || r.messages == msgs + [ToolMsg(FallbackCallId, r.messages[|msgs|].result)])
  {
  }

  /**
    From round `rounds` on, at most one model call per remaining round; the
    orchestrator itself writes no modification record.
  */
  lemma {:induction false} RoundsCounts(s: Snap, llm: Llm, tools: ToolServer, pkg: string, path: string,
                                        reply: LlmReply, rounds: nat, maxRounds: nat, msgs: seq<Message>,
                                        latest: string, didUpload: bool)
    requires reply.Reply? && rounds <= maxRounds
    ensures var r := RoundsFrom(s, llm, tools, pkg, path, reply, rounds, maxRounds, msgs, latest, didUpload);
      r.snap.llmCalls <= s.llmCalls + (maxRounds - rounds) && r.snap.mods == s.mods
    decreases maxRounds - rounds
  {
    if rounds >= maxRounds || !Continues(reply.finishReason) {
      FallbackFacts(s, tools, path, msgs, latest, didUpload);
    } else {
      var r := CallsFrom(s, tools, pkg, reply.content, reply.toolCalls, 0, msgs, didUpload);
      RoundsFromStep(s, llm, tools, pkg, path, reply, rounds, maxRounds, msgs, latest, didUpload, r);
      RoundCounts(s, tools, pkg, reply.content, reply.toolCalls, 0, msgs, didUpload);
      if !r.passed {
        var next := llm(r.snap.llmCalls, r.messages);
        var s1 := r.snap.(llmCalls := r.snap.llmCalls + 1);
        if next.CallFailed? {
          FallbackFacts(s1, tools, path, r.messages, latest, r.didUpload);
        } else {
          RoundsCounts(s1, llm, tools, pkg, path, next, rounds + 1, maxRounds, r.messages,
                       Latest(next.content, latest), r.didUpload);
        }
      }
    }
  }

  /**
    From round `rounds` on: a reported success comes from a build check
    after an upload, and the upload flag only goes up.
  */
  lemma {:induction false} RoundsOkAfterUpload(s: Snap, llm: Llm, tools: ToolServer, pkg: string, path: string,
                                               reply: LlmReply, rounds: nat, maxRounds: nat, msgs: seq<Message>,
                                               latest: string, didUpload: bool)
    requires reply.Reply?
    requires didUpload ==> UploadOf(s.upload, pkg)
    ensures var r := RoundsFrom(s, llm, tools, pkg, path, reply, rounds, maxRounds, msgs, latest, didUpload);
      (r.ok ==> UploadOf(r.snap.upload, pkg) && EndsWithPassingCheck(r.messages))
      && (UploadOf(s.upload, pkg) ==> UploadOf(r.snap.upload, pkg))
    decreases maxRounds - rounds
  {
    if rounds >= maxRounds || !Continues(reply.finishReason) {
      FallbackFacts(s, tools, path, msgs, latest, didUpload);
    } else {
      var r := CallsFrom(s, tools, pkg, reply.content, reply.toolCalls, 0, msgs, didUpload);
      RoundsFromStep(s, llm, tools, pkg, path, reply, rounds, maxRounds, msgs, latest, didUpload, r);
      RoundPassedAfterUpload(s, tools, pkg, reply.content, reply.toolCalls, 0, msgs, didUpload);
      RoundUploadMonotone(s, tools, pkg, reply.content, reply.toolCalls, 0, msgs, didUpload);
      if !r.passed {
        var next := llm(r.snap.llmCalls, r.messages);
        var s1 := r.snap.(llmCalls := r.snap.llmCalls + 1);
        if next.CallFailed? {
          FallbackFacts(s1, tools, path, r.messages, latest, r.didUpload);
        } else {
          RoundsOkAfterUpload(s1, llm, tools, pkg, path, next, rounds + 1, maxRounds, r.messages,
                              Latest(next.content, latest), r.didUpload);
        }
      }
    }
  }

  /** `t` is the non-empty content of the model's reply to one of its calls numbered `lo..hi-1`. */
  ghost predicate RepliedWithin(llm: Llm, lo: nat, hi: nat, t: string) {
    t != "" && exists n: nat, m: seq<Message> :: lo <= n < hi && llm(n, m).Reply? && llm(n, m).content == Some(t)
  }

  /**
    The reported text is the text the rounds started with, or the non-empty
    content of a reply to one of the model calls these rounds made.
  */
  lemma {:induction false} RoundsText(s: Snap, llm: Llm, tools: ToolServer, pkg: string, path: string,
                                      reply: LlmReply, rounds: nat, maxRounds: nat, msgs: seq<Message>,
                                      latest: string, didUpload: bool)
    requires reply.Reply?
    ensures var r := RoundsFrom(s, llm, tools, pkg, path, reply, rounds, maxRounds, msgs, latest, didUpload);
      s.llmCalls <= r.snap.llmCalls
      && (r.text == latest || RepliedWithin(llm, s.llmCalls, r.snap.llmCalls, r.text))
    decreases maxRounds - rounds
  {
    if rounds >= maxRounds || !Continues(reply.finishReason) {
      FallbackFacts(s, tools, path, msgs, latest, didUpload);
    } else {
      var r := CallsFrom(s, tools, pkg, reply.content, reply.toolCalls, 0, msgs, didUpload);
      RoundsFromStep(s, llm, tools, pkg, path, reply, rounds, maxRounds, msgs, latest, didUpload, r);
      RoundCounts(s, tools, pkg, reply.content, reply.toolCalls, 0, msgs, didUpload);
      if !r.passed {
        var next := llm(r.snap.llmCalls, r.messages);
        var s1 := r.snap.(llmCalls := r.snap.llmCalls + 1);
        if next.CallFailed? {
          FallbackFacts(s1, tools, path, r.messages, latest, r.didUpload);
        } else {
          var latest' := Latest(next.content, latest);
          RoundsText(s1, llm, tools, pkg, path, next, rounds + 1, maxRounds, r.messages, latest', r.didUpload);
          var r' := RoundsFrom(s1, llm, tools, pkg, path, next, rounds + 1, maxRounds, r.messages, latest', r.didUpload);
          if r'.text == latest' && latest' != latest {
            assert llm(s.llmCalls, r.messages) == next;
            assert RepliedWithin(llm, s.llmCalls, r'.snap.llmCalls, r'.text);
          } else if r'.text != latest' {
            var n: nat, m: seq<Message> :| s1.llmCalls <= n < r'.snap.llmCalls
                                           && llm(n, m).Reply? && llm(n, m).content == Some(r'.text);
            assert RepliedWithin(llm, s.llmCalls, r'.snap.llmCalls, r'.text);
          }
        }
      }
    }
  }

  /**
    `_llm_tools_loop` makes at most `1 + max_tool_rounds` model calls, never
    clears the upload flag, and reports success only after a build check
    that passed following an upload; the orchestrator itself writes no
    modification record.
  */
  lemma ToolsLoopFacts(s: Snap, llm: Llm, tools: ToolServer, pkg: string, path: string,
                       maxRounds: nat, msgs: seq<Message>)
    ensures var r := ToolsLoop(s, llm, tools, pkg, path, maxRounds, msgs);
      r.snap.llmCalls <= s.llmCalls + 1 + maxRounds
      && (r.ok ==> UploadOf(r.snap.upload, pkg) && EndsWithPassingCheck(r.messages))
      && (UploadOf(s.upload, pkg) ==> UploadOf(r.snap.upload, pkg))
      && r.snap.mods == s.mods
  {
    var first := llm(s.llmCalls, msgs);
    if first.Reply? {
      var s1 := s.(llmCalls := s.llmCalls + 1);
      RoundsCounts(s1, llm, tools, pkg, path, first, 0, maxRounds, msgs, TextOf(first.content), false);
      RoundsOkAfterUpload(s1, llm, tools, pkg, path, first, 0, maxRounds, msgs, TextOf(first.content), false);
    }
  }

  // ---------------------------------------------------------------------------
  // What processing a package does.

  /**
    One attempt, summarised: either it ends the package with `r` (a success,
    or a prompt update that raised, which cannot happen on the first
    attempt), or the attempts go on from `next` with a failure text for this
    attempt.  Either way the attempt makes at most `1 + max_tool_rounds`
    model calls, and the orchestrator itself writes no modification record.
  */
  lemma AttemptSummary(s: Snap, llm: Llm, tools: ToolServer, pkg: string, path: string,
                       formattedPrompt: string, attempt: nat, maxAttempts: nat, maxRounds: nat, finalText: string)
    returns (done: bool, r: PackageResult, next: Snap, text: string)
    requires 1 <= attempt <= maxAttempts
    ensures AttemptsFrom(s, llm, tools, pkg, path, formattedPrompt, attempt, maxAttempts, maxRounds, finalText)
            == if done then r else AttemptsFrom(next, llm, tools, pkg, path, formattedPrompt, attempt + 1, maxAttempts,
                                                maxRounds, text)
    ensures done ==> r.snap.mods == s.mods && r.snap.llmCalls <= s.llmCalls + 1 + maxRounds
    ensures !done ==> next.mods == s.mods && next.llmCalls <= s.llmCalls + 1 + maxRounds
    ensures done && r.succeeded ==> r.written.Some? && StartsWith(r.written.value, SucceededHead)
                                    && UploadOf(r.snap.upload, pkg)
                                    && exists c :: r.written == Some(SucceededText(attempt, c))
    ensures done && !r.succeeded ==> r.written.None? && attempt >= 2
    ensures !done ==> StartsWith(text, FailedHead + NatToString(attempt) + ".\n")
                      && exists c :: text == FailedText(attempt, c)
  {
    var s1 := ResetSnap(s, pkg);
    var update := UpdatePromptWithHistory(pkg, path, attempt, formattedPrompt, ModsOf(s1.mods, pkg));
    UpdatePromptShape(pkg, path, attempt, formattedPrompt, ModsOf(s1.mods, pkg));
    if update.Err? {
      AttemptsFromStep(s, llm, tools, pkg, path, formattedPrompt, attempt, maxAttempts, maxRounds, finalText,
                       s1, update, LoopResult(s1, [], "", false));
      done, r, next, text := true, PackageResult(s1, None, false), s1, "";
    } else {
      var l := ToolsLoop(s1, llm, tools, pkg, path, maxRounds, update.value);
      AttemptsFromStep(s, llm, tools, pkg, path, formattedPrompt, attempt, maxAttempts, maxRounds, finalText,
                       s1, update, l);
      ToolsLoopFacts(s1, llm, tools, pkg, path, maxRounds, update.value);
      next := l.snap;
      if l.ok {
        done, r, text := true, PackageResult(l.snap, Some(SucceededText(attempt, l.text)), true), "";
        PrefixStartsWith(SucceededHead, NatToString(attempt) + ".\n" + l.text);
        assert r.written == Some(SucceededText(attempt, l.text));
      } else {
        done, r, text := false, PackageResult(l.snap, None, false), FailedText(attempt, l.text);
        PrefixStartsWith(FailedHead + NatToString(attempt) + ".\n", l.text);
        assert text == FailedText(attempt, l.text);
      }
    }
  }

  /**
    The attempts from `attempt` on, with result `r`, stop at the first
    success, and the result file then holds the succeeded text of an
    attempt between `attempt` and `maxAttempts`; otherwise it holds the
    failed text of the last attempt.  A success implies the
    upload flag is set.
  */
  lemma {:induction false} AttemptsText(s: Snap, llm: Llm, tools: ToolServer, pkg: string, path: string,
                                        formattedPrompt: string, attempt: nat, maxAttempts: nat,
                                        maxRounds: nat, finalText: string, r: PackageResult)
    requires 1 <= attempt
    requires r == AttemptsFrom(s, llm, tools, pkg, path, formattedPrompt, attempt, maxAttempts, maxRounds, finalText)
    ensures r.succeeded ==> r.written.Some? && StartsWith(r.written.value, SucceededHead)
                            && UploadOf(r.snap.upload, pkg)
    ensures r.succeeded ==> exists k, c :: attempt <= k <= maxAttempts && r.written == Some(SucceededText(k, c))
    ensures !r.succeeded && r.written.Some? && attempt <= maxAttempts ==>
              StartsWith(r.written.value, FailedHead + NatToString(maxAttempts) + ".\n")
              && exists c :: r.written == Some(FailedText(maxAttempts, c))
    ensures attempt > maxAttempts ==> r.written == Some(finalText)
    ensures r.written.None? ==> 2 <= maxAttempts
    decreases maxAttempts + 1 - attempt
  {
    if attempt <= maxAttempts {
      var done, r1, next, text := AttemptSummary(s, llm, tools, pkg, path, formattedPrompt, attempt, maxAttempts,
                                                 maxRounds, finalText);
      if !done {
        AttemptsText(next, llm, tools, pkg, path, formattedPrompt, attempt + 1, maxAttempts, maxRounds, text, r);
      }
    }
  }

  /**
    The attempts from `attempt` on, with result `r`, make at most
    `1 + max_tool_rounds` model calls each; the orchestrator itself writes
    no modification record.
  */
  lemma {:induction false} AttemptsCounts(s: Snap, llm: Llm, tools: ToolServer, pkg: string, path: string,
                                          formattedPrompt: string, attempt: nat, maxAttempts: nat,
                                          maxRounds: nat, finalText: string, r: PackageResult)
    requires 1 <= attempt <= maxAttempts + 1
    requires r == AttemptsFrom(s, llm, tools, pkg, path, formattedPrompt, attempt, maxAttempts, maxRounds, finalText)
    ensures r.snap.mods == s.mods
    ensures r.snap.llmCalls <= s.llmCalls + (maxAttempts + 1 - attempt) * (1 + maxRounds)
    decreases maxAttempts + 1 - attempt
  {
    if attempt <= maxAttempts {
      var n := maxAttempts + 1 - attempt;
      MulFacts(n, 1 + maxRounds);
      var done, r1, next, text := AttemptSummary(s, llm, tools, pkg, path, formattedPrompt, attempt, maxAttempts,
                                                 maxRounds, finalText);
      if !done {
        AttemptsCounts(next, llm, tools, pkg, path, formattedPrompt, attempt + 1, maxAttempts, maxRounds, text, r);
        assert maxAttempts + 1 - (attempt + 1) == n - 1;
      }
    }
  }

  /** The products the model-call bound adds up. */
  lemma MulFacts(n: nat, k: nat)
    requires n >= 1
    ensures k <= n * k && (n - 1) * k + k == n * k
  {
  }

  /**
    `process_one_package`: success implies the upload flag is set and the
    result file holds the succeeded text of one of the attempts; a failure
    that ran all attempts holds the last one's failed text; with no
    attempts the result file is empty; the first attempt can never abort.
  */
  lemma ProcessPackageFacts(s: Snap, llm: Llm, tools: ToolServer, pkg: string, path: string,
                            formattedPrompt: string, maxAttempts: nat, maxRounds: nat)
    ensures var r := ProcessPackage(s, llm, tools, pkg, path, formattedPrompt, maxAttempts, maxRounds);
      (r.succeeded ==> UploadOf(r.snap.upload, pkg) && r.written.Some?
                       && StartsWith(r.written.value, SucceededHead)
                       && exists k, c :: 1 <= k <= maxAttempts && r.written == Some(SucceededText(k, c)))
      && (!r.succeeded && r.written.Some? && maxAttempts >= 1 ==>
            StartsWith(r.written.value, FailedHead + NatToString(maxAttempts) + ".\n")
            && exists c :: r.written == Some(FailedText(maxAttempts, c)))
      && (maxAttempts == 0 ==> r.written == Some(""))
      && (r.written.None? ==> maxAttempts >= 2)
      && r.snap.mods == s.mods
      && r.snap.llmCalls <= s.llmCalls + maxAttempts * (1 + maxRounds)
  {
    var s0 := s.(upload := s.upload[pkg := false]);
    var r := AttemptsFrom(s0, llm, tools, pkg, path, formattedPrompt, 1, maxAttempts, maxRounds, "");
    AttemptsText(s0, llm, tools, pkg, path, formattedPrompt, 1, maxAttempts, maxRounds, "", r);
    AttemptsCounts(s0, llm, tools, pkg, path, formattedPrompt, 1, maxAttempts, maxRounds, "", r);
  }

  // ---------------------------------------------------------------------------
  // The orchestrator object.

  class Orchestrator {
    const store: StateStore
    const llm: Llm
    const tools: ToolServer
    const maxBuildAttempts: nat
    const maxToolRounds: nat
    var uploadStatus: map<string, bool>
    /** How many model calls and tool executions have been made (the oracles' clocks). */
    var llmCalls: nat
    var toolExecs: nat

    constructor (store: StateStore, llm: Llm, tools: ToolServer, maxBuildAttempts: nat, maxToolRounds: nat)
      ensures this.store == store && this.llm == llm && this.tools == tools
      ensures this.maxBuildAttempts == maxBuildAttempts && this.maxToolRounds == maxToolRounds
      ensures uploadStatus == map[] && llmCalls == 0 && toolExecs == 0
    {
      this.store := store;
      this.llm := llm;
      this.tools := tools;
      this.maxBuildAttempts := maxBuildAttempts;
      this.maxToolRounds := maxToolRounds;
      uploadStatus := map[];
      llmCalls := 0;
      toolExecs := 0;
    }

    function Snapshot(): Snap
      reads this, store
    {
      Snap(store.toolCallHistory, store.toolCache, store.modificationHistory, uploadStatus, llmCalls, toolExecs)
    }

    /** The tool server call of a cache miss, with the caching rule. */
    method ExecuteTool(pkg: string, name: string, args: Args, key: string) returns (toolRet: string)
      modifies this, store
      ensures Exec(Snapshot(), toolRet) == Execute(old(Snapshot()), tools, pkg, name, args, key)
    {
      var outcome := tools(toolExecs, name, args);
      toolExecs := toolExecs + 1;
      match outcome
      case Returned(t) =>
        toolRet := t;
        if name == ModifyFileTool && ErrorFree(t) {
          var _ := store.CacheToolResult(key, t, pkg);
        }
      case TimedOut =>
        toolRet := TimedOutText(name);
      case Raised(e) =>
        toolRet := RaisedText(name, e);
    }

    /** An allowed call: cache lookup, the tool on a miss, and the history record. */
    method RunAllowedCall(pkg: string, name: string, args: Args, key: string) returns (toolRet: string)
      modifies this, store
      ensures Exec(Snapshot(), toolRet) == RunAllowed(old(Snapshot()), tools, pkg, name, args, key)
    {
      var hit, cached := store.CheckToolCache(key, name, pkg);
      if hit {
        toolRet := cached;
      } else {
        toolRet := ExecuteTool(pkg, name, args, key);
      }
      var _ := store.RecordToolCallHistory(key, pkg);
    }

    /** One tool call of a round. */
    method HandleToolCall(pkg: string, content: Option<string>, calls: seq<ToolCall>, tc: ToolCall,
                          messages: seq<Message>)
      returns (msgs: seq<Message>, uploaded: bool, passed: bool)
      modifies this, store
      ensures CallResult(Snapshot(), msgs, uploaded, passed)
              == CallStep(old(Snapshot()), tools, pkg, content, calls, tc, messages)
    {
      ghost var s0 := Snapshot();
      var name := tc.name;
      var args := tc.Args();
      var key := ArgsKey(name, args);
      var allowed, repeatMessage := store.CheckRepeatToolCall(name, key, MaxRepeat, pkg);
      assert Snapshot() == s0.(history := s0.history[pkg := HistOf(s0.history, pkg)]);
      if name == CheckBuildTool && !UploadOf(uploadStatus, pkg) {
        return messages + [AssistantMsg(content, calls)] + [ToolMsg(tc.id, UploadFirst)], false, false;
      }
      var toolRet: string;
      if !allowed {
        toolRet := repeatMessage;
      } else {
        toolRet := RunAllowedCall(pkg, name, args, key);
      }
      msgs, uploaded, passed := ConcludeCall(pkg, content, calls, tc, messages, allowed, toolRet);
    }

    /** The nudge, the upload flag, the transcript, and the build classification of one call. */
    method ConcludeCall(pkg: string, content: Option<string>, calls: seq<ToolCall>, tc: ToolCall,
                        messages: seq<Message>, allowed: bool, toolRet: string)
      returns (msgs: seq<Message>, uploaded: bool, passed: bool)
      modifies this
      ensures CallResult(Snapshot(), msgs, uploaded, passed)
              == Conclude(Exec(old(Snapshot()), toolRet), pkg, content, calls, tc, messages, allowed)
    {
      var name := tc.name;
      msgs := messages;
      if !allowed {
        msgs := msgs + [UserMsg(Nudge(name))];
      }
      uploaded := false;
      if IsUploadTool(name) && UploadSucceeded(toolRet) {
        uploadStatus := uploadStatus[pkg := true];
        uploaded := true;
      }
      msgs := msgs + [AssistantMsg(content, calls)] + [ToolMsg(tc.id, toolRet)];
      passed := false;
      if name == CheckBuildTool {
        var parsed := ParseBuildResult(toolRet);
        passed := parsed.success;
      }
    }

    /** The `for tc in choice.message.tool_calls` loop, leaving it when a build check passes. */
    method ProcessToolCalls(pkg: string, content: Option<string>, calls: seq<ToolCall>,
                            messages: seq<Message>, didUpload: bool)
      returns (msgs: seq<Message>, did: bool, passed: bool)
      modifies this, store
      ensures RoundResult(Snapshot(), msgs, did, passed)
              == CallsFrom(old(Snapshot()), tools, pkg, content, calls, 0, messages, didUpload)
    {
      msgs, did, passed := messages, didUpload, false;
      var j := 0;
      while j < |calls|
        invariant j <= |calls|
        invariant CallsFrom(Snapshot(), tools, pkg, content, calls, j, msgs, did)
                  == CallsFrom(old(Snapshot()), tools, pkg, content, calls, 0, messages, didUpload)
      {
        ghost var before, msgs0, did0 := Snapshot(), msgs, did;
        var uploaded;
        msgs, uploaded, passed := HandleToolCall(pkg, content, calls, calls[j], msgs);
        CallsFromStep(before, tools, pkg, content, calls, j, msgs0, did0, CallResult(Snapshot(), msgs, uploaded, passed));
        did := did || uploaded;
        if passed {
          return;
        }
        j := j + 1;
      }
    }

    /** The fallback upload after the rounds. */
    method FallbackUpload(path: string, messages: seq<Message>, latest: string, didUpload: bool)
      returns (msgs: seq<Message>)
      modifies this
      ensures LoopResult(Snapshot(), msgs, latest, false) == Fallback(old(Snapshot()), tools, path, messages, latest, didUpload)
    {
      msgs := messages;
      if !didUpload {
        var outcome := tools(toolExecs, UploadTool, [("package_path", JStr(path))]);
        toolExecs := toolExecs + 1;
        if outcome.Returned? {
          msgs := msgs + [ToolMsg(FallbackCallId, outcome.text)];
        }
      }
    }

    /** `_llm_tools_loop`: returns the latest text, whether a build check passed, and the transcript. */
    method LlmToolsLoop(pkg: string, path: string, messages: seq<Message>)
      returns (text: string, ok: bool, msgs: seq<Message>)
      modifies this, store
      ensures LoopResult(Snapshot(), msgs, text, ok)
              == ToolsLoop(old(Snapshot()), llm, tools, pkg, path, maxToolRounds, messages)
    {
      var choice := llm(llmCalls, messages);
      llmCalls := llmCalls + 1;
      if choice.CallFailed? {
        return ModelCallFailed + choice.error, false, messages;
      }
      text, ok, msgs := ToolRounds(pkg, path, choice, messages);
    }

    /**
      The `while` loop of `_llm_tools_loop` and the fallback after it; a
      failed model call leaves the loop straight for the fallback.
    */
    method ToolRounds(pkg: string, path: string, first: LlmReply, messages: seq<Message>)
      returns (text: string, ok: bool, msgs: seq<Message>)
      requires first.Reply?
      modifies this, store
      ensures LoopResult(Snapshot(), msgs, text, ok)
              == RoundsFrom(old(Snapshot()), llm, tools, pkg, path, first, 0, maxToolRounds, messages,
                            TextOf(first.content), false)
    {
      msgs := messages;
      var choice := first;
      var latest := TextOf(first.content);
      var rounds: nat := 0;
      var didUpload := false;
      while rounds < maxToolRounds && Continues(choice.finishReason)
        invariant choice.Reply?
        invariant RoundsFrom(Snapshot(), llm, tools, pkg, path, choice, rounds, maxToolRounds, msgs, latest, didUpload)
                  == RoundsFrom(old(Snapshot()), llm, tools, pkg, path, first, 0, maxToolRounds, messages,
                                TextOf(first.content), false)
        decreases maxToolRounds - rounds
      {
        ghost var before, msgs0, did0, rounds0 := Snapshot(), msgs, didUpload, rounds;
        rounds := rounds + 1;
        var passed;
        msgs, didUpload, passed := ProcessToolCalls(pkg, choice.content, choice.toolCalls, msgs, didUpload);
        RoundsFromStep(before, llm, tools, pkg, path, choice, rounds0, maxToolRounds, msgs0, latest, did0,
                       RoundResult(Snapshot(), msgs, didUpload, passed));
        if passed {
          return latest, true, msgs;
        }
        var next := llm(llmCalls, msgs);
        llmCalls := llmCalls + 1;
        if next.CallFailed? {
          msgs := FallbackUpload(path, msgs, latest, didUpload);
          return latest, false, msgs;
        }
        choice := next;
        latest := Latest(choice.content, latest);
      }
      msgs := FallbackUpload(path, msgs, latest, didUpload);
      return latest, false, msgs;
    }

    /**
      `process_one_package` from the upload-flag reset on; `written` is what
      goes to the result file, `None` when the prompt update raised.
    */
    method ProcessOnePackage(pkg: string, path: string, formattedPrompt: string)
      returns (written: Option<string>, succeeded: bool)
      modifies this, store
      ensures PackageResult(Snapshot(), written, succeeded)
              == ProcessPackage(old(Snapshot()), llm, tools, pkg, path, formattedPrompt, maxBuildAttempts, maxToolRounds)
    {
      uploadStatus := uploadStatus[pkg := false];
      var finalText := "";
      var attempt: nat := 1;
      while attempt <= maxBuildAttempts
        invariant attempt >= 1
        invariant AttemptsFrom(Snapshot(), llm, tools, pkg, path, formattedPrompt, attempt, maxBuildAttempts, maxToolRounds, finalText)
                  == ProcessPackage(old(Snapshot()), llm, tools, pkg, path, formattedPrompt, maxBuildAttempts, maxToolRounds)
        decreases maxBuildAttempts + 1 - attempt
      {
        ghost var before := Snapshot();
        var _, _ := store.ResetPackageCache(pkg);
        ghost var reset := Snapshot();
        assert reset == ResetSnap(before, pkg);
        var update := UpdatePromptWithHistory(pkg, path, attempt, formattedPrompt, store.Mods(pkg));
        assert store.Mods(pkg) == ModsOf(reset.mods, pkg);
        if update.Err? {
          AttemptsFromStep(before, llm, tools, pkg, path, formattedPrompt, attempt, maxBuildAttempts, maxToolRounds,
                           finalText, reset, update, LoopResult(reset, [], "", false));
          return None, false;
        }
        var content, ok, msgs := LlmToolsLoop(pkg, path, update.value);
        AttemptsFromStep(before, llm, tools, pkg, path, formattedPrompt, attempt, maxBuildAttempts, maxToolRounds,
                         finalText, reset, update, LoopResult(Snapshot(), msgs, content, ok));
        if ok {
          return Some(SucceededText(attempt, content)), true;
        }
        msgs := msgs + [UserMsg("Build failed after attempt " + NatToString(attempt)
                                + ". Continue analyzing and repairing, then retry.")];
        finalText := FailedText(attempt, content);
        attempt := attempt + 1;
      }
      written, succeeded := Some(finalText), false;
    }
  }
}

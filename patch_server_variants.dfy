/**
  Two tools of the patch server (server_patch.py) that differ from their
  counterparts in server.py, modelled as written.  `Store.ClassifyLine` and
  `Prompt.UpdatePromptWithHistory` are the intended versions that the rest
  of the model uses; the lemmas here show where the copies go wrong.
*/
module PatchServerVariants {
  import opened Wrappers
  import opened Text
  import opened Store
  import opened Chat
  import opened Prompt

  // ---------------------------------------------------------------------------
  // track_file_modification_tool (server_patch.py:81-150).

  /** Line classification as written: `line.startswith("")` holds for every line, so every change is an add. */
  function ClassifyLineAsWritten(line: string, index: int): seq<Change> {
    if index < 3 then []
    else [Change(Add, index - 2, RStrip(if line == [] then [] else line[1..], '\n'))]
  }

  function DiffPrefixAsWritten(lines: seq<string>, n: nat): seq<Change>
    requires n <= |lines|
  {
    if n == 0 then [] else DiffPrefixAsWritten(lines, n - 1) + ClassifyLineAsWritten(lines[n - 1], n - 1)
  }

  function DiffEntriesAsWritten(lines: seq<string>): seq<Change> {
    DiffPrefixAsWritten(lines, |lines|)
  }

  /** As written, every diff line after the three header lines is stored, and stored as an add. */
  lemma {:induction false} DiffPrefixAsWrittenAllAdds(lines: seq<string>, n: nat)
    requires n <= |lines|
    ensures |DiffPrefixAsWritten(lines, n)| == if n <= 3 then 0 else n - 3
    ensures forall k :: 0 <= k < |DiffPrefixAsWritten(lines, n)| ==>
              DiffPrefixAsWritten(lines, n)[k].op == Add && DiffPrefixAsWritten(lines, n)[k].lineNumber == k + 1
  {
    if n > 0 {
      DiffPrefixAsWrittenAllAdds(lines, n - 1);
    }
  }

  /** The two classifications agree on a line exactly when it is a header line or an added line. */
  lemma ClassificationsAgree(line: string, index: int)
    ensures ClassifyLineAsWritten(line, index) == ClassifyLine(line, index)
            <==> index < 3 || StartsWith(line, "+")
  {
    if index >= 3 && !StartsWith(line, "+") {
      var w := ClassifyLineAsWritten(line, index);
      assert |w| == 1 && w[0].op == Add;
      var c := ClassifyLine(line, index);
      assert |c| == 1 ==> Marker(c[0].op) == line[0] && line[0] != '+';
    }
  }

  /** A deleted line `-x` after the header is stored as an added `x`. */
  lemma DeleteLineStoredAsAdd()
    ensures var lines := ["--- a", "+++ b", "@@ -1 +0,0 @@", "-x"];
      DiffEntriesAsWritten(lines) == [Change(Add, 1, "x")]
      && DiffEntries(lines) == [Change(Delete, 1, "x")]
  {
    var lines := ["--- a", "+++ b", "@@ -1 +0,0 @@", "-x"];
    assert lines[3][1..] == "x";
    assert RStrip("x", '\n') == "x" by {
      RStripAbsent("x", '\n');
    }
    assert DiffPrefixAsWritten(lines, 3) == [] && DiffPrefix(lines, 3) == [];
  }

  // ---------------------------------------------------------------------------
  // update_prompt_with_history_tool (server_patch.py:174-218).

  /**
    The prompt update as written: every line assigns with `=`, so only the
    last assignment on the path taken survives.  Rendering still reads each
    record's `diff`, so a patch record still raises `KeyError`.
  */
  function UpdatePromptAsWritten(packageName: string, packagePath: string, buildAttempt: int,
                                 formattedPrompt: string, mods: seq<ModRecord>): Result<seq<Message>, string>
  {
    if buildAttempt <= 1 then Ok([SystemMsg(formattedPrompt), UserMsg(TempDirSentence)])
    else if !AllTracked(mods) then Err(DiffKey)
    else Ok([SystemMsg(formattedPrompt), UserMsg(ReplanSentence)])
  }

  /**
    As written, the user message names neither the package nor its path,
    and on a later attempt it ignores the stored history: two calls that
    differ only in those inputs return the same messages.
  */
  lemma PromptAsWrittenIgnoresInputs(name1: string, path1: string, mods1: seq<ModRecord>,
                                     name2: string, path2: string, mods2: seq<ModRecord>,
                                     buildAttempt: int, formattedPrompt: string)
    requires AllTracked(mods1) && AllTracked(mods2)
    ensures UpdatePromptAsWritten(name1, path1, buildAttempt, formattedPrompt, mods1)
            == UpdatePromptAsWritten(name2, path2, buildAttempt, formattedPrompt, mods2)
  {
  }

  /** On every input the intended version accepts, the as-written user message lacks the intended opening. */
  lemma PromptAsWrittenDropsIntro(packageName: string, packagePath: string, buildAttempt: int,
                                  formattedPrompt: string, mods: seq<ModRecord>)
    ensures var w := UpdatePromptAsWritten(packageName, packagePath, buildAttempt, formattedPrompt, mods);
      var r := UpdatePromptWithHistory(packageName, packagePath, buildAttempt, formattedPrompt, mods);
      w.Ok? == r.Ok?
      && (w.Ok? ==> w.value[0] == r.value[0] && w.value[1] != r.value[1]
                    && !StartsWith(w.value[1].content, Intro(packageName, packagePath)))
  {
    var w := UpdatePromptAsWritten(packageName, packagePath, buildAttempt, formattedPrompt, mods);
    UpdatePromptShape(packageName, packagePath, buildAttempt, formattedPrompt, mods);
    if w.Ok? {
      var intro := Intro(packageName, packagePath);
      assert intro[0] == 'P';
      if buildAttempt <= 1 {
        assert TempDirSentence[0] == 'A';
      } else {
        assert ReplanSentence[0] == 'A';
      }
    }
  }
}

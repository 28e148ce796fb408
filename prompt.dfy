/**
  `update_prompt_with_history_tool` (server.py:170-214): the two messages
  every build attempt starts from.  From the second attempt on, the user
  message lists the package's stored modification records.
*/
module Prompt {
  import opened Wrappers
  import opened Text
  import opened Store
  import opened Chat

  const TempDirSentence := "All modifications must be done " + "in the temporary directory. "
  const ReplanSentence := "Analyze previous " + "modifications and failures, " + "then provide new repair plan."

  /** The two fixed sentences every user message starts with. */
  function Intro(packageName: string, packagePath: string): string {
    "Please analyze and repair package " + packageName + " in: " + packagePath + ". " + TempDirSentence
  }

  /** The closing sentences of every later attempt's user message. */
  function Closing(buildAttempt: int): string {
    "After " + IntToString(buildAttempt - 1) + " attempts, build still failed. " + ReplanSentence
  }

  const HistoryHeading := "\n\nPrevious modifications:\n"

  /** `- Line {n} ({op}): {content[:200]}` */
  function RenderChange(c: Change): string {
    "- Line " + IntToString(c.lineNumber) + " (" + OpName(c.op) + "): " + Take(c.content, 200) + "\n"
  }

  function RenderChanges(cs: seq<Change>): string {
    if cs == [] then "" else RenderChange(cs[0]) + RenderChanges(cs[1..])
  }

  /** One stored record; only records with a `diff` can be rendered. */
  function RenderMod(m: ModRecord): string
    requires m.Tracked?
  {
    "File: " + m.filePath + "\n" + "Changes:\n" + RenderChanges(m.diff) + "\n"
  }

  predicate AllTracked(mods: seq<ModRecord>) {
    forall i :: 0 <= i < |mods| ==> mods[i].Tracked?
  }

  function RenderMods(mods: seq<ModRecord>): string
    requires AllTracked(mods)
  {
    if mods == [] then "" else RenderMod(mods[0]) + RenderMods(mods[1..])
  }

  /** The user message for attempt `buildAttempt` given the package's stored records. */
  function UserPrompt(packageName: string, packagePath: string, buildAttempt: int, mods: seq<ModRecord>): string
    requires buildAttempt <= 1 || AllTracked(mods)
  {
    var intro := Intro(packageName, packagePath);
    if buildAttempt <= 1 then intro
    else if mods == [] then intro + Closing(buildAttempt)
    else intro + HistoryHeading + RenderMods(mods) + Closing(buildAttempt)
  }

  /** The key whose absence makes rendering a record raise `KeyError`. */
  const DiffKey := "diff"

  /**
    The returned message list: a system message holding the given prompt,
    then the user message.  On a later attempt, a stored record without a
    `diff` (one the patch tool wrote) makes the tool raise `KeyError: 'diff'`,
    modelled as `Err(DiffKey)`.
  */
  function UpdatePromptWithHistory(packageName: string, packagePath: string, buildAttempt: int,
                                   formattedPrompt: string, mods: seq<ModRecord>): Result<seq<Message>, string>
  {
    if buildAttempt > 1 && !AllTracked(mods) then Err(DiffKey)
    else Ok([SystemMsg(formattedPrompt), UserMsg(UserPrompt(packageName, packagePath, buildAttempt, mods))])
  }

  /**
    The user message always opens with the package sentence and the
    temporary-directory sentence; on the first attempt that is all of it,
    and on a later attempt it closes with the attempt count and the request
    for a new plan.
  */
  lemma UserPromptShape(packageName: string, packagePath: string, buildAttempt: int, mods: seq<ModRecord>)
    requires buildAttempt <= 1 || AllTracked(mods)
    ensures var u := UserPrompt(packageName, packagePath, buildAttempt, mods);
      StartsWith(u, Intro(packageName, packagePath))
      && (buildAttempt <= 1 ==> u == Intro(packageName, packagePath))
      && (buildAttempt > 1 ==> EndsWith(u, Closing(buildAttempt)))
  {
    var intro, closing := Intro(packageName, packagePath), Closing(buildAttempt);
    if buildAttempt <= 1 {
      PrefixStartsWith(intro, "");
      assert intro + "" == intro;
    } else if mods == [] {
      PrefixStartsWith(intro, closing);
      SuffixEndsWith(intro, closing);
    } else {
      var history := HistoryHeading + RenderMods(mods);
      AppendAssoc(intro, HistoryHeading, RenderMods(mods));
      AppendAssoc(intro, history, closing);
      PrefixStartsWith(intro, history + closing);
      SuffixEndsWith(intro + history, closing);
    }
  }

  /**
    The tool fails exactly on a later attempt that meets a record without a
    `diff`, and then with `KeyError: 'diff'`; otherwise it returns exactly
    two messages, the given prompt verbatim as the system message and the
    user message shaped as `UserPromptShape` says.
  */
  lemma UpdatePromptShape(packageName: string, packagePath: string, buildAttempt: int,
                          formattedPrompt: string, mods: seq<ModRecord>)
    ensures var r := UpdatePromptWithHistory(packageName, packagePath, buildAttempt, formattedPrompt, mods);
      (r.Err? <==> buildAttempt > 1 && !AllTracked(mods))
      && (r.Err? ==> r.error == DiffKey)
      && (r.Ok? ==> |r.value| == 2 && r.value[0] == SystemMsg(formattedPrompt) && r.value[1].UserMsg?
                    && StartsWith(r.value[1].content, Intro(packageName, packagePath))
                    && (buildAttempt <= 1 ==> r.value[1].content == Intro(packageName, packagePath))
                    && (buildAttempt > 1 ==> EndsWith(r.value[1].content, Closing(buildAttempt))))
  {
    if buildAttempt <= 1 || AllTracked(mods) {
      UserPromptShape(packageName, packagePath, buildAttempt, mods);
    }
  }

  lemma AllTrackedAppend(a: seq<ModRecord>, b: seq<ModRecord>)
    requires AllTracked(a) && AllTracked(b)
    ensures AllTracked(a + b)
  {
    forall k | 0 <= k < |a + b|
      ensures (a + b)[k].Tracked?
    {
      if k < |a| {
        assert (a + b)[k] == a[k];
      } else {
        assert (a + b)[k] == b[k - |a|];
      }
    }
  }

  /** Rendering distributes over concatenation: records are rendered in stored order. */
  lemma {:induction false} RenderModsAppend(a: seq<ModRecord>, b: seq<ModRecord>)
    requires AllTracked(a) && AllTracked(b)
    ensures AllTracked(a + b)
    ensures RenderMods(a + b) == RenderMods(a) + RenderMods(b)
  {
    AllTrackedAppend(a, b);
    if a == [] {
      assert a + b == b;
      assert RenderMods(a) + RenderMods(b) == RenderMods(b);
    } else {
      var h, tl := a[0], a[1..];
      assert (a + b)[0] == h && (a + b)[1..] == tl + b;
      assert AllTracked(tl) by {
        forall k | 0 <= k < |tl|
          ensures tl[k].Tracked?
        {
          assert tl[k] == a[k + 1];
        }
      }
      RenderModsAppend(tl, b);
      AppendAssoc(RenderMod(h), RenderMods(tl), RenderMods(b));
    }
  }

  lemma {:induction false} RenderChangesAppend(a: seq<Change>, b: seq<Change>)
    ensures RenderChanges(a + b) == RenderChanges(a) + RenderChanges(b)
  {
    if a == [] {
      assert a + b == b;
    } else {
      assert (a + b)[0] == a[0] && (a + b)[1..] == a[1..] + b;
      RenderChangesAppend(a[1..], b);
    }
  }

  /**
    On a later attempt, every stored record appears in the user message with
    its `File:` line, its `Changes:` line and all its change lines, in order.
  */
  lemma EveryRecordRendered(packageName: string, packagePath: string, buildAttempt: int,
                            mods: seq<ModRecord>, i: nat)
    requires AllTracked(mods) && buildAttempt > 1 && i < |mods|
    ensures Contains(UserPrompt(packageName, packagePath, buildAttempt, mods),
                     "File: " + mods[i].filePath + "\n" + "Changes:\n" + RenderChanges(mods[i].diff))
  {
    var before, after := mods[..i], mods[i + 1..];
    assert mods == before + [mods[i]] + after;
    RenderModsAppend(before, [mods[i]]);
    RenderModsAppend(before + [mods[i]], after);
    assert RenderMods([mods[i]]) == RenderMod(mods[i]);
    var t := "File: " + mods[i].filePath + "\n" + "Changes:\n" + RenderChanges(mods[i].diff);
    var m, b, a := RenderMods(mods), RenderMods(before), RenderMods(after);
    assert RenderMod(mods[i]) == t + "\n";
    assert m == b + (t + "\n") + a;
    AppendAssoc(b, t, "\n");
    AppendAssoc(b + t, "\n", a);
    ContainsInMiddle(RenderMods(before), t, "\n" + RenderMods(after));
    ContainsAppend(Intro(packageName, packagePath) + HistoryHeading, m, Closing(buildAttempt), t);
  }

  /** Each change line of a record shows its number, its kind and at most 200 characters of content. */
  lemma EveryChangeRendered(cs: seq<Change>, j: nat)
    requires j < |cs|
    ensures Contains(RenderChanges(cs), RenderChange(cs[j]))
    ensures |Take(cs[j].content, 200)| <= 200
    ensures |cs[j].content| <= 200 ==> Take(cs[j].content, 200) == cs[j].content
  {
    var before, after := cs[..j], cs[j + 1..];
    assert cs == before + [cs[j]] + after;
    RenderChangesAppend(before, [cs[j]]);
    RenderChangesAppend(before + [cs[j]], after);
    assert RenderChanges([cs[j]]) == RenderChange(cs[j]);
    ContainsInMiddle(RenderChanges(before), RenderChange(cs[j]), RenderChanges(after));
  }
}

/**
  `parse_build_result_tool` (server.py:149-167): the build-status text is
  what follows the first ": ", and the build counts as successful when that
  text, lower-cased, contains one of five keywords anywhere.
*/
module BuildResult {
  import opened Wrappers
  import opened Text

  /** The first position at or after `from` where `t` occurs in `s`. */
  function FindFrom(s: string, t: string, from: nat): (r: Option<nat>)
    ensures r.Some? ==> from <= r.value && OccursAt(s, t, r.value)
                        && forall j :: from <= j < r.value ==> !OccursAt(s, t, j)
    ensures r.None? ==> forall j :: from <= j ==> !OccursAt(s, t, j)
    decreases |s| - from
  {
    if from + |t| > |s| then None
    else if OccursAt(s, t, from) then Some(from)
    else FindFrom(s, t, from + 1)
  }

  /** `result_content.split(": ", 1)[-1]` */
  function Status(resultContent: string): string {
    match FindFrom(resultContent, ": ", 0)
    case Some(k) => resultContent[k + 2..]
    case None => resultContent
  }

  const SuccessKeywords: seq<string> := ["success", "succeeded", "successfully", "passed", "ok"]

  predicate ContainsKeyword(low: string) {
    exists i | 0 <= i < |SuccessKeywords| :: Contains(low, SuccessKeywords[i])
  }

  /** The `{"success", "status"}` object the tool returns. */
  datatype Parsed = Parsed(success: bool, status: string)

  function ParseBuildResult(resultContent: string): Parsed {
    var status := Status(resultContent);
    Parsed(ContainsKeyword(ToLower(status)), status)
  }

  /** What `check_build_result` returns for the oracle's text (server.py:554-561). */
  function CheckBuildResultText(obsResult: string): string {
    "Build result: " + obsResult
  }

  /**
    The status is exactly the text after the first ": " when the text has
    one, and the whole text when it has none.
  */
  lemma StatusCharacterization(head: string, tail: string, whole: string)
    requires !Contains(head, ": ")
    requires !Contains(whole, ": ")
    ensures Status(head + ": " + tail) == tail
    ensures Status(whole) == whole
  {
    var s := head + ": " + tail;
    forall k | 0 <= k < |head|
      ensures !OccursAt(s, ": ", k)
    {
      NoSeparatorInHead(head, tail, k);
    }
    assert OccursAt(s, ": ", |head|) by {
      assert s[|head|..|head| + 2] == ": ";
    }
    assert FindFrom(s, ": ", 0) == Some(|head|);
    assert s[|head| + 2..] == tail;
  }

  /** A separator-free head followed by ": " has no separator starting inside the head. */
  lemma NoSeparatorInHead(head: string, tail: string, k: nat)
    requires !Contains(head, ": ") && k < |head|
    ensures !OccursAt(head + ": " + tail, ": ", k)
  {
    var s := head + ": " + tail;
    if k + 2 <= |head| {
      assert s[k..k + 2] == head[k..k + 2];
      assert !OccursAt(head, ": ", k);
    } else {
      assert s[k..k + 2][1] == s[k + 1] == ':';
    }
  }

  /** The text `check_build_result` reports is classified by the oracle's own words. */
  lemma CheckBuildResultStatus(obsResult: string)
    ensures Status(CheckBuildResultText(obsResult)) == obsResult
  {
    var head := "Build result";
    MissingChar(head, ": ", ':');
    assert CheckBuildResultText(obsResult) == head + ": " + obsResult;
    StatusCharacterization(head, obsResult, "");
  }

  /** A character of `t` that `s` lacks rules out `t in s`. */
  lemma MissingChar(s: string, t: string, c: char)
    requires c in t && c !in s
    ensures !Contains(s, t)
  {
    var j :| 0 <= j < |t| && t[j] == c;
    forall k | 0 <= k <= |s| - |t|
      ensures !OccursAt(s, t, k)
    {
      assert s[k..k + |t|][j] == s[k + j];
    }
  }

  /** Lower-casing cannot create a lower-case letter absent in both cases. */
  lemma LowerAbsent(s: string, c: char)
    requires 'a' <= c <= 'z' && c !in s && ((c as int - 32) as char) !in s
    ensures c !in ToLower(s)
  {
    forall i | 0 <= i < |s|
      ensures ToLower(s)[i] != c
    {
      assert s[i] in s;
    }
  }

  const BrokenHead := "Build broken! "

  /** The oracle's text for a package whose build state is "broken" (check_build_res.py:65). */
  function BrokenText(packageName: string): string {
    BrokenHead + BrokenDetail(packageName)
  }

  function BrokenDetail(packageName: string): string {
    "The sources either contain no build description (e.g. specfile), automatic source processing failed or a merge conflict does exist. Repository has been published. \n broken: can not parse name from "
    + packageName + ".spec"
  }

  /** Lower-cased text holding a keyword at a known place classifies as success. */
  lemma KeywordAt(head: string, rest: string, i: nat, k: nat)
    requires i < |SuccessKeywords| && OccursAt(ToLower(head), SuccessKeywords[i], k)
    ensures ParseBuildResult(CheckBuildResultText(head + rest)).success
  {
    CheckBuildResultStatus(head + rest);
    ToLowerAppend(head, rest);
    ContainsAppend([], ToLower(head), ToLower(rest), SuccessKeywords[i]);
    assert [] + ToLower(head) + ToLower(rest) == ToLower(head + rest);
  }

  /**
    A "broken" build classifies as success, because "broken" contains "ok";
    this holds whatever follows the oracle's "Build broken! ".
  */
  lemma BrokenHeadClassifiesAsSuccess(rest: string)
    ensures ParseBuildResult(CheckBuildResultText(BrokenHead + rest)).success
  {
    assert ToLower(BrokenHead)[8..10] == "ok";
    KeywordAt(BrokenHead, rest, 4, 8);
  }

  /** In particular the oracle's full text for a broken package classifies as success. */
  lemma BrokenClassifiesAsSuccess(packageName: string)
    ensures ParseBuildResult(CheckBuildResultText(BrokenText(packageName))).success
  {
    BrokenHeadClassifiesAsSuccess(BrokenDetail(packageName));
  }

  /** A "succeeded" build's text classifies as success (check_build_res.py:69). */
  lemma SucceededClassifiesAsSuccess(rest: string)
    ensures ParseBuildResult(CheckBuildResultText("Build succeeded! " + rest)).success
  {
    assert ToLower("Build succeeded! ")[6..15] == "succeeded";
    KeywordAt("Build succeeded! ", rest, 1, 6);
  }

  /**
    Every keyword holds an 's' or a 'k', so a status with neither letter, in
    either case, is classified as a failure.
  */
  lemma FailureWithoutSOrK(resultContent: string)
    requires var st := Status(resultContent); 's' !in st && 'S' !in st && 'k' !in st && 'K' !in st
    ensures !ParseBuildResult(resultContent).success
  {
    var low := ToLower(Status(resultContent));
    LowerAbsent(Status(resultContent), 's');
    LowerAbsent(Status(resultContent), 'k');
    forall i | 0 <= i < |SuccessKeywords|
      ensures !Contains(low, SuccessKeywords[i])
    {
      if i < 4 {
        assert SuccessKeywords[i][0] == 's' || SuccessKeywords[i][2] == 's';
        MissingChar(low, SuccessKeywords[i], 's');
      } else {
        assert SuccessKeywords[i][1] == 'k';
        MissingChar(low, SuccessKeywords[i], 'k');
      }
    }
  }
}

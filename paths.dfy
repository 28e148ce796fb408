/**
  The POSIX `os.path` functions the patch tool relies on (server_patch.py:
  513, 532-533, 570): `join`, `normpath`, `abspath` and `basename`, written
  out from their documented behaviour on strings.  The working directory
  `abspath` consults is a parameter.
*/
module Paths {
  import opened Text

  /** The first position at or after `i` holding `c`, or `|s|`. */
  function IndexOf(s: string, c: char, i: nat): (k: nat)
    requires i <= |s|
    ensures i <= k <= |s|
    ensures k < |s| ==> s[k] == c
    ensures forall j :: i <= j < k ==> s[j] != c
    decreases |s| - i
  {
    if i == |s| || s[i] == c then i else IndexOf(s, c, i + 1)
  }

  /** `s.split(c)` */
  function SplitOn(s: string, c: char): (r: seq<string>)
    ensures |r| >= 1
    decreases |s|
  {
    var k := IndexOf(s, c, 0);
    if k == |s| then [s] else [s[..k]] + SplitOn(s[k + 1..], c)
  }

  /** `os.path.join(a, b)` */
  function PathJoin(a: string, b: string): string {
    if StartsWith(b, "/") then b
    else if a == "" || EndsWith(a, "/") then a + b
    else a + "/" + b
  }

  function Slashes(n: nat): string {
    if n == 0 then "" else "/" + Slashes(n - 1)
  }

  /** The component loop of `normpath`: drops "" and ".", and lets ".." remove the component before it. */
  function NormComps(cs: seq<string>, i: nat, absolute: bool, stack: seq<string>): seq<string>
    requires i <= |cs|
    decreases |cs| - i
  {
    if i == |cs| then stack
    else
      var c := cs[i];
      if c == "" || c == "." then NormComps(cs, i + 1, absolute, stack)
      else if c != ".." || (!absolute && stack == []) || (stack != [] && stack[|stack| - 1] == "..") then
        NormComps(cs, i + 1, absolute, stack + [c])
      else if stack != [] then NormComps(cs, i + 1, absolute, stack[..|stack| - 1])
      else NormComps(cs, i + 1, absolute, stack)
  }

  /** `os.path.normpath(p)`: exactly two leading slashes are kept, three or more become one. */
  function NormPath(p: string): string {
    if p == "" then "."
    else
      var initial := if StartsWith(p, "/") then (if StartsWith(p, "//") && !StartsWith(p, "///") then 2 else 1) else 0;
      var path := Slashes(initial) + Join(NormComps(SplitOn(p, '/'), 0, initial > 0, []), "/");
      if path == "" then "." else path
  }

  /** `os.path.abspath(p)` with `os.getcwd()` given as `cwd`. */
  function AbsPath(cwd: string, p: string): string {
    if StartsWith(p, "/") then NormPath(p) else NormPath(PathJoin(cwd, p))
  }

  /** `os.path.basename(p)`: the text after the last "/". */
  function Basename(p: string): (r: string)
    ensures EndsWith(p, r) && '/' !in r
    ensures |r| < |p| ==> p[|p| - |r| - 1] == '/'
    decreases |p|
  {
    if p == [] then []
    else if p[|p| - 1] == '/' then []
    else
      var r := Basename(p[..|p| - 1]);
      assert p[..|p| - 1][|p| - 1 - |r|..] == r;
      r + [p[|p| - 1]]
  }

  // ---------------------------------------------------------------------------
  // Plain paths.

  /** A path component with nothing for `normpath` to do: not empty, not "." or "..", and no "/". */
  predicate Plain(c: string) {
    c != "" && c != "." && c != ".." && '/' !in c
  }

  predicate AllPlain(cs: seq<string>) {
    forall i :: 0 <= i < |cs| ==> Plain(cs[i])
  }

  lemma {:induction false} JoinAppend(a: seq<string>, b: seq<string>, sep: string)
    requires a != [] && b != []
    ensures Join(a + b, sep) == Join(a, sep) + sep + Join(b, sep)
    decreases |a|
  {
    if |a| == 1 {
      assert (a + b)[0] == a[0] && (a + b)[1..] == b;
    } else {
      assert (a + b)[0] == a[0] && (a + b)[1..] == a[1..] + b;
      JoinAppend(a[1..], b, sep);
    }
  }

  /** Splitting at "/" undoes joining with "/" components that hold no "/". */
  lemma {:induction false} SplitJoin(cs: seq<string>)
    requires cs != [] && forall i :: 0 <= i < |cs| ==> '/' !in cs[i]
    ensures SplitOn(Join(cs, "/"), '/') == cs
    decreases |cs|
  {
    var s := Join(cs, "/");
    var c0 := cs[0];
    if |cs| == 1 {
      assert IndexOf(s, '/', 0) == |s| by {
        IndexOfAbsent(s, '/', 0);
      }
    } else {
      var rest := Join(cs[1..], "/");
      assert s == c0 + "/" + rest;
      assert s[|c0|] == '/';
      assert forall j :: 0 <= j < |c0| ==> s[j] == c0[j];
      IndexOfAt(s, '/', 0, |c0|);
      assert s[..|c0|] == c0;
      assert s[|c0| + 1..] == rest;
      SplitJoin(cs[1..]);
    }
  }

  lemma {:induction false} IndexOfAt(s: string, c: char, i: nat, k: nat)
    requires i <= k < |s| && s[k] == c && forall j :: i <= j < k ==> s[j] != c
    ensures IndexOf(s, c, i) == k
    decreases k - i
  {
    if i < k {
      IndexOfAt(s, c, i + 1, k);
    }
  }

  lemma {:induction false} IndexOfAbsent(s: string, c: char, i: nat)
    requires i <= |s| && c !in s
    ensures IndexOf(s, c, i) == |s|
    decreases |s| - i
  {
    if i < |s| {
      assert s[i] in s;
      IndexOfAbsent(s, c, i + 1);
    }
  }

  /** Plain components pass through the component loop unchanged. */
  lemma {:induction false} NormCompsPlain(cs: seq<string>, i: nat, absolute: bool, stack: seq<string>)
    requires i <= |cs| && forall k :: i <= k < |cs| ==> Plain(cs[k])
    ensures NormComps(cs, i, absolute, stack) == stack + cs[i..]
    decreases |cs| - i
  {
    if i == |cs| {
      assert cs[i..] == [];
    } else {
      NormCompsPlain(cs, i + 1, absolute, stack + [cs[i]]);
      assert stack + [cs[i]] + cs[i + 1..] == stack + cs[i..];
    }
  }

  /** An absolute path written from plain components is already normal. */
  lemma NormPathPlain(cs: seq<string>)
    requires cs != [] && AllPlain(cs)
    ensures NormPath("/" + Join(cs, "/")) == "/" + Join(cs, "/")
  {
    var j := Join(cs, "/");
    var p := "/" + j;
    var parts := [""] + cs;
    assert forall i :: 0 <= i < |parts| ==> '/' !in parts[i] by {
      forall i | 0 <= i < |parts|
        ensures '/' !in parts[i]
      {
        if i > 0 {
          assert parts[i] == cs[i - 1];
        }
      }
    }
    assert parts[0] == "" && parts[1..] == cs;
    assert Join(parts, "/") == p;
    SplitJoin(parts);
    assert cs[0] != "" && '/' !in cs[0];
    JoinStartsWith(cs);
    assert p[1] != '/';
    assert !StartsWith(p, "//");
    assert SplitOn(p, '/') == parts;
    NormCompsPlain(parts, 1, true, []);
    assert [] + parts[1..] == cs;
    assert NormComps(parts, 0, true, []) == cs;
    assert Slashes(1) == "/";
    assert StartsWith(p, "/");
  }

  lemma JoinStartsWith(cs: seq<string>)
    requires cs != [] && cs[0] != ""
    ensures |Join(cs, "/")| >= 1 && Join(cs, "/")[0] == cs[0][0]
  {
  }

  /**
    A relative target made of plain components, joined to a root made of
    plain components, is the root, "/" and the target: `abspath` keeps it
    inside the root.
  */
  lemma PlainTargetInsideRoot(cwd: string, rootComps: seq<string>, relComps: seq<string>)
    requires rootComps != [] && AllPlain(rootComps) && relComps != [] && AllPlain(relComps)
    ensures var root := "/" + Join(rootComps, "/");
      var rel := Join(relComps, "/");
      AbsPath(cwd, root) == root
      && AbsPath(cwd, PathJoin(root, rel)) == root + "/" + rel
      && StartsWith(AbsPath(cwd, PathJoin(root, rel)), root + "/")
  {
    var root := "/" + Join(rootComps, "/");
    var rel := Join(relComps, "/");
    NormPathPlain(rootComps);
    JoinPlainTarget(rootComps, relComps);
    NormPathPlain(rootComps + relComps);
    assert (root + "/" + rel)[..|root + "/"|] == root + "/";
  }

  /** Joining a plain relative target to a plain root puts exactly one "/" between them. */
  lemma JoinPlainTarget(rootComps: seq<string>, relComps: seq<string>)
    requires rootComps != [] && AllPlain(rootComps) && relComps != [] && AllPlain(relComps)
    ensures var root := "/" + Join(rootComps, "/");
      var rel := Join(relComps, "/");
      PathJoin(root, rel) == root + "/" + rel == "/" + Join(rootComps + relComps, "/")
      && AllPlain(rootComps + relComps)
  {
    var root := "/" + Join(rootComps, "/");
    var rel := Join(relComps, "/");
    PlainRelative(relComps);
    JoinEndsWithLast(rootComps);
    assert !EndsWith(root, "/");
    AllPlainAppend(rootComps, relComps);
    JoinAppend(rootComps, relComps, "/");
  }

  /** A path of plain components does not start with "/". */
  lemma PlainRelative(cs: seq<string>)
    requires cs != [] && AllPlain(cs)
    ensures !StartsWith(Join(cs, "/"), "/")
  {
    assert Plain(cs[0]);
    JoinStartsWith(cs);
    assert cs[0][0] in cs[0];
  }

  lemma AllPlainAppend(a: seq<string>, b: seq<string>)
    requires AllPlain(a) && AllPlain(b)
    ensures AllPlain(a + b)
  {
    forall i | 0 <= i < |a + b|
      ensures Plain((a + b)[i])
    {
      if i >= |a| {
        assert (a + b)[i] == b[i - |a|];
      } else {
        assert (a + b)[i] == a[i];
      }
    }
  }

  lemma {:induction false} JoinEndsWithLast(cs: seq<string>)
    requires cs != [] && AllPlain(cs)
    ensures |Join(cs, "/")| >= 1 && Join(cs, "/")[|Join(cs, "/")| - 1] != '/'
    decreases |cs|
  {
    var last := cs[|cs| - 1];
    assert Plain(last);
    if |cs| == 1 {
      assert last[|last| - 1] in last;
    } else {
      assert AllPlain(cs[1..]) by {
        forall i | 0 <= i < |cs[1..]|
          ensures Plain(cs[1..][i])
        {
          assert cs[1..][i] == cs[i + 1];
        }
      }
      JoinEndsWithLast(cs[1..]);
    }
  }

  /** The package name under which the patch tool records history: the root's last component. */
  lemma BasenameOfPlainRoot(rootComps: seq<string>)
    requires rootComps != [] && AllPlain(rootComps)
    ensures Basename("/" + Join(rootComps, "/")) == rootComps[|rootComps| - 1]
  {
    var last := rootComps[|rootComps| - 1];
    var dir := if |rootComps| == 1 then "" else "/" + Join(rootComps[..|rootComps| - 1], "/");
    assert '/' !in last by {
      assert Plain(last);
    }
    if |rootComps| == 1 {
      assert Join(rootComps, "/") == last;
      assert dir + "/" + last == "/" + last;
    } else {
      JoinLast(rootComps, "/");
      var f := Join(rootComps[..|rootComps| - 1], "/");
      AppendAssoc("/", f + "/", last);
      AppendAssoc("/", f, "/");
    }
    BasenameAfterSlash(dir, last);
  }

  lemma JoinLast(cs: seq<string>, sep: string)
    requires |cs| > 1
    ensures Join(cs, sep) == Join(cs[..|cs| - 1], sep) + sep + cs[|cs| - 1]
  {
    var front := cs[..|cs| - 1];
    assert front + [cs[|cs| - 1]] == cs;
    JoinAppend(front, [cs[|cs| - 1]], sep);
  }

  lemma {:induction false} BasenameAfterSlash(dir: string, name: string)
    requires '/' !in name
    ensures Basename(dir + "/" + name) == name
    decreases |name|
  {
    var p := dir + "/" + name;
    if name == [] {
      assert p[|p| - 1] == '/';
    } else {
      var front := name[..|name| - 1];
      assert p[..|p| - 1] == dir + "/" + front;
      assert p[|p| - 1] == name[|name| - 1];
      assert name[|name| - 1] in name;
      assert forall c :: c in front ==> c in name;
      BasenameAfterSlash(dir, front);
      assert front + [name[|name| - 1]] == name;
    }
  }

  // ---------------------------------------------------------------------------
  // Paths that leave the root.

  /** A string that starts with `y` and then "/" has `y` as its first "/"-separated piece. */
  lemma FirstPiece(x: string, y: string)
    requires '/' !in y && StartsWith(x, y + "/")
    ensures SplitOn(x, '/')[0] == y
  {
    assert x[|y|] == (y + "/")[|y|] == '/';
    forall j | 0 <= j < |y|
      ensures x[j] != '/'
    {
      assert x[j] == (y + "/")[j] == y[j];
      assert y[j] in y;
    }
    IndexOfAt(x, '/', 0, |y|);
    assert x[..|y|] == (y + "/")[..|y|] == y;
  }

  lemma PlainNoSlashes(cs: seq<string>)
    requires AllPlain(cs)
    ensures forall i :: 0 <= i < |cs| ==> '/' !in cs[i]
  {
    forall i | 0 <= i < |cs|
      ensures '/' !in cs[i]
    {
      assert Plain(cs[i]);
    }
  }

  /** A path of plain components does not start with the component `c` and "/" unless its first component is `c`. */
  lemma NotUnderOtherComponent(cs: seq<string>, c: string)
    requires cs != [] && AllPlain(cs) && Plain(c) && cs[0] != c
    ensures !StartsWith(Join(cs, "/"), c + "/")
  {
    if StartsWith(Join(cs, "/"), c + "/") {
      PlainNoSlashes(cs);
      SplitJoin(cs);
      FirstPiece(Join(cs, "/"), c);
      assert false;
    }
  }

  lemma {:induction false} NormCompsPlainRun(cs: seq<string>, i: nat, j: nat, absolute: bool, stack: seq<string>)
    requires i <= j <= |cs| && forall k :: i <= k < j ==> Plain(cs[k])
    ensures NormComps(cs, i, absolute, stack) == NormComps(cs, j, absolute, stack + cs[i..j])
    decreases j - i
  {
    if i == j {
      assert stack + cs[i..j] == stack;
    } else {
      NormCompsPlainRun(cs, i + 1, j, absolute, stack + [cs[i]]);
      assert stack + [cs[i]] + cs[i + 1..j] == stack + cs[i..j];
    }
  }

  /**
    An absolute target whose first component differs from the root's
    resolves outside the root: the guard refuses it.
  */
  lemma AbsoluteTargetOutsideRoot(cwd: string, rootComps: seq<string>, targetComps: seq<string>)
    requires rootComps != [] && AllPlain(rootComps) && targetComps != [] && AllPlain(targetComps)
    requires targetComps[0] != rootComps[0]
    ensures var root := "/" + Join(rootComps, "/");
      !StartsWith(AbsPath(cwd, PathJoin(root, "/" + Join(targetComps, "/"))), root + "/")
  {
    var root := "/" + Join(rootComps, "/");
    var target := "/" + Join(targetComps, "/");
    assert PathJoin(root, target) == target;
    NormPathPlain(targetComps);
    assert AbsPath(cwd, target) == target;
    OtherTopNotUnder(rootComps, targetComps);
  }

  /** A plain absolute path whose first component differs from the root's does not lie under the root. */
  lemma OtherTopNotUnder(rootComps: seq<string>, targetComps: seq<string>)
    requires rootComps != [] && AllPlain(rootComps) && targetComps != [] && AllPlain(targetComps)
    requires targetComps[0] != rootComps[0]
    ensures !StartsWith("/" + Join(targetComps, "/"), "/" + Join(rootComps, "/") + "/")
  {
    var root := "/" + Join(rootComps, "/");
    var target := "/" + Join(targetComps, "/");
    if StartsWith(target, root + "/") {
      var rj, tj := Join(rootComps, "/"), Join(targetComps, "/");
      assert tj[..|rj| + 1] == target[1..|root| + 1] == (root + "/")[1..] == rj + "/";
      if |rootComps| == 1 {
        NotUnderOtherComponent(targetComps, rootComps[0]);
      } else {
        JoinStartsWithFirst(rootComps);
        assert StartsWith(tj, rootComps[0] + "/") by {
          assert (rj + "/")[..|rootComps[0]| + 1] == rj[..|rootComps[0]| + 1];
        }
        NotUnderOtherComponent(targetComps, rootComps[0]);
      }
    }
  }

  lemma JoinStartsWithFirst(cs: seq<string>)
    requires |cs| > 1
    ensures StartsWith(Join(cs, "/"), cs[0] + "/")
  {
    assert Join(cs, "/") == cs[0] + "/" + Join(cs[1..], "/");
  }

  /** The components of `<root>/../<t>` reduce to the root's parent followed by `<t>`. */
  lemma DotDotComponents(rootComps: seq<string>, targetComps: seq<string>)
    requires rootComps != [] && AllPlain(rootComps) && AllPlain(targetComps)
    ensures var parts := [""] + rootComps + [".."] + targetComps;
      NormComps(parts, 0, true, []) == rootComps[..|rootComps| - 1] + targetComps
  {
    var n := |rootComps|;
    var parts := [""] + rootComps + [".."] + targetComps;
    assert parts[1..n + 1] == rootComps && parts[n + 1] == ".." && parts[n + 2..] == targetComps;
    PlainRun(parts, 1, n + 1);
    NormCompsPlainRun(parts, 1, n + 1, true, []);
    assert [] + rootComps == rootComps;
    assert Plain(rootComps[n - 1]);
    PlainRun(parts, n + 2, |parts|);
    NormCompsPlain(parts, n + 2, true, rootComps[..n - 1]);
  }

  /** Plain components of a slice are plain components of the whole. */
  lemma PlainRun(parts: seq<string>, lo: nat, hi: nat)
    requires lo <= hi <= |parts| && AllPlain(parts[lo..hi])
    ensures forall k :: lo <= k < hi ==> Plain(parts[k])
  {
    forall k | lo <= k < hi
      ensures Plain(parts[k])
    {
      assert parts[k] == parts[lo..hi][k - lo];
    }
  }

  /** `<root>/../<t>` as one path: a single leading slash, then the pieces joined by "/". */
  lemma DotDotJoined(rootComps: seq<string>, targetComps: seq<string>)
    requires rootComps != [] && AllPlain(rootComps) && targetComps != []
    ensures var joined := PathJoin("/" + Join(rootComps, "/"), "../" + Join(targetComps, "/"));
      joined == Join([""] + rootComps + [".."] + targetComps, "/")
      && StartsWith(joined, "/") && !StartsWith(joined, "//")
  {
    var root := "/" + Join(rootComps, "/");
    var rel := "../" + Join(targetComps, "/");
    JoinEndsWithLast(rootComps);
    assert root[|root| - 1] == Join(rootComps, "/")[|Join(rootComps, "/")| - 1];
    assert !EndsWith(root, "/");
    assert PathJoin(root, rel) == root + "/" + rel;
    JoinOfParts(rootComps, targetComps);
    assert Plain(rootComps[0]);
    JoinStartsWith(rootComps);
    assert rootComps[0][0] in rootComps[0];
    assert (root + "/" + rel)[1] == rootComps[0][0];
  }

  lemma DotDotPieces(rootComps: seq<string>, targetComps: seq<string>)
    requires rootComps != [] && AllPlain(rootComps) && AllPlain(targetComps)
    ensures var parts := [""] + rootComps + [".."] + targetComps;
      SplitOn(Join(parts, "/"), '/') == parts
  {
    var n := |rootComps|;
    var parts := [""] + rootComps + [".."] + targetComps;
    PlainNoSlashes(rootComps);
    PlainNoSlashes(targetComps);
    forall i | 0 <= i < |parts|
      ensures '/' !in parts[i]
    {
      if 1 <= i <= n {
        assert parts[i] == rootComps[i - 1];
      } else if i > n + 1 {
        assert parts[i] == targetComps[i - n - 2];
      }
    }
    SplitJoin(parts);
  }

  /** `<root>/../<t>` resolves to the root's parent followed by `<t>`. */
  lemma DotDotResolves(cwd: string, rootComps: seq<string>, targetComps: seq<string>)
    requires rootComps != [] && AllPlain(rootComps) && targetComps != [] && AllPlain(targetComps)
    ensures var root := "/" + Join(rootComps, "/");
      AbsPath(cwd, PathJoin(root, "../" + Join(targetComps, "/")))
      == "/" + Join(rootComps[..|rootComps| - 1] + targetComps, "/")
  {
    DotDotJoined(rootComps, targetComps);
    DotDotPieces(rootComps, targetComps);
    DotDotComponents(rootComps, targetComps);
    assert Slashes(1) == "/";
  }

  /** A common prefix can be dropped from both sides of `StartsWith`. */
  lemma StartsWithCancel(pre: string, x: string, y: string)
    requires StartsWith(pre + x, pre + y)
    ensures StartsWith(x, y)
  {
    assert x[..|y|] == (pre + x)[|pre|..|pre| + |y|] == (pre + y)[|pre|..];
  }

  /** With a one-component root, the parent is "/" itself. */
  lemma ParentSplitTop(root: string, targetComps: seq<string>)
    requires targetComps != []
    ensures "/" + Join([root][..0] + targetComps, "/") == "/" + Join(targetComps, "/")
    ensures "/" + Join([root], "/") + "/" == "/" + (root + "/")
  {
    assert [root][..0] + targetComps == targetComps;
  }

  /** With a deeper root, the parent is "/", its components and "/"; the root adds its last component. */
  lemma ParentSplitDeep(rootComps: seq<string>, targetComps: seq<string>)
    requires |rootComps| > 1 && targetComps != []
    ensures var n := |rootComps|;
      var pre := "/" + Join(rootComps[..n - 1], "/") + "/";
      "/" + Join(rootComps[..n - 1] + targetComps, "/") == pre + Join(targetComps, "/")
      && "/" + Join(rootComps, "/") + "/" == pre + (rootComps[n - 1] + "/")
  {
    var n := |rootComps|;
    var pj, tj, last := Join(rootComps[..n - 1], "/"), Join(targetComps, "/"), rootComps[n - 1];
    JoinAppend(rootComps[..n - 1], targetComps, "/");
    assert "/" + Join(rootComps[..n - 1] + targetComps, "/") == "/" + (pj + "/" + tj);
    assert "/" + (pj + "/" + tj) == ("/" + pj + "/") + tj;
    JoinLast(rootComps, "/");
    assert "/" + Join(rootComps, "/") + "/" == "/" + (pj + "/" + last) + "/";
    Regroup(pj, last);
  }

  lemma Regroup(a: string, b: string)
    ensures "/" + (a + "/" + b) + "/" == ("/" + a + "/") + (b + "/")
  {
    assert "/" + (a + "/" + b) == "/" + a + "/" + b;
  }

  /** The root's parent followed by `<t>` lies under the root only when `<t>` starts with the root's last component. */
  lemma ParentPathNotUnderRoot(rootComps: seq<string>, targetComps: seq<string>)
    requires rootComps != [] && AllPlain(rootComps) && targetComps != [] && AllPlain(targetComps)
    requires targetComps[0] != rootComps[|rootComps| - 1]
    ensures !StartsWith("/" + Join(rootComps[..|rootComps| - 1] + targetComps, "/"),
                        "/" + Join(rootComps, "/") + "/")
  {
    var n := |rootComps|;
    var last := rootComps[n - 1];
    var pre := if n == 1 then "/" else "/" + Join(rootComps[..n - 1], "/") + "/";
    if n == 1 {
      assert rootComps == [last];
      ParentSplitTop(last, targetComps);
    } else {
      ParentSplitDeep(rootComps, targetComps);
    }
    if StartsWith(pre + Join(targetComps, "/"), pre + (last + "/")) {
      StartsWithCancel(pre, Join(targetComps, "/"), last + "/");
      NotUnderOtherComponent(targetComps, last);
    }
  }

  /**
    A target `../<t>` climbs out of the root to its parent; unless `<t>`
    starts with the root's own last component it resolves outside the root,
    and the guard refuses it.
  */
  lemma DotDotTargetOutsideRoot(cwd: string, rootComps: seq<string>, targetComps: seq<string>)
    requires rootComps != [] && AllPlain(rootComps) && targetComps != [] && AllPlain(targetComps)
    requires targetComps[0] != rootComps[|rootComps| - 1]
    ensures var root := "/" + Join(rootComps, "/");
      !StartsWith(AbsPath(cwd, PathJoin(root, "../" + Join(targetComps, "/"))), root + "/")
  {
    DotDotResolves(cwd, rootComps, targetComps);
    ParentPathNotUnderRoot(rootComps, targetComps);
  }

  lemma JoinOfParts(rootComps: seq<string>, targetComps: seq<string>)
    requires rootComps != [] && targetComps != []
    ensures Join([""] + rootComps + [".."] + targetComps, "/")
            == "/" + Join(rootComps, "/") + "/" + "../" + Join(targetComps, "/")
  {
    var a := [""] + rootComps;
    JoinAppend([""], rootComps, "/");
    assert Join(a, "/") == "/" + Join(rootComps, "/");
    JoinAppend(a, [".."], "/");
    JoinAppend(a + [".."], targetComps, "/");
  }
}

/**
  `make_args_key` (client.py:58-59): a tool call's identity is its name, "::",
  and its arguments serialised as compact JSON (`separators=(',', ':')`,
  `ensure_ascii=False`) with the keys of every object sorted.
*/
module Json {
  import opened Text

  /** A decoded JSON value (floating-point numbers are not modelled). */
  datatype JsonValue =
    | JNull
    | JBool(b: bool)
    | JInt(i: int)
    | JStr(s: string)
    | JArray(items: seq<JsonValue>)
    | JObject(members: seq<(string, JsonValue)>)

  /** A decoded argument object, in the order its keys were read. */
  type Args = seq<(string, JsonValue)>

  // ---------------------------------------------------------------------------
  // Key order: Python compares strings code point by code point.

  predicate LexLess(a: string, b: string)
    decreases |a|
  {
    if a == [] then b != []
    else if b == [] then false
    else if a[0] != b[0] then a[0] < b[0]
    else LexLess(a[1..], b[1..])
  }

  lemma {:induction false} LexLessIrreflexive(a: string)
    ensures !LexLess(a, a)
    decreases |a|
  {
    if a != [] {
      LexLessIrreflexive(a[1..]);
    }
  }

  lemma {:induction false} LexLessAsymmetric(a: string, b: string)
    requires LexLess(a, b)
    ensures !LexLess(b, a)
    decreases |a|
  {
    if a != [] && b != [] && a[0] == b[0] {
      LexLessAsymmetric(a[1..], b[1..]);
    }
  }

  lemma {:induction false} LexLessTransitive(a: string, b: string, c: string)
    requires LexLess(a, b) && LexLess(b, c)
    ensures LexLess(a, c)
    decreases |a|
  {
    if a != [] && b != [] && c != [] && a[0] == b[0] && b[0] == c[0] {
      LexLessTransitive(a[1..], b[1..], c[1..]);
    }
  }

  lemma {:induction false} LexLessTotal(a: string, b: string)
    requires a != b
    ensures LexLess(a, b) || LexLess(b, a)
    decreases |a|
  {
    if a != [] && b != [] && a[0] == b[0] {
      assert a == [a[0]] + a[1..] && b == [b[0]] + b[1..];
      LexLessTotal(a[1..], b[1..]);
    }
  }

  /** "Not greater" is transitive. */
  lemma LexLeqTransitive(a: string, b: string, c: string)
    requires !LexLess(b, a) && !LexLess(c, b)
    ensures !LexLess(c, a)
  {
    if a != b && b != c {
      LexLessTotal(a, b);
      LexLessTotal(b, c);
      LexLessTransitive(a, b, c);
      LexLessAsymmetric(a, c);
    }
  }

  // ---------------------------------------------------------------------------
  // Sorting by key (`sorted(d.items())`; the keys of a dict are distinct).

  predicate SortedByKey<V>(s: seq<(string, V)>) {
    forall i, j :: 0 <= i < j < |s| ==> !LexLess(s[j].0, s[i].0)
  }

  predicate DistinctKeys<V>(s: seq<(string, V)>) {
    forall i, j :: 0 <= i < j < |s| ==> s[i].0 != s[j].0
  }

  function Insert<V(!new)>(x: (string, V), s: seq<(string, V)>): (r: seq<(string, V)>)
    ensures |r| == |s| + 1
    ensures multiset(r) == multiset(s) + multiset{x}
    ensures forall y :: y in r <==> y == x || y in s
  {
    if s == [] || !LexLess(s[0].0, x.0) then [x] + s
    else
      var r := [s[0]] + Insert(x, s[1..]);
      assert s == [s[0]] + s[1..];
      r
  }

  lemma {:induction false} InsertSorted<V(!new)>(x: (string, V), s: seq<(string, V)>)
    requires SortedByKey(s)
    ensures SortedByKey(Insert(x, s))
  {
    if s == [] {
    } else if !LexLess(s[0].0, x.0) {
      forall j | 0 <= j < |s|
        ensures !LexLess(s[j].0, x.0)
      {
        if j > 0 {
          LexLeqTransitive(x.0, s[0].0, s[j].0);
        }
      }
    } else {
      InsertSorted(x, s[1..]);
      var r := Insert(x, s);
      LexLessAsymmetric(s[0].0, x.0);
      forall j | 0 < j < |r|
        ensures !LexLess(r[j].0, r[0].0)
      {
        assert r[j] in Insert(x, s[1..]);
      }
    }
  }

  lemma {:induction false} InsertDistinct<V(!new)>(x: (string, V), s: seq<(string, V)>)
    requires DistinctKeys(s)
    requires forall y :: y in s ==> y.0 != x.0
    ensures DistinctKeys(Insert(x, s))
  {
    if s != [] && LexLess(s[0].0, x.0) {
      InsertDistinct(x, s[1..]);
      var r := Insert(x, s);
      forall j | 0 < j < |r|
        ensures r[j].0 != r[0].0
      {
        assert r[j] in Insert(x, s[1..]);
      }
    }
  }

  /** Insertion sort by key. */
  function SortByKey<V(!new)>(s: seq<(string, V)>): (r: seq<(string, V)>)
    ensures |r| == |s|
    ensures multiset(r) == multiset(s)
    ensures forall y :: y in r <==> y in s
  {
    if s == [] then []
    else
      assert s == [s[0]] + s[1..];
      Insert(s[0], SortByKey(s[1..]))
  }

  lemma {:induction false} SortByKeySorted<V(!new)>(s: seq<(string, V)>)
    ensures SortedByKey(SortByKey(s))
    ensures DistinctKeys(s) ==> DistinctKeys(SortByKey(s))
  {
    if s != [] {
      SortByKeySorted(s[1..]);
      InsertSorted(s[0], SortByKey(s[1..]));
      if DistinctKeys(s) {
        forall y | y in SortByKey(s[1..])
          ensures y.0 != s[0].0
        {
          var k :| 0 <= k < |s[1..]| && s[1..][k] == y;
          assert s[k + 1] == y;
        }
        InsertDistinct(s[0], SortByKey(s[1..]));
      }
    }
  }

  lemma SameMembersEmpty<V>(s1: seq<(string, V)>, s2: seq<(string, V)>)
    requires forall y :: y in s1 <==> y in s2
    ensures s1 == [] <==> s2 == []
  {
    if s1 != [] {
      assert s1[0] in s2;
    }
    if s2 != [] {
      assert s2[0] in s1;
    }
  }

  /** Two key-sorted lists with distinct keys and the same members are equal. */
  lemma {:induction false} SortedUnique<V>(s1: seq<(string, V)>, s2: seq<(string, V)>)
    requires SortedByKey(s1) && SortedByKey(s2) && DistinctKeys(s1) && DistinctKeys(s2)
    requires forall y :: y in s1 <==> y in s2
    ensures s1 == s2
    decreases |s1|
  {
    SameMembersEmpty(s1, s2);
    if s1 != [] {
      SortedHeadsEqual(s1, s2);
      TailMembers(s1, s2);
      SortedTail(s1);
      SortedTail(s2);
      SortedUnique(s1[1..], s2[1..]);
      assert s1 == [s1[0]] + s1[1..] && s2 == [s2[0]] + s2[1..];
    }
  }

  /** Two non-empty key-sorted lists with distinct keys and the same members start alike. */
  lemma SortedHeadsEqual<V>(s1: seq<(string, V)>, s2: seq<(string, V)>)
    requires SortedByKey(s1) && SortedByKey(s2) && DistinctKeys(s1) && DistinctKeys(s2)
    requires forall y :: y in s1 <==> y in s2
    requires s1 != [] && s2 != []
    ensures s1[0] == s2[0]
  {
    assert s1[0] in s2;
    assert s2[0] in s1;
    var j :| 0 <= j < |s2| && s2[j] == s1[0];
    var i :| 0 <= i < |s1| && s1[i] == s2[0];
    if i > 0 {
      LexLessTotal(s1[0].0, s1[i].0);
    }
    assert i == 0 || j == 0;
  }

  /** Removing the same first pair from two lists with distinct keys and the same members leaves the same members. */
  lemma TailMembers<V>(s1: seq<(string, V)>, s2: seq<(string, V)>)
    requires DistinctKeys(s1) && DistinctKeys(s2)
    requires forall y :: y in s1 <==> y in s2
    requires s1 != [] && s2 != [] && s1[0] == s2[0]
    ensures forall y :: y in s1[1..] <==> y in s2[1..]
  {
    forall y
      ensures y in s1[1..] <==> y in s2[1..]
    {
      if y in s1[1..] {
        var k :| 0 <= k < |s1[1..]| && s1[1..][k] == y;
        assert s1[k + 1] == y && y != s1[0];
        assert y in s2;
        var m :| 0 <= m < |s2| && s2[m] == y;
        assert m != 0;
        assert s2[1..][m - 1] == y;
      }
      if y in s2[1..] {
        var k :| 0 <= k < |s2[1..]| && s2[1..][k] == y;
        assert s2[k + 1] == y && y != s2[0];
        assert y in s1;
        var m :| 0 <= m < |s1| && s1[m] == y;
        assert m != 0;
        assert s1[1..][m - 1] == y;
      }
    }
  }

  lemma SortedTail<V>(s: seq<(string, V)>)
    requires s != [] && SortedByKey(s) && DistinctKeys(s)
    ensures SortedByKey(s[1..]) && DistinctKeys(s[1..])
  {
    forall i, j | 0 <= i < j < |s[1..]|
      ensures !LexLess(s[1..][j].0, s[1..][i].0) && s[1..][i].0 != s[1..][j].0
    {
      assert s[1..][i] == s[i + 1] && s[1..][j] == s[j + 1];
    }
  }

  // ---------------------------------------------------------------------------
  // Serialisation (`json.dumps(v, sort_keys=True, ensure_ascii=False, separators=(',', ':'))`).

  function HexDigit(d: nat): char
    requires d < 16
  {
    if d < 10 then ('0' as int + d) as char else ('a' as int + d - 10) as char
  }

  /** How the encoder writes one character inside a string literal. */
  function EscapeChar(c: char): string {
    if c == '"' then "\\\""
    else if c == '\\' then "\\\\"
    else if c == '\n' then "\\n"
    else if c == '\r' then "\\r"
    else if c == '\t' then "\\t"
    else if c == '\U{8}' then "\\b"
    else if c == '\U{c}' then "\\f"
    else if c < ' ' then "\\u00" + [HexDigit(c as int / 16), HexDigit(c as int % 16)]
    else [c]
  }

  function Quote(s: string): string {
    "\"" + Concat(seq(|s|, i requires 0 <= i < |s| => EscapeChar(s[i]))) + "\""
  }

  function Serialize(v: JsonValue): string
    decreases v, 1
  {
    match v
    case JNull => "null"
    case JBool(b) => if b then "true" else "false"
    case JInt(i) => IntToString(i)
    case JStr(s) => Quote(s)
    case JArray(items) =>
      "[" + Join(seq(|items|, k requires 0 <= k < |items| => Serialize(items[k])), ",") + "]"
    case JObject(_) => RenderObject(SortByKey(MemberTexts(v)))
  }

  /** Each member's key with its serialised value, in the object's own order. */
  function MemberTexts(v: JsonValue): (r: seq<(string, string)>)
    requires v.JObject?
    ensures |r| == |v.members|
    ensures forall k :: 0 <= k < |r| ==> r[k].0 == v.members[k].0
    decreases v, 0
  {
    seq(|v.members|, k requires 0 <= k < |v.members| => (v.members[k].0, Serialize(v.members[k].1)))
  }

  function RenderObject(texts: seq<(string, string)>): string {
    "{" + Join(seq(|texts|, k requires 0 <= k < |texts| => Quote(texts[k].0) + ":" + texts[k].1), ",") + "}"
  }

  /** `make_args_key(tool_name, tool_args)` */
  function ArgsKey(toolName: string, args: Args): string {
    toolName + "::" + Serialize(JObject(args))
  }

  /**
    Two decoded values that Python holds as equal: arrays equal element by
    element, and objects (whose keys are distinct, as in a `dict`) holding
    the same keys with values equal in this sense, in whatever order.
  */
  predicate SameUpToOrder(v: JsonValue, w: JsonValue)
    decreases v, 1
  {
    if v.JArray? then
      w.JArray? && |w.items| == |v.items|
      && forall k :: 0 <= k < |v.items| ==> SameUpToOrder(v.items[k], w.items[k])
    else if v.JObject? then
      w.JObject? && DistinctKeys(v.members) && DistinctKeys(w.members)
      && (forall i :: 0 <= i < |v.members| ==> HasMatch(v, w, i))
      && (forall j :: 0 <= j < |w.members| ==> KeyAmong(w.members[j].0, v.members))
    else v == w
  }

  /** Member `i` of object `v` has a member of `w` with its key and a value equal up to order. */
  predicate HasMatch(v: JsonValue, w: JsonValue, i: nat)
    requires v.JObject? && w.JObject? && i < |v.members|
    decreases v, 0
  {
    exists j :: 0 <= j < |w.members| && w.members[j].0 == v.members[i].0
                && SameUpToOrder(v.members[i].1, w.members[j].1)
  }

  predicate KeyAmong(key: string, ms: seq<(string, JsonValue)>) {
    exists i :: 0 <= i < |ms| && ms[i].0 == key
  }

  /** Values equal up to member order, at every depth, serialise alike. */
  lemma SerializeUpToOrder(v: JsonValue, w: JsonValue)
    requires SameUpToOrder(v, w)
    ensures Serialize(v) == Serialize(w)
    decreases v, 2
  {
    if v.JArray? {
      ArraysSerializeAlike(v, w);
    } else if v.JObject? {
      ObjectsSerializeAlike(v, w);
    }
  }

  lemma ArraysSerializeAlike(v: JsonValue, w: JsonValue)
    requires v.JArray? && SameUpToOrder(v, w)
    ensures Serialize(v) == Serialize(w)
    decreases v, 1
  {
    var items := v.items;
    var s1 := seq(|items|, k requires 0 <= k < |items| => Serialize(items[k]));
    var s2 := seq(|w.items|, k requires 0 <= k < |w.items| => Serialize(w.items[k]));
    forall k | 0 <= k < |items|
      ensures s1[k] == s2[k]
    {
      SerializeUpToOrder(items[k], w.items[k]);
    }
    assert s1 == s2;
  }

  lemma ObjectsSerializeAlike(v: JsonValue, w: JsonValue)
    requires v.JObject? && SameUpToOrder(v, w)
    ensures Serialize(v) == Serialize(w)
    decreases v, 1
  {
    var t1, t2 := MemberTexts(v), MemberTexts(w);
    forall y
      ensures y in t1 <==> y in t2
    {
      if y in t1 {
        var i :| 0 <= i < |t1| && t1[i] == y;
        MemberTextFound(v, w, i);
      }
      if y in t2 {
        var j :| 0 <= j < |t2| && t2[j] == y;
        MemberTextFoundBack(v, w, j);
      }
    }
    SortByKeySorted(t1);
    SortByKeySorted(t2);
    SortedUnique(SortByKey(t1), SortByKey(t2));
  }

  lemma MemberTextFound(v: JsonValue, w: JsonValue, i: nat)
    requires v.JObject? && SameUpToOrder(v, w) && i < |v.members|
    ensures MemberTexts(v)[i] in MemberTexts(w)
    decreases v, 0
  {
    var ms := v.members;
    assert HasMatch(v, w, i);
    var j :| 0 <= j < |w.members| && w.members[j].0 == ms[i].0 && SameUpToOrder(ms[i].1, w.members[j].1);
    SerializeUpToOrder(ms[i].1, w.members[j].1);
    assert MemberTexts(w)[j] == MemberTexts(v)[i];
  }

  lemma MemberTextFoundBack(v: JsonValue, w: JsonValue, j: nat)
    requires v.JObject? && SameUpToOrder(v, w) && j < |w.members|
    ensures MemberTexts(w)[j] in MemberTexts(v)
    decreases v, 0
  {
    var ms := v.members;
    assert KeyAmong(w.members[j].0, ms);
    var i :| 0 <= i < |ms| && ms[i].0 == w.members[j].0;
    assert HasMatch(v, w, i);
    var j' :| 0 <= j' < |w.members| && w.members[j'].0 == ms[i].0 && SameUpToOrder(ms[i].1, w.members[j'].1);
    assert j' == j;
    SerializeUpToOrder(ms[i].1, w.members[j].1);
    assert MemberTexts(v)[i] == MemberTexts(w)[j];
  }

  /**
    Argument objects that Python decodes to equal dicts give the same key,
    whatever order the model wrote the members in, at any depth.
  */
  lemma ArgsKeyOrderIndependent(toolName: string, a1: Args, a2: Args)
    requires SameUpToOrder(JObject(a1), JObject(a2))
    ensures ArgsKey(toolName, a1) == ArgsKey(toolName, a2)
  {
    SerializeUpToOrder(JObject(a1), JObject(a2));
  }

  /** The empty argument object (also what undecodable arguments become). */
  lemma EmptyArgsKey(toolName: string)
    ensures ArgsKey(toolName, []) == toolName + "::{}"
  {
    assert MemberTexts(JObject([])) == [];
  }
}

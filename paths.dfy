/** '/'-separated URL paths: joining segments and splitting them back. */
module Paths {

  predicate NoSlash(s: string) {
    '/' !in s
  }

  /** The segments with a '/' between each two neighbours. */
  function JoinPath(segs: seq<string>): string {
    if |segs| == 0 then ""
    else if |segs| == 1 then segs[0]
    else segs[0] + "/" + JoinPath(segs[1..])
  }

  /** The pieces of `s` between its '/' characters. */
  function SplitPath(s: string): (r: seq<string>)
    ensures |r| >= 1
    ensures NoSlash(r[0])
  {
    if s == [] then [""]
    else
      var rest := SplitPath(s[1..]);
      if s[0] == '/' then [""] + rest else [[s[0]] + rest[0]] + rest[1..]
  }

  lemma {:induction false} SplitWithoutSlash(s: string)
    requires NoSlash(s)
    ensures SplitPath(s) == [s]
  {
    if s != [] {
      assert NoSlash(s[1..]) by { assert forall i :: 0 <= i < |s[1..]| ==> s[1..][i] == s[i + 1]; }
      SplitWithoutSlash(s[1..]);
      assert [s[0]] + s[1..] == s;
    }
  }

  lemma {:induction false} SplitAtSlash(a: string, b: string)
    requires NoSlash(a)
    ensures SplitPath(a + "/" + b) == [a] + SplitPath(b)
  {
    var s := a + "/" + b;
    if a == [] {
      assert s == "/" + b;
      assert s[1..] == b;
    } else {
      assert s[0] == a[0] && a[0] != '/';
      assert s[1..] == a[1..] + "/" + b;
      assert NoSlash(a[1..]) by { assert forall i :: 0 <= i < |a[1..]| ==> a[1..][i] == a[i + 1]; }
      SplitAtSlash(a[1..], b);
      assert [a[0]] + a[1..] == a;
    }
  }

  /** Splitting undoes joining, so a path determines its segments. */
  lemma {:induction false} SplitJoin(segs: seq<string>)
    requires |segs| >= 1
    requires forall i :: 0 <= i < |segs| ==> NoSlash(segs[i])
    ensures SplitPath(JoinPath(segs)) == segs
  {
    if |segs| == 1 {
      SplitWithoutSlash(segs[0]);
    } else {
      SplitAtSlash(segs[0], JoinPath(segs[1..]));
      SplitJoin(segs[1..]);
      assert [segs[0]] + segs[1..] == segs;
    }
  }
}

/**
 * The three string operations the weight loader relies on, written out with Python's
 * meaning: `str.replace(p, '')`, `str.strip(chars)` and POSIX `os.path.join` of two parts.
 */
module Text {

  predicate IsPrefix(p: string, s: string) {
    |p| <= |s| && s[..|p|] == p
  }

  predicate IsSuffix(p: string, s: string) {
    |p| <= |s| && s[|s| - |p|..] == p
  }

  /** `p in s` in Python: `p` occurs somewhere in `s`. */
  predicate Contains(s: string, p: string)
    ensures Contains(s, p) ==> |p| <= |s|
    decreases |s|
  {
    IsPrefix(p, s) || (|s| > 0 && Contains(s[1..], p))
  }

  /**
   * `s.replace(p, '')`: scanning from the left, every non-overlapping occurrence of `p`
   * is cut out. The result is `s` itself exactly when `p` does not occur in `s`.
   */
  function RemoveAll(s: string, p: string): (r: string)
    requires |p| > 0
    ensures |r| <= |s|
    ensures r == s <==> !Contains(s, p)
    decreases |s|
  {
    if |s| < |p| then s
    else if s[..|p|] == p then RemoveAll(s[|p|..], p)
    else [s[0]] + RemoveAll(s[1..], p)
  }

  /** A leading occurrence of `p` is dropped and the rest is scanned as if it stood alone. */
  lemma RemoveAllLeading(p: string, s: string)
    requires |p| > 0
    ensures RemoveAll(p + s, p) == RemoveAll(s, p)
  {
    assert (p + s)[..|p|] == p;
    assert (p + s)[|p|..] == s;
  }

  /** The characters of a `strip` argument, which Python treats as a set. */
  function CharSet(chars: string): set<char> {
    set c | c in chars
  }

  /** `lstrip`: the longest prefix made of characters of `cs` is removed. */
  function StripLeft(s: string, cs: set<char>): (r: string)
    ensures |r| <= |s| && r == s[|s| - |r|..]
    ensures forall i :: 0 <= i < |s| - |r| ==> s[i] in cs
    ensures |r| > 0 ==> r[0] !in cs
    decreases |s|
  {
    if |s| > 0 && s[0] in cs then
      var r := StripLeft(s[1..], cs);
      assert s[1..][|s| - 1 - |r|..] == s[|s| - |r|..];
      assert forall i :: 1 <= i < |s| ==> s[i] == s[1..][i - 1];
      r
    else s
  }

  /** `rstrip`: the longest suffix made of characters of `cs` is removed. */
  function StripRight(s: string, cs: set<char>): (r: string)
    ensures |r| <= |s| && r == s[..|r|]
    ensures forall i :: |r| <= i < |s| ==> s[i] in cs
    ensures |r| > 0 ==> r[|r| - 1] !in cs
    decreases |s|
  {
    if |s| > 0 && s[|s| - 1] in cs then
      var r := StripRight(s[..|s| - 1], cs);
      assert s[..|s| - 1][..|r|] == s[..|r|];
      r
    else s
  }

  /** `s.strip(chars)`: characters of `chars` are removed from both ends, never from the middle. */
  function Strip(s: string, chars: string): (r: string)
    ensures |r| <= |s|
    ensures |r| > 0 ==> r[0] !in CharSet(chars) && r[|r| - 1] !in CharSet(chars)
  {
    var left := StripLeft(s, CharSet(chars));
    var r := StripRight(left, CharSet(chars));
    assert |r| > 0 ==> r[0] == left[0];
    r
  }

  predicate IsDigit(c: char) {
    '0' <= c <= '9'
  }

  predicate AllDigits(s: string) {
    forall i :: 0 <= i < |s| ==> IsDigit(s[i])
  }

  /** A prefix made only of strip characters goes, and stripping stops at the first other character. */
  lemma {:induction false} StripLeftPrefix(p: string, rest: string, cs: set<char>)
    requires forall i :: 0 <= i < |p| ==> p[i] in cs
    requires |rest| > 0 && rest[0] !in cs
    ensures StripLeft(p + rest, cs) == rest
    decreases |p|
  {
    if |p| == 0 {
      assert p + rest == rest;
    } else {
      assert (p + rest)[0] == p[0];
      assert (p + rest)[1..] == p[1..] + rest;
      StripLeftPrefix(p[1..], rest, cs);
    }
  }

  /**
   * Stripping the characters of "resnet" from "resnet" followed by a non-empty run of
   * digits leaves exactly the digits: only {r, e, s, n, t} are removed, and only at the ends.
   */
  lemma StripVersionDigits(ds: string)
    requires |ds| > 0 && AllDigits(ds)
    ensures Strip("resnet" + ds, "resnet") == ds
  {
    var cs := CharSet("resnet");
    assert forall i :: 0 <= i < 6 ==> "resnet"[i] in cs;
    assert forall c :: c in cs ==> !IsDigit(c);
    StripLeftPrefix("resnet", ds, cs);
    assert ds[|ds| - 1] !in cs;
  }

  /**
   * `os.path.join(dir, name)` on POSIX: an absolute `name` replaces `dir`; otherwise
   * `name` is appended, with one '/' between unless `dir` is empty or already ends in '/'.
   */
  function JoinPath(dir: string, name: string): (r: string)
    ensures |name| > 0 && name[0] == '/' ==> r == name
    ensures !(|name| > 0 && name[0] == '/') ==> IsPrefix(dir, r) && IsSuffix(name, r)
    ensures !(|name| > 0 && name[0] == '/') ==> |r| == |dir| + |name| || |r| == |dir| + |name| + 1
  {
    if |name| > 0 && name[0] == '/' then name
    else if dir == "" || dir[|dir| - 1] == '/' then dir + name
    else dir + "/" + name
  }
}

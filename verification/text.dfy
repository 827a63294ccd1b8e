/** Character classes and prefix tests on source lines. Lines are `string`s
    without their line terminator. */
module Text {
  import opened Results

  /** Dart identifier characters: ASCII letters, digits, `_` and `$`. */
  predicate IsIdentChar(c: char) {
    ('a' <= c <= 'z') || ('A' <= c <= 'Z') || ('0' <= c <= '9') || c == '_' || c == '$'
  }

  /** A non-empty run of identifier characters. */
  predicate IsIdent(s: string) {
    |s| > 0 && forall i :: 0 <= i < |s| ==> IsIdentChar(s[i])
  }

  predicate StartsWith(s: string, prefix: string) {
    |prefix| <= |s| && s[..|prefix|] == prefix
  }

  /** A replacement line as the patch engine receives it: content plus "\n". */
  function Terminated(s: string): string {
    s + "\n"
  }

  /** Length of the longest prefix of `s` made of identifier characters. */
  function IdentPrefixLength(s: string): (n: nat)
    ensures n <= |s|
    ensures forall i :: 0 <= i < n ==> IsIdentChar(s[i])
    ensures n < |s| ==> !IsIdentChar(s[n])
  {
    if |s| == 0 || !IsIdentChar(s[0]) then 0 else 1 + IdentPrefixLength(s[1..])
  }

  /** The maximal identifier run of `a + b` is exactly `a` when `a` is an
      identifier and `b` starts with a non-identifier character. */
  lemma IdentPrefixOfConcat(a: string, b: string)
    requires IsIdent(a)
    requires |b| > 0 && !IsIdentChar(b[0])
    ensures IdentPrefixLength(a + b) == |a|
  {
    var s := a + b;
    assert s[|a|] == b[0];
    assert forall i :: 0 <= i < |a| ==> s[i] == a[i];
  }

  /** The rest of `s` after `prefix`, if `s` starts with it. */
  function AfterPrefix(s: string, prefix: string): (r: Option<string>)
    ensures r.Some? <==> StartsWith(s, prefix)
    ensures r.Some? ==> s == prefix + r.value
  {
    if StartsWith(s, prefix) then
      assert s == s[..|prefix|] + s[|prefix|..];
      Some(s[|prefix|..])
    else None
  }

  lemma AfterPrefixOfConcat(prefix: string, rest: string)
    ensures AfterPrefix(prefix + rest, prefix) == Some(rest)
  {
    assert (prefix + rest)[..|prefix|] == prefix;
  }

  /** Splits off the maximal leading identifier, if there is one. */
  function SplitIdent(s: string): (r: Option<(string, string)>)
    ensures r.Some? ==> IsIdent(r.value.0) && s == r.value.0 + r.value.1
    ensures r.Some? ==> |r.value.1| == 0 || !IsIdentChar(r.value.1[0])
    ensures r.None? ==> |s| == 0 || !IsIdentChar(s[0])
  {
    var n := IdentPrefixLength(s);
    if n == 0 then None
    else
      assert s == s[..n] + s[n..];
      Some((s[..n], s[n..]))
  }

  lemma SplitIdentOfConcat(a: string, b: string)
    requires IsIdent(a)
    requires |b| > 0 && !IsIdentChar(b[0])
    ensures SplitIdent(a + b) == Some((a, b))
  {
    IdentPrefixOfConcat(a, b);
    assert (a + b)[..|a|] == a;
    assert (a + b)[|a|..] == b;
  }
}

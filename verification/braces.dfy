/** Shallow body-extent resolution: characters are classified only as `{`,
    `}` or other, and the body of a class ends at the first point where the
    running brace depth, counted from the header's opening brace, returns to
    zero. Braces inside strings or comments are counted like any other. */
module Braces {
  /** Contribution of one character to the brace depth. */
  function Delta(c: char): int {
    if c == '{' then 1 else if c == '}' then -1 else 0
  }

  /** Net change of brace depth across a string. */
  function Net(s: string): int {
    if |s| == 0 then 0 else Delta(s[0]) + Net(s[1..])
  }

  /** Net change of brace depth across consecutive lines. */
  function NetLines(lines: seq<string>): int {
    if |lines| == 0 then 0 else Net(lines[0]) + NetLines(lines[1..])
  }

  /** Entered with depth `d`, the running depth stays positive after every
      character of `s`: no brace closes the body on this line. */
  ghost predicate StaysOpen(s: string, d: int) {
    d > 0 && forall k :: 0 < k <= |s| ==> d + Net(s[..k]) > 0
  }

  function Min(a: int, b: int): int {
    if a <= b then a else b
  }

  /** The lowest running depth change across `s`, counting the start (so it
      is never positive): a line entered at depth `d > 0` closes the body
      exactly when `d + Low(s) <= 0`. */
  function Low(s: string): (m: int)
    ensures m <= 0 && m <= Net(s)
  {
    if |s| == 0 then 0 else Min(0, Delta(s[0]) + Low(s[1..]))
  }

  lemma NetOfPrefix(s: string, k: nat)
    requires 0 < k <= |s|
    ensures Net(s[..k]) == Delta(s[0]) + Net(s[1..][..k - 1])
  {
    assert s[..k][1..] == s[1..][..k - 1];
  }

  /** The lowest depth decides whether a line keeps the body open. */
  lemma {:induction false} LowDecidesOpen(s: string, d: int)
    ensures StaysOpen(s, d) <==> d + Low(s) > 0
    decreases |s|
  {
    if d > 0 && |s| > 0 {
      var e := d + Delta(s[0]);
      assert forall k :: 0 < k <= |s| ==> Net(s[..k]) == Delta(s[0]) + Net(s[1..][..k - 1]) by {
        forall k | 0 < k <= |s| { NetOfPrefix(s, k); }
      }
      if e > 0 {
        LowDecidesOpen(s[1..], e);
        if StaysOpen(s[1..], e) {
          forall k | 0 < k <= |s| ensures d + Net(s[..k]) > 0 {
            if k > 1 { assert e + Net(s[1..][..k - 1]) > 0; }
          }
        } else {
          var k :| 0 < k <= |s[1..]| && e + Net(s[1..][..k]) <= 0;
          assert d + Net(s[..k + 1]) <= 0;
        }
      } else {
        assert d + Net(s[..1]) <= 0 by { assert s[..1][1..] == []; }
      }
    }
  }

  lemma {:induction false} NetConcat(a: string, b: string)
    ensures Net(a + b) == Net(a) + Net(b)
  {
    if |a| > 0 {
      assert (a + b)[1..] == a[1..] + b;
      NetConcat(a[1..], b);
    } else {
      assert a + b == b;
    }
  }

  lemma {:induction false} LowConcat(a: string, b: string)
    ensures Low(a + b) == Min(Low(a), Net(a) + Low(b))
  {
    if |a| > 0 {
      assert (a + b)[1..] == a[1..] + b;
      LowConcat(a[1..], b);
    } else {
      assert a + b == b;
    }
  }

  /** No brace in `s`. */
  predicate BraceFree(s: string) {
    forall i :: 0 <= i < |s| ==> s[i] != '{' && s[i] != '}'
  }

  /** A line without braces neither moves nor dips the depth. */
  lemma {:induction false} BraceFreeNeutral(s: string)
    requires BraceFree(s)
    ensures Net(s) == 0 && Low(s) == 0
    decreases |s|
  {
    if |s| > 0 {
      assert s[0] != '{' && s[0] != '}';
      assert BraceFree(s[1..]) by {
        forall i | 0 <= i < |s[1..]| ensures s[1..][i] != '{' && s[1..][i] != '}' {
          assert s[1..][i] == s[i + 1];
        }
      }
      BraceFreeNeutral(s[1..]);
    }
  }

  /** Replacing a brace-free middle part by another keeps the depth profile:
      the same net change and the same lowest depth. */
  lemma SwapBraceFree(a: string, m1: string, m2: string, b: string)
    requires BraceFree(m1) && BraceFree(m2)
    ensures Net(a + m1 + b) == Net(a + m2 + b)
    ensures Low(a + m1 + b) == Low(a + m2 + b)
  {
    BraceFreeNeutral(m1);
    BraceFreeNeutral(m2);
    NetConcat(a, m1);
    NetConcat(a, m2);
    NetConcat(a + m1, b);
    NetConcat(a + m2, b);
    LowConcat(a, m1);
    LowConcat(a, m2);
    LowConcat(a + m1, b);
    LowConcat(a + m2, b);
  }
}

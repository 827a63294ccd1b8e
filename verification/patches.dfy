/** The patch records both suggestors emit, in the coordinates the codemod
    library uses: 0-based line indices with an exclusive end, so a patch
    with `startLine == endLine` is a pure insertion before that line. */
module Patches {
  import opened Text

  /** Lines `[startLine, endLine)` are replaced by `newLines`, each of which
      carries its "\n" terminator. */
  datatype Patch = Patch(startLine: nat, endLine: nat, newLines: seq<string>)

  /** The range lies within a file of `n` lines (an insertion may sit just
      after the last line). */
  predicate InFile(p: Patch, n: nat) {
    p.startLine <= p.endLine <= n
  }

  /** Patches in file order whose ranges do not overlap. */
  predicate Sequential(ps: seq<Patch>) {
    forall a, b :: 0 <= a < b < |ps| ==> ps[a].endLine <= ps[b].startLine
  }

  /** Every line of `ls` with its terminator. */
  function TerminateAll(ls: seq<string>): (r: seq<string>)
    ensures |r| == |ls|
    ensures forall k :: 0 <= k < |ls| ==> r[k] == Terminated(ls[k])
  {
    if |ls| == 0 then [] else [Terminated(ls[0])] + TerminateAll(ls[1..])
  }

  /** A replacement line without its terminator. */
  function Content(s: string): (r: string)
    ensures |s| > 0 && s[|s| - 1] == '\n' ==> s == Terminated(r)
    ensures !(|s| > 0 && s[|s| - 1] == '\n') ==> r == s
  {
    if |s| > 0 && s[|s| - 1] == '\n' then s[..|s| - 1] else s
  }

  lemma ContentOfTerminated(s: string)
    ensures Content(Terminated(s)) == s
  {
    assert Terminated(s)[..|s|] == s;
  }

  /** The file after one patch: its range replaced by its lines' contents. */
  function Replace(lines: seq<string>, p: Patch): (r: seq<string>)
    requires InFile(p, |lines|)
    ensures |r| == |lines| - (p.endLine - p.startLine) + |p.newLines|
  {
    lines[..p.startLine] + Contents(p.newLines) + lines[p.endLine..]
  }

  function Contents(ls: seq<string>): (r: seq<string>)
    ensures |r| == |ls|
    ensures forall k :: 0 <= k < |ls| ==> r[k] == Content(ls[k])
  {
    if |ls| == 0 then [] else [Content(ls[0])] + Contents(ls[1..])
  }

  /** Rewrites: patches that each replace exactly as many lines as they
      cover, so applying one leaves every other line number valid. */
  predicate Rewrites(ps: seq<Patch>, n: nat) {
    forall k :: 0 <= k < |ps| ==> InFile(ps[k], n) && |ps[k].newLines| == ps[k].endLine - ps[k].startLine
  }

  /** Applies sequential rewrites first to last. The patch engine applies
      patches last first to keep earlier line numbers valid; for rewrites
      the two orders agree (`RewritesAreEngineOrder`). */
  function ApplyRewrites(lines: seq<string>, ps: seq<Patch>): (r: seq<string>)
    requires Sequential(ps) && Rewrites(ps, |lines|)
    ensures |r| == |lines|
    decreases |ps|
  {
    if |ps| == 0 then lines
    else ApplyRewrites(Replace(lines, ps[0]), ps[1..])
  }

  /** A rewrite placed before sequential rewrites keeps them sequential. */
  lemma ConsSequential(p: Patch, ps: seq<Patch>, n: nat, i: nat)
    requires Sequential(ps) && Rewrites(ps, n)
    requires Rewrites([p], n) && i <= p.startLine
    requires forall k :: 0 <= k < |ps| ==> p.endLine <= ps[k].startLine
    ensures Sequential([p] + ps) && Rewrites([p] + ps, n)
    ensures forall k :: 0 <= k < |[p] + ps| ==> i <= ([p] + ps)[k].startLine
  {
    var qs := [p] + ps;
    assert [p][0] == p;
    assert p.startLine <= p.endLine;
    assert forall k :: 0 < k < |qs| ==> qs[k] == ps[k - 1];
  }

  /** Applying rewrites first to last: the first one, then the rest. */
  lemma ApplyRewritesCons(lines: seq<string>, p: Patch, ps: seq<Patch>)
    requires InFile(p, |lines|) && |p.newLines| == p.endLine - p.startLine
    requires Sequential([p] + ps) && Rewrites([p] + ps, |lines|)
    ensures Sequential(ps) && Rewrites(ps, |Replace(lines, p)|)
    ensures ApplyRewrites(lines, [p] + ps) == ApplyRewrites(Replace(lines, p), ps)
  {
    var qs := [p] + ps;
    assert qs[0] == p && qs[1..] == ps;
    assert forall k :: 0 <= k < |ps| ==> ps[k] == qs[k + 1];
  }

  /** Applies patches as the patch engine does: last first, so that the
      line numbers of the earlier ones still refer to the original file. */
  function ApplyAll(lines: seq<string>, ps: seq<Patch>): (r: seq<string>)
    requires Sequential(ps)
    requires forall k :: 0 <= k < |ps| ==> InFile(ps[k], |lines|)
    decreases |ps|
  {
    if |ps| == 0 then lines
    else
      var q := ps[|ps| - 1];
      var init := ps[..|ps| - 1];
      assert InFile(q, |lines|);
      assert forall k :: 0 <= k < |init| ==> init[k] == ps[k] && ps[k].endLine <= q.startLine;
      var r := Replace(lines, q);
      assert q.startLine <= |r|;
      forall k | 0 <= k < |init|
        ensures InFile(init[k], |r|)
      {
        assert InFile(ps[k], |lines|);
      }
      ApplyAll(r, init)
  }

  /** Line `t`, which read `x`, once sequential patches are applied: the
      content the first patch covering `t` puts there, or `x` if none does. */
  function RewrittenLine(x: string, ps: seq<Patch>, t: nat): string
    requires forall k :: 0 <= k < |ps| ==> |ps[k].newLines| == ps[k].endLine - ps[k].startLine
  {
    if |ps| == 0 then x
    else if ps[0].startLine <= t < ps[0].endLine then Content(ps[0].newLines[t - ps[0].startLine])
    else RewrittenLine(x, ps[1..], t)
  }

  /** A rewrite changes only the lines it covers. */
  lemma ReplaceRewrite(lines: seq<string>, p: Patch, t: nat)
    requires InFile(p, |lines|) && |p.newLines| == p.endLine - p.startLine && t < |lines|
    ensures |Replace(lines, p)| == |lines|
    ensures Replace(lines, p)[t] ==
      if p.startLine <= t < p.endLine then Content(p.newLines[t - p.startLine]) else lines[t]
  {
  }

  /** A line no patch covers keeps what it read. */
  lemma {:induction false} RewrittenUncovered(x: string, ps: seq<Patch>, t: nat)
    requires forall k :: 0 <= k < |ps| ==> |ps[k].newLines| == ps[k].endLine - ps[k].startLine
    requires forall k :: 0 <= k < |ps| ==> !(ps[k].startLine <= t < ps[k].endLine)
    ensures RewrittenLine(x, ps, t) == x
    decreases |ps|
  {
    if |ps| > 0 {
      assert !(ps[0].startLine <= t < ps[0].endLine);
      assert forall k :: 0 <= k < |ps[1..]| ==> ps[1..][k] == ps[k + 1];
      RewrittenUncovered(x, ps[1..], t);
    }
  }

  /** Applying rewrites first to last puts on every line what the one patch
      covering it puts there. */
  lemma {:induction false} ApplyRewritesAt(lines: seq<string>, ps: seq<Patch>, t: nat)
    requires Sequential(ps) && Rewrites(ps, |lines|) && t < |lines|
    ensures ApplyRewrites(lines, ps)[t] == RewrittenLine(lines[t], ps, t)
    decreases |ps|
  {
    if |ps| > 0 {
      var L1 := Replace(lines, ps[0]);
      var rest := ps[1..];
      assert forall k :: 0 <= k < |rest| ==> rest[k] == ps[k + 1];
      ReplaceRewrite(lines, ps[0], t);
      ApplyRewritesAt(L1, rest, t);
      if ps[0].startLine <= t < ps[0].endLine {
        forall k | 0 <= k < |rest|
          ensures !(rest[k].startLine <= t < rest[k].endLine)
        {
          assert ps[0].endLine <= ps[k + 1].startLine;
        }
        RewrittenUncovered(L1[t], rest, t);
      }
    }
  }

  /** The line a patch list ending in `q` puts at `t`: `q` goes last, so it
      counts only where no earlier patch covers `t`. */
  lemma {:induction false} RewrittenSnoc(x: string, init: seq<Patch>, q: Patch, t: nat)
    requires forall k :: 0 <= k < |init| ==> |init[k].newLines| == init[k].endLine - init[k].startLine
    requires |q.newLines| == q.endLine - q.startLine
    ensures RewrittenLine(x, init + [q], t) ==
      RewrittenLine(if q.startLine <= t < q.endLine then Content(q.newLines[t - q.startLine]) else x, init, t)
    decreases |init|
  {
    var ps := init + [q];
    if |init| == 0 {
      assert ps == [q];
    } else {
      assert ps[0] == init[0] && ps[1..] == init[1..] + [q];
      RewrittenSnoc(x, init[1..], q, t);
    }
  }

  /** The patch engine's last-first application of rewrites keeps the
      length and puts on every line what the one patch covering it puts
      there. */
  lemma {:induction false} ApplyAllAt(lines: seq<string>, ps: seq<Patch>)
    requires Sequential(ps) && Rewrites(ps, |lines|)
    ensures |ApplyAll(lines, ps)| == |lines|
    ensures forall t :: 0 <= t < |lines| ==> ApplyAll(lines, ps)[t] == RewrittenLine(lines[t], ps, t)
    decreases |ps|
  {
    if |ps| > 0 {
      var q, init := ps[|ps| - 1], ps[..|ps| - 1];
      var r := Replace(lines, q);
      assert forall k :: 0 <= k < |init| ==> init[k] == ps[k];
      assert ps == init + [q];
      ApplyAllAt(r, init);
      forall t | 0 <= t < |lines|
        ensures ApplyAll(lines, ps)[t] == RewrittenLine(lines[t], ps, t)
      {
        ReplaceRewrite(lines, q, t);
        RewrittenSnoc(lines[t], init, q, t);
      }
    }
  }

  /** Rewrites shift no line, so applying them first to last gives the file
      the patch engine's last-first order gives. */
  lemma RewritesAreEngineOrder(lines: seq<string>, ps: seq<Patch>)
    requires Sequential(ps) && Rewrites(ps, |lines|)
    ensures ApplyRewrites(lines, ps) == ApplyAll(lines, ps)
  {
    ApplyAllAt(lines, ps);
    forall t | 0 <= t < |lines|
      ensures ApplyRewrites(lines, ps)[t] == ApplyAll(lines, ps)[t]
    {
      ApplyRewritesAt(lines, ps, t);
    }
  }

  /** An insertion keeps the lines before it, puts the contents of its lines
      next, and shifts the rest down by as many lines. */
  lemma InsertLines(lines: seq<string>, p: Patch)
    requires p.startLine == p.endLine <= |lines|
    ensures |Replace(lines, p)| == |lines| + |p.newLines|
    ensures forall t :: 0 <= t < p.startLine ==> Replace(lines, p)[t] == lines[t]
    ensures forall k :: 0 <= k < |p.newLines| ==> Replace(lines, p)[p.startLine + k] == Content(p.newLines[k])
    ensures forall t :: p.startLine <= t < |lines| ==> Replace(lines, p)[t + |p.newLines|] == lines[t]
  {
  }
}

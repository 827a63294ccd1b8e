/** The scanner looks at a header's identifier only to report it: two files
    whose lines agree in everything else are scanned to declarations at the
    same lines. This is what makes a rename invisible to a second scan. */
module ScanCongruence {
  import opened Results
  import opened Headers
  import opened Braces
  import opened LineInfos
  import opened Scanner

  /** Two headers that differ at most in their identifier. */
  predicate SameShape(h1: Header, h2: Header) {
    h1.isAbstract == h2.isAbstract && h1.base == h2.base && h1.tail == h2.tail
  }

  /** Two line classifications that differ at most in a header's
      identifier. */
  predicate Alike(a: LineInfo, b: LineInfo) {
    && a.trigger == b.trigger && a.isAnnotation == b.isAnnotation
    && a.net == b.net && a.low == b.low
    && a.header.Some? == b.header.Some?
    && (a.header.Some? ==> SameShape(a.header.value, b.header.value))
    && (a.header.Some? ==> a.bodyNet == b.bodyNet && a.bodyLow == b.bodyLow)
  }

  predicate AllAlike(A: seq<LineInfo>, B: seq<LineInfo>) {
    |A| == |B| && forall t {:trigger Alike(A[t], B[t])} :: 0 <= t < |A| ==> Alike(A[t], B[t])
  }

  /** Two declarations at the same lines, of the same kind. */
  predicate SameSpot(a: Decl, b: Decl) {
    a.kind == b.kind && a.start == b.start && a.headerLine == b.headerLine && a.closeLine == b.closeLine
  }

  lemma {:induction false} SkipAlike(A: seq<LineInfo>, B: seq<LineInfo>, j: nat)
    requires AllAlike(A, B) && j <= |A|
    ensures SkipAnnotations(A, j) == SkipAnnotations(B, j)
    decreases |A| - j
  {
    if j < |A| {
      assert Alike(A[j], B[j]);
      if A[j].isAnnotation {
        SkipAlike(A, B, j + 1);
      }
    }
  }

  lemma {:induction false} FindCloseAlike(A: seq<LineInfo>, B: seq<LineInfo>, j: nat, d: int)
    requires AllAlike(A, B) && j <= |A|
    ensures FindClose(A, j, d) == FindClose(B, j, d)
    decreases |A| - j
  {
    if j < |A| {
      assert Alike(A[j], B[j]);
      if d + A[j].low > 0 {
        FindCloseAlike(A, B, j + 1, d + A[j].net);
      }
    }
  }

  /** At every line, the scanner takes the same step in both files. */
  lemma StepAtAlike(A: seq<LineInfo>, B: seq<LineInfo>, i: nat)
    requires AllAlike(A, B) && i < |A|
    ensures StepAt(A, i).NoDecl? <==> StepAt(B, i).NoDecl?
    ensures StepAt(A, i).Unclosed? ==> StepAt(B, i) == StepAt(A, i)
    ensures StepAt(A, i).Found? ==> StepAt(B, i).Found? && SameSpot(StepAt(A, i).decl, StepAt(B, i).decl)
  {
    assert Alike(A[i], B[i]);
    SkipAlike(A, B, i + 1);
    var j := SkipAnnotations(A, i + 1);
    if j < |A| {
      assert Alike(A[j], B[j]);
      FindCloseAlike(A, B, j + 1, 1 + A[j].bodyNet);
    }
  }

  /** The scanner's step at every line. */
  function Steps(infos: seq<LineInfo>): (ss: seq<Step>)
    ensures |ss| == |infos|
    ensures forall t :: 0 <= t < |infos| ==> ss[t] == StepAt(infos, t)
  {
    seq(|infos|, t requires 0 <= t < |infos| => StepAt(infos, t))
  }

  /** A found declaration ends at or after the line it is found at and
      inside the file. */
  predicate Stepwise(ss: seq<Step>) {
    forall t :: 0 <= t < |ss| && ss[t].Found? ==> t <= ss[t].decl.closeLine < |ss|
  }

  /** The scan as a walk over precomputed steps. */
  function Walk(ss: seq<Step>, i: nat): Result<seq<Decl>, ScanError>
    requires Stepwise(ss) && i <= |ss|
    decreases |ss| - i
  {
    if i == |ss| then Success([])
    else match ss[i]
      case NoDecl => Walk(ss, i + 1)
      case Unclosed(j) => Failure(UnclosedBody(j))
      case Found(d) =>
        match Walk(ss, d.closeLine + 1)
        case Failure(e) => Failure(e)
        case Success(ds) => Success([d] + ds)
  }

  /** Scanning from line `i` walks the scanner's steps from line `i`. */
  lemma {:induction false} ScanFromIsWalk(infos: seq<LineInfo>, i: nat)
    requires i <= |infos|
    ensures Stepwise(Steps(infos))
    ensures ScanFrom(infos, i) == Walk(Steps(infos), i)
    decreases |infos| - i
  {
    var ss := Steps(infos);
    assert Stepwise(ss);
    if i < |infos| {
      assert ss[i] == StepAt(infos, i);
      match StepAt(infos, i)
      case NoDecl => ScanFromIsWalk(infos, i + 1);
      case Unclosed(j) =>
      case Found(d) => ScanFromIsWalk(infos, d.closeLine + 1);
    }
  }

  /** Two steps that find declarations at the same lines, or fail on the
      same header, or both find nothing. */
  predicate StepAlike(a: Step, b: Step) {
    && a.NoDecl? == b.NoDecl?
    && (a.Unclosed? ==> b == a)
    && (a.Found? ==> b.Found? && SameSpot(a.decl, b.decl))
  }

  /** Walks over alike steps fail alike, or succeed with declarations at the
      same lines. */
  lemma {:induction false} WalkAlike(sa: seq<Step>, sb: seq<Step>, i: nat)
    requires Stepwise(sa) && Stepwise(sb) && |sa| == |sb| && i <= |sa|
    requires forall t :: 0 <= t < |sa| ==> StepAlike(sa[t], sb[t])
    ensures Walk(sa, i).Failure? <==> Walk(sb, i).Failure?
    ensures Walk(sa, i).Failure? ==> Walk(sb, i) == Walk(sa, i)
    ensures Walk(sa, i).Success? ==> |Walk(sb, i).value| == |Walk(sa, i).value|
    ensures Walk(sa, i).Success? ==>
      forall k :: 0 <= k < |Walk(sa, i).value| ==> SameSpot(Walk(sa, i).value[k], Walk(sb, i).value[k])
    decreases |sa| - i
  {
    if i < |sa| {
      assert StepAlike(sa[i], sb[i]);
      match sa[i]
      case NoDecl => WalkAlike(sa, sb, i + 1);
      case Unclosed(j) =>
      case Found(d) =>
        WalkAlike(sa, sb, d.closeLine + 1);
        if Walk(sa, d.closeLine + 1).Success? {
          ConsSameSpot(d, sb[i].decl, Walk(sa, d.closeLine + 1).value, Walk(sb, d.closeLine + 1).value);
        }
    }
  }

  lemma ConsSameSpot(a: Decl, b: Decl, as_: seq<Decl>, bs: seq<Decl>)
    requires SameSpot(a, b) && |as_| == |bs|
    requires forall k :: 0 <= k < |as_| ==> SameSpot(as_[k], bs[k])
    ensures forall k :: 0 <= k < |[a] + as_| ==> SameSpot(([a] + as_)[k], ([b] + bs)[k])
  {
  }

  /** Files whose lines are alike scan alike: both fail on the same header,
      or both succeed with declarations at the same lines. */
  lemma ScanFromAlike(A: seq<LineInfo>, B: seq<LineInfo>)
    requires AllAlike(A, B)
    ensures ScanFrom(A, 0).Failure? <==> ScanFrom(B, 0).Failure?
    ensures ScanFrom(A, 0).Failure? ==> ScanFrom(B, 0) == ScanFrom(A, 0)
    ensures ScanFrom(A, 0).Success? ==> |ScanFrom(B, 0).value| == |ScanFrom(A, 0).value|
    ensures ScanFrom(A, 0).Success? ==>
      forall k :: 0 <= k < |ScanFrom(A, 0).value| ==> SameSpot(ScanFrom(A, 0).value[k], ScanFrom(B, 0).value[k])
  {
    ScanFromIsWalk(A, 0);
    ScanFromIsWalk(B, 0);
    var sa, sb := Steps(A), Steps(B);
    forall t | 0 <= t < |sa|
      ensures StepAlike(sa[t], sb[t])
    {
      StepAtAlike(A, B, t);
    }
    WalkAlike(sa, sb, 0);
  }
}

/** The declaration scanner: finds every class that carries one of the four
    recognised annotations, together with the line range it occupies. It
    works on the classified lines of a file (see `LineInfos`). */
module Scanner {
  import opened Results
  import opened Annotations
  import opened Headers
  import opened Braces
  import opened LineInfos

  /** A recognised annotation led to a header whose body never closes. */
  datatype ScanError = UnclosedBody(headerLine: nat)

  /** One annotated class. Line numbers are 0-based indices into the file:
      `start` is the recognised annotation, the lines up to `headerLine`
      are further annotations, and `closeLine` holds the body's closing
      brace (it is `headerLine` itself for a body such as `{}`). */
  datatype Decl = Decl(
    kind: AnnotationKind,
    start: nat,
    headerLine: nat,
    closeLine: nat,
    header: Header)

  /** The first line at or after `j` that is not an annotation. */
  function SkipAnnotations(infos: seq<LineInfo>, j: nat): (r: nat)
    requires j <= |infos|
    ensures j <= r <= |infos|
    ensures forall t :: j <= t < r ==> infos[t].isAnnotation
    ensures r < |infos| ==> !infos[r].isAnnotation
    decreases |infos| - j
  {
    if j == |infos| || !infos[j].isAnnotation then j else SkipAnnotations(infos, j + 1)
  }

  /** Entered at depth `d` on line `j`, the body is still open after each
      of the lines `j` up to (not including) `t`. */
  predicate OpenBefore(infos: seq<LineInfo>, j: nat, t: nat, d: int)
    requires j <= t <= |infos|
  {
    forall u :: j <= u < t ==> d + NetSum(infos[j..u]) + infos[u].low > 0
  }

  /** The first line at or after `j` on which the body, entered at depth
      `d`, closes: the depth returns to zero somewhere along it. */
  function FindClose(infos: seq<LineInfo>, j: nat, d: int): (r: Option<nat>)
    requires j <= |infos|
    ensures r.Some? ==> j <= r.value < |infos|
    decreases |infos| - j
  {
    if j == |infos| then None
    else if d + infos[j].low <= 0 then Some(j)
    else FindClose(infos, j + 1, d + infos[j].net)
  }

  /** `FindClose` finds the first closing line, and reports none exactly
      when the body stays open to the end of the file. */
  lemma {:induction false} FindCloseSound(infos: seq<LineInfo>, j: nat, d: int)
    requires j <= |infos|
    ensures FindClose(infos, j, d).Some? ==>
      var c := FindClose(infos, j, d).value;
      OpenBefore(infos, j, c, d) && d + NetSum(infos[j..c]) + infos[c].low <= 0
    ensures FindClose(infos, j, d).None? ==> OpenBefore(infos, j, |infos|, d)
    decreases |infos| - j
  {
    if j < |infos| {
      NetSumEmpty(infos, j);
      if d + infos[j].low > 0 {
        var e := d + infos[j].net;
        FindCloseSound(infos, j + 1, e);
        var end := match FindClose(infos, j + 1, e) case Some(c) => c case None => |infos|;
        forall u | j < u <= end
          ensures d + NetSum(infos[j..u]) == e + NetSum(infos[j + 1..u])
        {
          NetSumStep(infos, j, u);
        }
      }
    }
  }

  /** The line holding the brace that closes the body opened by the header
      on line `j`: the header line itself when the rest of it, after the
      opening brace, brings the depth back to zero; otherwise the first later
      line on which the depth returns to zero. */
  function BodyClose(infos: seq<LineInfo>, j: nat): (r: Option<nat>)
    requires j < |infos|
    ensures r.Some? ==> j <= r.value < |infos|
  {
    if 1 + infos[j].bodyLow <= 0 then Some(j) else FindClose(infos, j + 1, 1 + infos[j].bodyNet)
  }

  /** The line numbers of `d` are in order, its recognised annotation is on
      its first line and its header on its header line. */
  predicate Located(infos: seq<LineInfo>, d: Decl) {
    && d.start < d.headerLine <= d.closeLine < |infos|
    && infos[d.start].trigger == Some(d.kind)
    && infos[d.headerLine].header.Some? && infos[d.headerLine].header.value == d.header
  }

  /** Declarations at or after line `i`, in file order, not overlapping. */
  predicate Ordered(ds: seq<Decl>, i: nat) {
    && (forall k :: 0 <= k < |ds| ==> i <= ds[k].start <= ds[k].headerLine <= ds[k].closeLine)
    && (forall a, b :: 0 <= a < b < |ds| ==> ds[a].closeLine < ds[b].start)
  }

  /** What the scanner finds at one line. */
  datatype Step = NoDecl | Found(decl: Decl) | Unclosed(headerLine: nat)

  /** Tries to recognise a declaration starting at line `i`: a recognised
      annotation, further annotation lines, and a header that extends the
      kind's base type and whose body closes. */
  function StepAt(infos: seq<LineInfo>, i: nat): (r: Step)
    requires i < |infos|
    ensures r.Found? ==> r.decl.start == i && Located(infos, r.decl)
    ensures r.Unclosed? ==> i < r.headerLine < |infos|
    ensures infos[i].trigger.None? ==> r.NoDecl?
  {
    match infos[i].trigger
    case None => NoDecl
    case Some(kind) =>
      var j := SkipAnnotations(infos, i + 1);
      if j == |infos| then NoDecl
      else match infos[j].header
        case None => NoDecl
        case Some(h) =>
          if h.base != BaseType(kind) then NoDecl
          else match BodyClose(infos, j)
            case None => Unclosed(j)
            case Some(c) => Found(Decl(kind, i, j, c, h))
  }

  /** Scans the lines from index `i` on. A declaration found at a line is
      kept and scanning resumes after its closing brace; any other line is
      skipped. A body that never closes makes the whole file fail. */
  function ScanFrom(infos: seq<LineInfo>, i: nat): (r: Result<seq<Decl>, ScanError>)
    requires i <= |infos|
    ensures r.Failure? ==> i < r.error.headerLine < |infos|
    decreases |infos| - i
  {
    if i == |infos| then Success([])
    else match StepAt(infos, i)
      case NoDecl => ScanFrom(infos, i + 1)
      case Unclosed(j) => Failure(UnclosedBody(j))
      case Found(d) =>
        match ScanFrom(infos, d.closeLine + 1)
        case Failure(e) => Failure(e)
        case Success(ds) => Success([d] + ds)
  }

  /** The declarations found from line `i` on are in file order and do not
      overlap. */
  lemma {:induction false} ScanFromOrdered(infos: seq<LineInfo>, i: nat)
    requires i <= |infos|
    ensures ScanFrom(infos, i).Success? ==> Ordered(ScanFrom(infos, i).value, i)
    decreases |infos| - i
  {
    if i < |infos| {
      match StepAt(infos, i)
      case NoDecl => ScanFromOrdered(infos, i + 1);
      case Unclosed(j) =>
      case Found(d) =>
        ScanFromOrdered(infos, d.closeLine + 1);
        if ScanFrom(infos, d.closeLine + 1).Success? {
          ConsOrdered(i, d, ScanFrom(infos, d.closeLine + 1).value);
        }
    }
  }

  /** Each declaration found from line `i` on sits where its annotation and
      header are. */
  lemma {:induction false} ScanFromLocated(infos: seq<LineInfo>, i: nat)
    requires i <= |infos|
    ensures ScanFrom(infos, i).Success? ==>
      forall k :: 0 <= k < |ScanFrom(infos, i).value| ==> Located(infos, ScanFrom(infos, i).value[k])
    decreases |infos| - i
  {
    if i < |infos| {
      match StepAt(infos, i)
      case NoDecl => ScanFromLocated(infos, i + 1);
      case Unclosed(j) =>
      case Found(d) =>
        ScanFromLocated(infos, d.closeLine + 1);
        if ScanFrom(infos, d.closeLine + 1).Success? {
          ConsLocated(infos, d, ScanFrom(infos, d.closeLine + 1).value);
        }
    }
  }

  /** Lines without a recognised annotation yield no declaration. */
  lemma {:induction false} ScanFromNone(infos: seq<LineInfo>, i: nat)
    requires i <= |infos|
    requires forall t :: i <= t < |infos| ==> infos[t].trigger.None?
    ensures ScanFrom(infos, i) == Success([])
    decreases |infos| - i
  {
    if i < |infos| {
      ScanFromNone(infos, i + 1);
    }
  }

  lemma ConsLocated(infos: seq<LineInfo>, d: Decl, ds: seq<Decl>)
    requires Located(infos, d)
    requires forall k :: 0 <= k < |ds| ==> Located(infos, ds[k])
    ensures forall k :: 0 <= k < |[d] + ds| ==> Located(infos, ([d] + ds)[k])
  {
    var es := [d] + ds;
    assert es[0] == d;
    assert forall k :: 0 < k < |es| ==> es[k] == ds[k - 1];
  }

  lemma ConsOrdered(i: nat, d: Decl, ds: seq<Decl>)
    requires i <= d.start <= d.headerLine <= d.closeLine
    requires Ordered(ds, d.closeLine + 1)
    ensures Ordered([d] + ds, i)
  {
    var es := [d] + ds;
    assert es[0] == d;
    assert forall k :: 0 < k < |es| ==> es[k] == ds[k - 1];
  }

  /** Declarations from `ds[1..]` start after the first one closes. */
  lemma OrderedTail(ds: seq<Decl>, i: nat)
    requires |ds| > 0 && Ordered(ds, i)
    ensures Ordered(ds[1..], ds[0].closeLine + 1)
  {
    forall a, b | 0 <= a < b < |ds[1..]|
      ensures ds[1..][a].closeLine < ds[1..][b].start
    {
      assert ds[1..][a] == ds[a + 1] && ds[1..][b] == ds[b + 1];
    }
    forall k | 0 <= k < |ds[1..]|
      ensures ds[0].closeLine + 1 <= ds[1..][k].start
    {
      assert ds[1..][k] == ds[k + 1];
    }
  }

  /** The line numbers of `d` are in order and its header is on its header
      line. */
  predicate HeadedAt(lines: seq<string>, d: Decl) {
    && d.start < d.headerLine <= d.closeLine < |lines|
    && WellFormed(d.header) && HeaderText(d.header) == lines[d.headerLine]
  }

  /** A declaration located among the classified lines of a file has its
      header written on its header line. */
  lemma LocatedHeaded(infos: seq<LineInfo>, lines: seq<string>, ds: seq<Decl>)
    requires Agrees(infos, lines)
    requires forall k :: 0 <= k < |ds| ==> Located(infos, ds[k])
    ensures forall k :: 0 <= k < |ds| ==> HeadedAt(lines, ds[k])
  {
    forall k | 0 <= k < |ds|
      ensures HeadedAt(lines, ds[k])
    {
      assert Describes(infos[ds[k].headerLine], lines[ds[k].headerLine]);
    }
  }

  /** Lines that invoke no recognised annotation carry no classified
      trigger. */
  lemma NoTriggers(infos: seq<LineInfo>, lines: seq<string>)
    requires Agrees(infos, lines)
    requires forall t, k :: 0 <= t < |lines| ==> !Invokes(lines[t], k)
    ensures forall t :: 0 <= t < |infos| ==> infos[t].trigger.None?
  {
    forall t | 0 <= t < |infos|
      ensures infos[t].trigger.None?
    {
      assert Describes(infos[t], lines[t]);
    }
  }

  /** All recognised declarations of a file. */
  function Scan(lines: seq<string>): (r: Result<seq<Decl>, ScanError>)
    ensures r.Success? ==> Ordered(r.value, 0)
    ensures r.Success? ==> forall k :: 0 <= k < |r.value| ==> HeadedAt(lines, r.value[k])
    ensures r.Failure? ==> r.error.headerLine < |lines|
    ensures (forall t, k :: 0 <= t < |lines| ==> !Invokes(lines[t], k)) ==> r == Success([])
  {
    var infos := ClassifyAll(lines);
    var r := ScanFrom(infos, 0);
    if forall t, k :: 0 <= t < |lines| ==> !Invokes(lines[t], k) then
      NoTriggers(infos, lines);
      ScanFromNone(infos, 0);
      r
    else if r.Success? then
      ScanFromOrdered(infos, 0);
      ScanFromLocated(infos, 0);
      LocatedHeaded(infos, lines, r.value);
      r
    else r
  }
}

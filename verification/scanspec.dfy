/** A description of a declaration in terms of the text of the file alone,
    independent of the line classification, and the proof that the scanner
    finds declarations of exactly this description. */
module ScanSpec {
  import opened Results
  import opened Annotations
  import opened Headers
  import opened Braces
  import opened LineInfos
  import opened Scanner

  /** Depth on entering line `t > j` of the body opened by header `h` on
      line `j`: one for the opening brace, plus the net change of the rest
      of the header line and of the lines in between. */
  function BodyDepth(lines: seq<string>, j: nat, h: Header, t: nat): int
    requires j < t <= |lines| && WellFormed(h)
  {
    1 + Net(h.tail[1..]) + NetLines(lines[j + 1..t])
  }

  /** The body opened by header `h` on line `j` is still open after line
      `t`: counted from the header's opening brace, the depth has stayed
      positive through the rest of the header line and lines up to `t`. */
  ghost predicate OpenThrough(lines: seq<string>, j: nat, h: Header, t: nat)
    requires j <= t < |lines| && WellFormed(h)
  {
    && StaysOpen(h.tail[1..], 1)
    && forall u :: j < u <= t ==> StaysOpen(lines[u], BodyDepth(lines, j, h, u))
  }

  /** The brace closing the body opened on line `j` is on line `c`. */
  ghost predicate ClosesOn(lines: seq<string>, j: nat, h: Header, c: nat)
    requires j <= c < |lines| && WellFormed(h)
  {
    if c == j then !StaysOpen(h.tail[1..], 1)
    else OpenThrough(lines, j, h, c - 1) && !StaysOpen(lines[c], BodyDepth(lines, j, h, c))
  }

  /** `d` is a declaration of `lines`: a recognised annotation on its first
      line, only annotations up to a header of the kind's base type, and a
      body that closes on its last line. */
  ghost predicate IsDeclAt(lines: seq<string>, d: Decl) {
    && HeadedAt(lines, d)
    && Invokes(lines[d.start], d.kind)
    && (forall t :: d.start < t < d.headerLine ==> IsAnnotationLine(lines[t]))
    && !IsAnnotationLine(lines[d.headerLine])
    && d.header.base == BaseType(d.kind)
    && ClosesOn(lines, d.headerLine, d.header, d.closeLine)
  }

  /** Line `j` is a header whose body never closes. */
  ghost predicate NeverCloses(lines: seq<string>, j: nat)
    requires j < |lines|
  {
    ParseHeader(lines[j]).Some? && OpenThrough(lines, j, ParseHeader(lines[j]).value, |lines| - 1)
  }

  /** On line `u` of a body, the classified test for staying open is the
      textual one. */
  lemma LineOpenMeaning(infos: seq<LineInfo>, lines: seq<string>, j: nat, h: WfHeader, u: nat)
    requires Agrees(infos, lines) && j < u < |lines|
    ensures StaysOpen(lines[u], BodyDepth(lines, j, h, u)) <==>
      1 + Net(h.tail[1..]) + NetSum(infos[j + 1..u]) + infos[u].low > 0
  {
    NetSumOfLines(infos, lines, j + 1, u);
    LowDecidesOpen(lines[u], BodyDepth(lines, j, h, u));
    assert Describes(infos[u], lines[u]);
  }

  /** What `BodyClose` reports, read on the text: the line on which the
      body closes, or that it stays open to the end of the file. */
  lemma BodyCloseMeaning(infos: seq<LineInfo>, lines: seq<string>, j: nat)
    requires Agrees(infos, lines) && j < |lines| && infos[j].header.Some?
    ensures var h := infos[j].header.value;
      BodyClose(infos, j).Some? ==> ClosesOn(lines, j, h, BodyClose(infos, j).value)
    ensures BodyClose(infos, j).None? ==> OpenThrough(lines, j, infos[j].header.value, |lines| - 1)
  {
    var h := infos[j].header.value;
    var rest := h.tail[1..];
    assert Describes(infos[j], lines[j]);
    LowDecidesOpen(rest, 1);
    if 1 + Low(rest) > 0 {
      var e := 1 + Net(rest);
      FindCloseSound(infos, j + 1, e);
      var end := match FindClose(infos, j + 1, e) case Some(c) => c case None => |lines| - 1;
      forall u | j < u <= end
        ensures StaysOpen(lines[u], BodyDepth(lines, j, h, u)) <==> e + NetSum(infos[j + 1..u]) + infos[u].low > 0
      {
        LineOpenMeaning(infos, lines, j, h, u);
      }
    }
  }

  /** The closing line of a body is unique. */
  lemma ClosesOnUnique(lines: seq<string>, j: nat, h: Header, c1: nat, c2: nat)
    requires j <= c1 < |lines| && j <= c2 < |lines| && WellFormed(h)
    requires ClosesOn(lines, j, h, c1) && ClosesOn(lines, j, h, c2)
    ensures c1 == c2
  {
  }

  /** `BodyClose` finds exactly the line on which the body closes. */
  lemma BodyCloseExact(infos: seq<LineInfo>, lines: seq<string>, j: nat, c: nat)
    requires Agrees(infos, lines) && j <= c < |lines| && infos[j].header.Some?
    ensures BodyClose(infos, j) == Some(c) <==> ClosesOn(lines, j, infos[j].header.value, c)
  {
    var h := infos[j].header.value;
    BodyCloseMeaning(infos, lines, j);
    var r := BodyClose(infos, j);
    if ClosesOn(lines, j, h, c) && r.Some? {
      ClosesOnUnique(lines, j, h, c, r.value);
    }
  }

  /** The classified form of the conditions of `IsDeclAt`, minus the body. */
  predicate HeadOf(infos: seq<LineInfo>, d: Decl)
  {
    && Located(infos, d)
    && (forall t :: d.start < t < d.headerLine ==> infos[t].isAnnotation)
    && !infos[d.headerLine].isAnnotation
    && d.header.base == BaseType(d.kind)
  }

  /** A declaration the scanner finds at line `i`: its head, and the body
      closing where `BodyClose` says. */
  lemma StepAtFound(infos: seq<LineInfo>, i: nat)
    requires i < |infos| && StepAt(infos, i).Found?
    ensures var d := StepAt(infos, i).decl;
      HeadOf(infos, d) && BodyClose(infos, d.headerLine) == Some(d.closeLine)
  {
  }

  /** A failing step names a header whose body never closes. */
  lemma StepAtUnclosed(infos: seq<LineInfo>, i: nat)
    requires i < |infos| && StepAt(infos, i).Unclosed?
    ensures var j := StepAt(infos, i).headerLine;
      infos[j].header.Some? && BodyClose(infos, j).None?
  {
  }

  lemma {:induction false} SkipsTo(infos: seq<LineInfo>, i: nat, j: nat)
    requires i <= j < |infos|
    requires forall t :: i <= t < j ==> infos[t].isAnnotation
    requires !infos[j].isAnnotation
    ensures SkipAnnotations(infos, i) == j
    decreases j - i
  {
    if i < j {
      SkipsTo(infos, i + 1, j);
    }
  }

  /** The scanner recognises a declaration with the given head whose body
      closes where `BodyClose` says. */
  lemma StepAtHead(infos: seq<LineInfo>, d: Decl)
    requires HeadOf(infos, d)
    requires BodyClose(infos, d.headerLine) == Some(d.closeLine)
    ensures StepAt(infos, d.start) == Found(d)
  {
    SkipsTo(infos, d.start + 1, d.headerLine);
  }

  /** The classified head of a declaration holds exactly when its textual
      conditions do. */
  lemma HeadOfText(infos: seq<LineInfo>, lines: seq<string>, d: Decl)
    requires Agrees(infos, lines)
    requires d.start < d.headerLine <= d.closeLine < |lines|
    ensures HeadOf(infos, d) <==>
      && WellFormed(d.header) && HeaderText(d.header) == lines[d.headerLine]
      && Invokes(lines[d.start], d.kind)
      && (forall t :: d.start < t < d.headerLine ==> IsAnnotationLine(lines[t]))
      && !IsAnnotationLine(lines[d.headerLine])
      && d.header.base == BaseType(d.kind)
  {
    var first, header := infos[d.start], infos[d.headerLine];
    assert Describes(first, lines[d.start]) && Describes(header, lines[d.headerLine]);
    forall t | d.start < t < d.headerLine
      ensures infos[t].isAnnotation == IsAnnotationLine(lines[t])
    {
      assert Describes(infos[t], lines[t]);
    }
    if WellFormed(d.header) && HeaderText(d.header) == lines[d.headerLine] {
      HeaderTextInjective(header.header.value, d.header);
    }
    if Invokes(lines[d.start], d.kind) {
      InvokesUnique(lines[d.start], first.trigger.value, d.kind);
    }
  }

  /** The scanner recognises a declaration at line `i` exactly when the text
      has one there. */
  lemma StepAtExact(infos: seq<LineInfo>, lines: seq<string>, d: Decl)
    requires Agrees(infos, lines) && d.start < |lines|
    ensures StepAt(infos, d.start) == Found(d) <==> IsDeclAt(lines, d)
  {
    if StepAt(infos, d.start) == Found(d) {
      StepAtFound(infos, d.start);
      HeadOfText(infos, lines, d);
      BodyCloseExact(infos, lines, d.headerLine, d.closeLine);
    }
    if IsDeclAt(lines, d) {
      HeadOfText(infos, lines, d);
      BodyCloseExact(infos, lines, d.headerLine, d.closeLine);
      StepAtHead(infos, d);
    }
  }

  /** A scan that fails at line `j` found a header there whose body never
      closes. */
  lemma StepAtUnclosedText(infos: seq<LineInfo>, lines: seq<string>, i: nat)
    requires Agrees(infos, lines) && i < |lines| && StepAt(infos, i).Unclosed?
    ensures NeverCloses(lines, StepAt(infos, i).headerLine)
  {
    var j := StepAt(infos, i).headerLine;
    StepAtUnclosed(infos, i);
    var h := infos[j].header.value;
    assert Describes(infos[j], lines[j]);
    ParseHeaderText(h);
    BodyCloseMeaning(infos, lines, j);
  }

  /** Every declaration the scan from line `i` reports is one `StepAt`
      recognises at its first line. */
  lemma {:induction false} ScanFromFoundSteps(infos: seq<LineInfo>, i: nat)
    requires i <= |infos|
    ensures ScanFrom(infos, i).Success? ==> forall k :: 0 <= k < |ScanFrom(infos, i).value| ==>
      var d := ScanFrom(infos, i).value[k];
      d.start < |infos| && StepAt(infos, d.start) == Found(d)
    decreases |infos| - i
  {
    if i < |infos| {
      match StepAt(infos, i)
      case NoDecl => ScanFromFoundSteps(infos, i + 1);
      case Unclosed(j) =>
      case Found(d) =>
        ScanFromFoundSteps(infos, d.closeLine + 1);
        match ScanFrom(infos, d.closeLine + 1)
        case Failure(e) =>
        case Success(ds) =>
          var es := [d] + ds;
          assert es[0] == d;
          assert forall k :: 0 < k < |es| ==> es[k] == ds[k - 1];
    }
  }

  /** A failing scan from line `i` comes from a header that `StepAt` finds
      unclosed at some line from `i` on. */
  lemma {:induction false} ScanFromFailureStep(infos: seq<LineInfo>, i: nat)
    requires i <= |infos|
    ensures ScanFrom(infos, i).Failure? ==>
      (exists t :: i <= t < |infos| && StepAt(infos, t) == Unclosed(ScanFrom(infos, i).error.headerLine))
    decreases |infos| - i
  {
    if i < |infos| {
      match StepAt(infos, i)
      case NoDecl => ScanFromFailureStep(infos, i + 1);
      case Unclosed(j) =>
      case Found(d) => ScanFromFailureStep(infos, d.closeLine + 1);
    }
  }

  /** Soundness of `Scan`: every declaration it reports is a declaration
      of the text, and a failure names a header whose body never closes. */
  lemma ScanSound(lines: seq<string>)
    ensures Scan(lines).Success? ==> forall k :: 0 <= k < |Scan(lines).value| ==> IsDeclAt(lines, Scan(lines).value[k])
    ensures Scan(lines).Failure? ==> NeverCloses(lines, Scan(lines).error.headerLine)
  {
    var infos := ClassifyAll(lines);
    var r := ScanFrom(infos, 0);
    ScanFromFoundSteps(infos, 0);
    ScanFromFailureStep(infos, 0);
    if r.Success? {
      forall k | 0 <= k < |r.value|
        ensures IsDeclAt(lines, r.value[k])
      {
        StepAtExact(infos, lines, r.value[k]);
      }
    } else {
      var t :| 0 <= t < |infos| && StepAt(infos, t) == Unclosed(r.error.headerLine);
      StepAtUnclosedText(infos, lines, t);
    }
  }

  /** Lines without a classified trigger are passed over one by one. */
  lemma {:induction false} ScanFromSkip(infos: seq<LineInfo>, i: nat, s: nat)
    requires i <= s <= |infos|
    requires forall t :: i <= t < s ==> infos[t].trigger.None?
    ensures ScanFrom(infos, i) == ScanFrom(infos, s)
    decreases s - i
  {
    if i < s {
      ScanFromSkip(infos, i + 1, s);
    }
  }

  /** Classified lines with one declaration and no trigger outside it scan
      to exactly that declaration. */
  lemma ScanFromSingle(infos: seq<LineInfo>, d: Decl)
    requires d.start < |infos| && StepAt(infos, d.start) == Found(d)
    requires forall t :: 0 <= t < |infos| && (t < d.start || d.closeLine < t) ==> infos[t].trigger.None?
    ensures ScanFrom(infos, 0) == Success([d])
  {
    ScanFromSkip(infos, 0, d.start);
    ScanFromNone(infos, d.closeLine + 1);
    assert [d] + [] == [d];
  }

  /** `Scan` scans the classified lines. */
  lemma ScanIsScanFrom(lines: seq<string>)
    ensures Scan(lines) == ScanFrom(ClassifyAll(lines), 0)
  {
  }

  /** Completeness for a file with one declaration: when no line outside
      it invokes a recognised annotation, the scan reports exactly it. */
  lemma ScanSingle(lines: seq<string>, d: Decl)
    requires IsDeclAt(lines, d)
    requires forall t, k :: 0 <= t < |lines| && (t < d.start || d.closeLine < t) ==> !Invokes(lines[t], k)
    ensures Scan(lines) == Success([d])
  {
    var infos := ClassifyAll(lines);
    forall t | 0 <= t < |lines| && (t < d.start || d.closeLine < t)
      ensures infos[t].trigger.None?
    {
      assert Describes(infos[t], lines[t]);
    }
    StepAtExact(infos, lines, d);
    ScanFromSingle(infos, d);
    ScanIsScanFrom(lines);
  }
}

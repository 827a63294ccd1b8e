/** What the declaration scanner needs to know about each line, computed once
    per line before scanning: the recognised annotation it invokes, whether
    it is an annotation at all, the class header it reads as, and its brace
    profile. */
module LineInfos {
  import opened Results
  import opened Annotations
  import opened Headers
  import opened Braces

  /** A header of the recognised form. */
  type WfHeader = h: Header | WellFormed(h) witness Header(false, "A", "B", "{")

  /** The classification of one line. `net` is the line's net brace depth
      change and `low` the lowest point the depth reaches along it, relative
      to where it enters the line. On a header line, `bodyNet` and `bodyLow`
      are the same for the rest of the line after the opening brace. */
  datatype LineInfo = LineInfo(
    trigger: Option<AnnotationKind>,
    isAnnotation: bool,
    header: Option<WfHeader>,
    net: int,
    low: int,
    bodyNet: int,
    bodyLow: int)

  /** What a classification says about the text of its line: the trigger
      is the recognised annotation the line invokes, the header is the one
      the line reads as, and the brace profile is the line's. */
  ghost predicate Describes(c: LineInfo, line: string) {
    && (c.trigger.Some? ==> Invokes(line, c.trigger.value))
    && (c.trigger.None? ==> forall k :: !Invokes(line, k))
    && c.isAnnotation == IsAnnotationLine(line)
    && (c.header.Some? ==> HeaderText(c.header.value) == line)
    && (c.header.Some? ==> c.bodyNet == Net(c.header.value.tail[1..]) && c.bodyLow == Low(c.header.value.tail[1..]))
    && (c.header.None? ==> forall h: Header :: WellFormed(h) ==> HeaderText(h) != line)
    && c.net == Net(line) && c.low == Low(line)
  }

  /** `infos` classifies `lines`, line by line. What it says about a line
      is available once that line's `Describes` is asked for. */
  ghost predicate Agrees(infos: seq<LineInfo>, lines: seq<string>) {
    |infos| == |lines| && forall t {:trigger Describes(infos[t], lines[t])} :: 0 <= t < |lines| ==> Describes(infos[t], lines[t])
  }

  function Classify(line: string): (c: LineInfo)
    ensures Describes(c, line)
  {
    var header := ParseHeader(line);
    var body := if header.Some? then header.value.tail[1..] else "";
    var c := LineInfo(TriggerKind(line), IsAnnotationLine(line), header, Net(line), Low(line), Net(body), Low(body));
    assert c.header.None? ==> forall h: Header :: WellFormed(h) ==> HeaderText(h) != line by {
      forall h: Header | WellFormed(h) && HeaderText(h) == line
        ensures c.header.Some?
      {
        ParseHeaderText(h);
      }
    }
    c
  }

  /** The classification of every line of a file. */
  function ClassifyAll(lines: seq<string>): (infos: seq<LineInfo>)
    ensures Agrees(infos, lines)
  {
    if |lines| == 0 then []
    else
      var infos := [Classify(lines[0])] + ClassifyAll(lines[1..]);
      assert Agrees(infos, lines) by {
        forall t | 0 <= t < |lines|
          ensures Describes(infos[t], lines[t])
        {
          if t > 0 {
            assert Describes(ClassifyAll(lines[1..])[t - 1], lines[1..][t - 1]);
          }
        }
      }
      infos
  }

  /** Distinct headers are written differently. */
  lemma HeaderTextInjective(h1: Header, h2: Header)
    requires WellFormed(h1) && WellFormed(h2) && HeaderText(h1) == HeaderText(h2)
    ensures h1 == h2
  {
    ParseHeaderText(h1);
    ParseHeaderText(h2);
  }

  /** A classified header line is not an annotation. */
  lemma HeaderLineNotAnnotation(c: LineInfo, line: string)
    requires Describes(c, line) && c.header.Some?
    ensures !c.isAnnotation
  {
    HeaderTextNotAnnotation(c.header.value);
  }

  /** Net brace depth change across consecutive classified lines. */
  function NetSum(infos: seq<LineInfo>): int {
    if |infos| == 0 then 0 else infos[0].net + NetSum(infos[1..])
  }

  lemma NetSumStep(infos: seq<LineInfo>, j: nat, u: nat)
    requires j < u <= |infos|
    ensures NetSum(infos[j..u]) == infos[j].net + NetSum(infos[j + 1..u])
  {
    assert infos[j..u][1..] == infos[j + 1..u];
  }

  lemma NetSumEmpty(infos: seq<LineInfo>, j: nat)
    requires j <= |infos|
    ensures NetSum(infos[j..j]) == 0
  {
    assert infos[j..j] == [];
  }

  /** The classified net change of a run of lines is the net change of the
      lines themselves. */
  lemma {:induction false} NetSumOfLines(infos: seq<LineInfo>, lines: seq<string>, a: nat, b: nat)
    requires Agrees(infos, lines) && a <= b <= |lines|
    ensures NetSum(infos[a..b]) == NetLines(lines[a..b])
    decreases b - a
  {
    if a < b {
      assert Describes(infos[a], lines[a]);
      NetSumStep(infos, a, b);
      assert lines[a..b][1..] == lines[a + 1..b];
      NetSumOfLines(infos, lines, a + 1, b);
    } else {
      assert infos[a..b] == [] && lines[a..b] == [];
    }
  }
}

/** The example files of the codemod's own test suite, with the patches each
    suggestor is expected to produce for them, proved from the general
    results about the scanner. */
module TestFiles {
  import opened Results
  import opened Text
  import opened Naming
  import opened Annotations
  import opened Headers
  import opened Braces
  import opened Scanner
  import opened ScanSpec
  import opened Patches
  import opened RenameSuggestor
  import opened AccompanyingSuggestor

  /** A line that does not start with `@` invokes no annotation. */
  lemma NoInvokes(line: string)
    requires |line| == 0 || line[0] != '@'
    ensures forall k :: !Invokes(line, k)
  {
    forall k
      ensures !Invokes(line, k)
    {
      assert ("@" + KindName(k))[0] == '@';
    }
  }

  lemma {:induction false} NetLinesBraceFree(ls: seq<string>)
    requires forall i :: 0 <= i < |ls| ==> BraceFree(ls[i])
    ensures NetLines(ls) == 0
    decreases |ls|
  {
    if |ls| > 0 {
      BraceFreeNeutral(ls[0]);
      NetLinesBraceFree(ls[1..]);
    }
  }

  /** A header ending in `{`, brace-free body lines and a `}` line: the body
      closes on the `}` line. */
  lemma ClosesAfterBraceFree(lines: seq<string>, j: nat, h: Header, c: nat)
    requires WellFormed(h) && h.tail == "{" && j < c < |lines|
    requires forall u :: j < u < c ==> BraceFree(lines[u])
    requires lines[c] == "}"
    ensures ClosesOn(lines, j, h, c)
  {
    assert h.tail[1..] == "";
    LowDecidesOpen("", 1);
    forall u | j < u <= c
      ensures BodyDepth(lines, j, h, u) == 1
    {
      NetLinesBraceFree(lines[j + 1..u]);
    }
    forall u | j < u < c
      ensures StaysOpen(lines[u], BodyDepth(lines, j, h, u))
    {
      BraceFreeNeutral(lines[u]);
      LowDecidesOpen(lines[u], 1);
    }
    assert "}"[1..] == "";
    LowDecidesOpen("}", 1);
  }

  /** A header ending in `{}`: the body closes on the header line. */
  lemma ClosesSameLine(lines: seq<string>, j: nat, h: Header)
    requires WellFormed(h) && h.tail == "{}" && j < |lines|
    ensures ClosesOn(lines, j, h, j)
  {
    assert h.tail[1..] == "}" && "}"[1..] == "";
    LowDecidesOpen("}", 1);
  }

  /** The shape the example files share: lines without annotations, the
      annotations, a header, then (unless the header closes its own body
      with `{}`) brace-free body lines and a `}` line, then more lines
      without annotations. */
  function Shaped(pre: seq<string>, anns: seq<string>, h: Header, body: seq<string>, post: seq<string>): seq<string> {
    pre + anns + FromHeader(h, body, post)
  }

  /** A shaped file from its header on. */
  function FromHeader(h: Header, body: seq<string>, post: seq<string>): seq<string> {
    [HeaderText(h)] + (if h.tail == "{}" then [] else body + ["}"]) + post
  }

  /** The one declaration of a shaped file. */
  function ShapedDecl(pre: seq<string>, anns: seq<string>, h: Header, body: seq<string>, k: AnnotationKind): Decl {
    var j := |pre| + |anns|;
    Decl(k, |pre|, j, if h.tail == "{}" then j else j + |body| + 1, h)
  }

  /** Lines none of which starts with `@`. */
  predicate Quiet(ls: seq<string>) {
    forall i :: 0 <= i < |ls| ==> |ls[i]| == 0 || ls[i][0] != '@'
  }

  /** A trigger annotation of kind `k` followed by other annotations. */
  predicate AnnotationsOk(anns: seq<string>, k: AnnotationKind) {
    |anns| > 0 && Invokes(anns[0], k) && forall i :: 0 < i < |anns| ==> IsAnnotationLine(anns[i])
  }

  /** A recognised header extending the base type of kind `k`. */
  predicate HeaderOk(h: Header, k: AnnotationKind) {
    WellFormed(h) && h.base == BaseType(k)
  }

  /** Brace-free body lines after `{`, or none after `{}`. */
  predicate BodyOk(tail: string, body: seq<string>) {
    (tail == "{" && forall i :: 0 <= i < |body| ==> BraceFree(body[i])) || (tail == "{}" && body == [])
  }

  /** What a shaped file needs for its one declaration to be recognised. */
  predicate ShapeOk(pre: seq<string>, anns: seq<string>, h: Header, body: seq<string>, post: seq<string>, k: AnnotationKind) {
    Quiet(pre) && Quiet(post) && AnnotationsOk(anns, k) && HeaderOk(h, k) && BodyOk(h.tail, body)
  }

  /** The lines of a shaped file, piece by piece. */
  lemma ShapedLines(pre: seq<string>, anns: seq<string>, h: Header, body: seq<string>, post: seq<string>)
    requires h.tail != "{}"
    ensures var lines, j := Shaped(pre, anns, h, body, post), |pre| + |anns|;
      && |lines| == j + 1 + |body| + 1 + |post|
      && (forall i :: 0 <= i < |pre| ==> lines[i] == pre[i])
      && (forall i :: 0 <= i < |anns| ==> lines[|pre| + i] == anns[i])
      && lines[j] == HeaderText(h)
      && (forall i :: 0 <= i < |body| ==> lines[j + 1 + i] == body[i])
      && lines[j + 1 + |body|] == "}"
      && (forall i :: 0 <= i < |post| ==> lines[j + 2 + |body| + i] == post[i])
  {
  }

  lemma ShapedLinesEmptyBody(pre: seq<string>, anns: seq<string>, h: Header, body: seq<string>, post: seq<string>)
    requires h.tail == "{}"
    ensures var lines, j := Shaped(pre, anns, h, body, post), |pre| + |anns|;
      && |lines| == j + 1 + |post|
      && (forall i :: 0 <= i < |pre| ==> lines[i] == pre[i])
      && (forall i :: 0 <= i < |anns| ==> lines[|pre| + i] == anns[i])
      && lines[j] == HeaderText(h)
      && (forall i :: 0 <= i < |post| ==> lines[j + 1 + i] == post[i])
  {
  }

  /** The one declaration of a shaped file is a declaration of its text. */
  lemma ShapedIsDecl(pre: seq<string>, anns: seq<string>, h: Header, body: seq<string>, post: seq<string>, k: AnnotationKind)
    requires ShapeOk(pre, anns, h, body, post, k)
    ensures IsDeclAt(Shaped(pre, anns, h, body, post), ShapedDecl(pre, anns, h, body, k))
  {
    ShapedHead(pre, anns, h, body, post, k);
    ShapedCloses(pre, anns, h, body, post, k);
  }

  /** Everything `IsDeclAt` asks of a shaped file but the closing brace. */
  lemma ShapedHead(pre: seq<string>, anns: seq<string>, h: Header, body: seq<string>, post: seq<string>, k: AnnotationKind)
    requires ShapeOk(pre, anns, h, body, post, k)
    ensures var lines, d := Shaped(pre, anns, h, body, post), ShapedDecl(pre, anns, h, body, k);
      && HeadedAt(lines, d)
      && Invokes(lines[d.start], d.kind)
      && (forall t :: d.start < t < d.headerLine ==> IsAnnotationLine(lines[t]))
      && !IsAnnotationLine(lines[d.headerLine])
  {
    HeaderTextNotAnnotation(h);
    if h.tail == "{}" {
      ShapedLinesEmptyBody(pre, anns, h, body, post);
    } else {
      ShapedLines(pre, anns, h, body, post);
    }
  }

  /** The body of a shaped file's declaration closes on its last line. */
  lemma ShapedCloses(pre: seq<string>, anns: seq<string>, h: Header, body: seq<string>, post: seq<string>, k: AnnotationKind)
    requires WellFormed(h) && BodyOk(h.tail, body)
    ensures var lines, d := Shaped(pre, anns, h, body, post), ShapedDecl(pre, anns, h, body, k);
      d.headerLine <= d.closeLine < |lines| && ClosesOn(lines, d.headerLine, h, d.closeLine)
  {
    if h.tail == "{}" {
      ShapedClosesEmpty(pre, anns, h, body, post);
    } else {
      ShapedClosesBraced(pre, anns, h, body, post);
    }
  }

  lemma ShapedClosesEmpty(pre: seq<string>, anns: seq<string>, h: Header, body: seq<string>, post: seq<string>)
    requires WellFormed(h) && h.tail == "{}"
    ensures var lines, j := Shaped(pre, anns, h, body, post), |pre| + |anns|;
      j < |lines| && ClosesOn(lines, j, h, j)
  {
    ShapedLinesEmptyBody(pre, anns, h, body, post);
    ClosesSameLine(Shaped(pre, anns, h, body, post), |pre| + |anns|, h);
  }

  lemma ShapedClosesBraced(pre: seq<string>, anns: seq<string>, h: Header, body: seq<string>, post: seq<string>)
    requires WellFormed(h) && h.tail == "{" && forall i :: 0 <= i < |body| ==> BraceFree(body[i])
    ensures var lines, j := Shaped(pre, anns, h, body, post), |pre| + |anns|;
      j + |body| + 1 < |lines| && ClosesOn(lines, j, h, j + |body| + 1)
  {
    var lines, j := Shaped(pre, anns, h, body, post), |pre| + |anns|;
    ShapedBody(pre, anns, h, body, post);
    forall u | j < u < j + |body| + 1
      ensures BraceFree(lines[u])
    {
      assert lines[u] == body[u - j - 1];
    }
    ClosesAfterBraceFree(lines, j, h, j + |body| + 1);
  }

  /** The body lines of a shaped file and the `}` after them. */
  lemma ShapedBody(pre: seq<string>, anns: seq<string>, h: Header, body: seq<string>, post: seq<string>)
    requires h.tail != "{}"
    ensures var lines, j := Shaped(pre, anns, h, body, post), |pre| + |anns|;
      && j + |body| + 1 < |lines|
      && (forall u :: j < u < j + |body| + 1 ==> lines[u] == body[u - j - 1])
      && lines[j + |body| + 1] == "}"
  {
    var lines, j := Shaped(pre, anns, h, body, post), |pre| + |anns|;
    var B := body + ["}"];
    var F := [HeaderText(h)] + B + post;
    assert F == FromHeader(h, body, post);
    assert lines == (pre + anns) + F && |pre + anns| == j;
    forall u | j < u < j + |body| + 1
      ensures lines[u] == body[u - j - 1]
    {
      assert lines[u] == F[u - j] == B[u - j - 1];
    }
    assert lines[j + |body| + 1] == F[|body| + 1] == B[|body|];
  }

  /** No line of a shaped file outside its declaration invokes a
      recognised annotation. */
  lemma ShapedQuietOutside(pre: seq<string>, anns: seq<string>, h: Header, body: seq<string>, post: seq<string>, k: AnnotationKind)
    requires ShapeOk(pre, anns, h, body, post, k)
    ensures var lines, d := Shaped(pre, anns, h, body, post), ShapedDecl(pre, anns, h, body, k);
      forall t, k' :: 0 <= t < |lines| && (t < d.start || d.closeLine < t) ==> !Invokes(lines[t], k')
  {
    var lines, d := Shaped(pre, anns, h, body, post), ShapedDecl(pre, anns, h, body, k);
    if h.tail == "{}" {
      ShapedLinesEmptyBody(pre, anns, h, body, post);
    } else {
      ShapedLines(pre, anns, h, body, post);
    }
    forall t | 0 <= t < |lines| && (t < d.start || d.closeLine < t)
      ensures forall k' :: !Invokes(lines[t], k')
    {
      NoInvokes(lines[t]);
    }
  }

  /** A shaped file scans to its one declaration. */
  lemma ScanShaped(pre: seq<string>, anns: seq<string>, h: Header, body: seq<string>, post: seq<string>, k: AnnotationKind)
    requires ShapeOk(pre, anns, h, body, post, k)
    ensures Scan(Shaped(pre, anns, h, body, post)) == Success([ShapedDecl(pre, anns, h, body, k)])
  {
    ShapedIsDecl(pre, anns, h, body, post, k);
    ShapedQuietOutside(pre, anns, h, body, post, k);
    ScanSingle(Shaped(pre, anns, h, body, post), ShapedDecl(pre, anns, h, body, k));
  }

  /** The rename patch of a shaped file's declaration. */
  lemma RenamePatchShaped(pre: seq<string>, anns: seq<string>, h: Header, body: seq<string>, post: seq<string>, k: AnnotationKind)
    requires HeadedAt(Shaped(pre, anns, h, body, post), ShapedDecl(pre, anns, h, body, k))
    ensures RenamePatch(Shaped(pre, anns, h, body, post), ShapedDecl(pre, anns, h, body, k)) ==
      Patch(|pre|, |pre| + |anns| + 1, TerminateAll(anns) + [Terminated(HeaderText(Renamed(h)))])
  {
    var lines := Shaped(pre, anns, h, body, post);
    var d := ShapedDecl(pre, anns, h, body, k);
    SliceMiddle(pre, anns, FromHeader(h, body, post));
  }

  lemma SliceMiddle<T>(a: seq<T>, b: seq<T>, c: seq<T>)
    ensures (a + b + c)[|a|..|a| + |b|] == b
  {
  }

  /** The rename suggestor on a shaped file whose identifier is not yet
      hidden: one patch, from the first annotation through the header, that
      keeps the annotations and hides the identifier. */
  lemma RenameShaped(pre: seq<string>, anns: seq<string>, h: Header, body: seq<string>, post: seq<string>, k: AnnotationKind)
    requires ShapeOk(pre, anns, h, body, post, k) && !HasSigil(h.name)
    ensures SuggestRenames(Shaped(pre, anns, h, body, post)) ==
      Success([Patch(|pre|, |pre| + |anns| + 1, TerminateAll(anns) + [Terminated(HeaderText(Renamed(h)))])])
  {
    var lines := Shaped(pre, anns, h, body, post);
    var d := ShapedDecl(pre, anns, h, body, k);
    ScanShaped(pre, anns, h, body, post, k);
    RenamePatchesOne(lines, d);
    RenamePatchShaped(pre, anns, h, body, post, k);
  }

  lemma RenamePatchesOne(lines: seq<string>, d: Decl)
    requires HeadedAt(lines, d) && NeedsRename(d)
    ensures RenamePatches(lines, [d]) == [RenamePatch(lines, d)]
  {
    assert [d][1..] == [];
  }

  lemma TerminateAllOne(x: string)
    ensures TerminateAll([x]) == [Terminated(x)]
  {
    assert [x][1..] == [];
  }

  lemma TerminateAllTwo(x: string, y: string)
    ensures TerminateAll([x, y]) == [Terminated(x), Terminated(y)]
  {
    assert [x, y][1..] == [y];
    TerminateAllOne(y);
  }

  /** The accompanying suggestor on a shaped file whose wrapper is missing:
      one insertion, just after the closing brace. */
  lemma AccompanyShaped(pre: seq<string>, anns: seq<string>, h: Header, body: seq<string>, post: seq<string>, k: AnnotationKind)
    requires ShapeOk(pre, anns, h, body, post, k)
    requires !HasWrapper(Shaped(pre, anns, h, body, post), NamesFor(h.name))
    ensures SuggestAccompanying(Shaped(pre, anns, h, body, post)) ==
      Success([AccompanyPatch(ShapedDecl(pre, anns, h, body, k))])
  {
    ScanShaped(pre, anns, h, body, post, k);
    AccompanyOne(Shaped(pre, anns, h, body, post), ShapedDecl(pre, anns, h, body, k));
  }

  /** The accompanying suggestor on a shaped file that already declares
      the wrapper: nothing to insert. */
  lemma AccompanyShapedWrapped(pre: seq<string>, anns: seq<string>, h: Header, body: seq<string>, post: seq<string>, k: AnnotationKind)
    requires ShapeOk(pre, anns, h, body, post, k)
    requires HasWrapper(Shaped(pre, anns, h, body, post), NamesFor(h.name))
    ensures SuggestAccompanying(Shaped(pre, anns, h, body, post)) == Success([])
  {
    ScanShaped(pre, anns, h, body, post, k);
    AccompanyOne(Shaped(pre, anns, h, body, post), ShapedDecl(pre, anns, h, body, k));
  }

  /** The accompanying patches for a file with one declaration. */
  lemma AccompanyOne(lines: seq<string>, d: Decl)
    ensures !HasWrapper(lines, NamesFor(d.header.name)) ==> AccompanyPatches(lines, [d]) == [AccompanyPatch(d)]
    ensures HasWrapper(lines, NamesFor(d.header.name)) ==> AccompanyPatches(lines, [d]) == []
  {
    assert [d][1..] == [];
  }

  /** The inserted block, line by line, for a declaration whose wrapper
      names are `n`. */
  lemma AccompanyPatchLines(d: Decl, n: WrapperNames)
    requires NamesFor(d.header.name) == n
    ensures AccompanyPatch(d) == Patch(d.closeLine + 1, d.closeLine + 1, [
      "\n",
      MigrationComment + "\n",
      MixinIgnore + "\n",
      Lead(d.header.isAbstract) + n.publicName + " extends " + n.hiddenName + " with " + n.mixinName + " {\n",
      MetaIgnore + "\n",
      "  static const " + MetaType(d.kind) + " meta = " + n.metaRef + ";\n",
      "}\n"])
  {
    WrapperHeaderLine(d.header.isAbstract, n);
    MetaLineText(d.kind, n);
    AccompanyPatchSpelled(d, Terminated(WrapperHeader(d.header.isAbstract, n)), Terminated(MetaLine(d.kind, n)));
  }

  /** The inserted block with its header and `meta` lines as given. */
  lemma AccompanyPatchSpelled(d: Decl, header: string, meta: string)
    requires var n := NamesFor(d.header.name);
      Terminated(WrapperHeader(d.header.isAbstract, n)) == header && Terminated(MetaLine(d.kind, n)) == meta
    ensures AccompanyPatch(d) == Patch(d.closeLine + 1, d.closeLine + 1, [
      "\n", MigrationComment + "\n", MixinIgnore + "\n", header, MetaIgnore + "\n", meta, "}\n"])
  {
    var w := WrapperLines(d);
    assert Terminated("") == "\n" && Terminated("}") == "}\n";
    assert TerminateAll(w) == [Terminated(w[0]), Terminated(w[1]), Terminated(w[2]), Terminated(w[3]),
      Terminated(w[4]), Terminated(w[5]), Terminated(w[6])];
  }

  lemma Assoc(a: string, b: string, c: string)
    ensures (a + b) + c == a + (b + c)
  {
  }

  /** The wrapper header as the patch engine receives it. */
  lemma WrapperHeaderLine(isAbstract: bool, n: WrapperNames)
    ensures Terminated(WrapperHeader(isAbstract, n)) ==
      Lead(isAbstract) + n.publicName + " extends " + n.hiddenName + " with " + n.mixinName + " {\n"
  {
    var m, c := Modifier(isAbstract), "class ";
    var p, e, h, w, x := n.publicName, " extends ", n.hiddenName, " with ", n.mixinName;
    var D := c + p + e + h + w + x;
    assert WrapperDecl(n) == D;
    Assoc(m, D, " {");
    Assoc(m + D, " {", "\n");
    Assoc(m, c, p);
    Assoc(m, c + p, e);
    Assoc(m, c + p + e, h);
    Assoc(m, c + p + e + h, w);
    Assoc(m, c + p + e + h + w, x);
    Assoc(m + D, " {", "\n");
    assert " {" + "\n" == " {\n";
  }

  /** The `meta` line as the patch engine receives it. */
  lemma MetaLineText(k: AnnotationKind, n: WrapperNames)
    ensures Terminated(MetaLine(k, n)) == "  static const " + MetaType(k) + " meta = " + n.metaRef + ";\n"
  {
    Assoc("  static const " + MetaType(k) + " meta = " + n.metaRef, ";", "\n");
    assert ";" + "\n" == ";\n";
  }

  /** Lines shorter than the wrapper's declaration cannot declare it. */
  lemma NoWrapperInShortLines(lines: seq<string>, n: WrapperNames)
    requires forall t :: 0 <= t < |lines| ==> |lines[t]| < |WrapperDecl(n)|
    ensures !HasWrapper(lines, n)
  {
    forall t | 0 <= t < |lines|
      ensures !DeclaresWrapper(lines[t], n)
    {
    }
  }

  /** The accompanying suggestor finds nothing in an empty file
      (`test_empty`), whether it is read as no line or as one empty line. */
  lemma AccompanyEmpty()
    ensures SuggestAccompanying([]) == Success([])
    ensures SuggestAccompanying([""]) == Success([])
  {
  }

  /** The rename suggestor finds nothing in an empty file (`test_empty`). */
  lemma RenameEmpty()
    ensures SuggestRenames([]) == Success([])
    ensures SuggestRenames([""]) == Success([])
  {
  }

  /** The file of `test_no_match`: `@PropsMixin()` is not a recognised
      annotation. */
  lemma NoMatchQuiet(lines: seq<string>)
    requires lines == ["library foo;", "", "@PropsMixin()", "class FooPropsMixin implements UiProps {", "    String value;", "}"]
    ensures forall t, k :: 0 <= t < |lines| ==> !Invokes(lines[t], k)
  {
    forall t | 0 <= t < |lines| && t != 2
      ensures forall k :: !Invokes(lines[t], k)
    {
      NoInvokes(lines[t]);
    }
    PropsMixinInvokesNothing(lines[2]);
  }

  lemma PropsMixinInvokesNothing(line: string)
    requires line == "@PropsMixin()"
    ensures forall k :: !Invokes(line, k)
  {
    assert line[..6] == "@Props" && line[6] == 'M';
    assert line[1] == 'P';
    assert ("@" + KindName(AbstractProps))[1] == 'A' && ("@" + KindName(AbstractState))[1] == 'A';
    assert ("@" + KindName(State))[1] == 'S';
  }

  /** The accompanying suggestor suggests nothing for the file of
      `test_no_match`. */
  lemma AccompanyNoMatch(lines: seq<string>)
    requires lines == ["library foo;", "", "@PropsMixin()", "class FooPropsMixin implements UiProps {", "    String value;", "}"]
    ensures SuggestAccompanying(lines) == Success([])
  {
    NoMatchQuiet(lines);
  }

  /** The rename suggestor suggests nothing for the file of `test_no_match`. */
  lemma RenameNoMatch(lines: seq<string>)
    requires lines == ["library foo;", "", "@PropsMixin()", "class FooPropsMixin implements UiProps {", "    String value;", "}"]
    ensures SuggestRenames(lines) == Success([])
  {
    NoMatchQuiet(lines);
  }

  /** The rename suggestor on a shaped file whose identifier already carries
      the sigil: nothing to rename. */
  lemma RenameShapedHidden(pre: seq<string>, anns: seq<string>, h: Header, body: seq<string>, post: seq<string>, k: AnnotationKind)
    requires ShapeOk(pre, anns, h, body, post, k) && HasSigil(h.name)
    ensures SuggestRenames(Shaped(pre, anns, h, body, post)) == Success([])
  {
    ScanShaped(pre, anns, h, body, post, k);
    var d := ShapedDecl(pre, anns, h, body, k);
    assert !NeedsRename(d);
  }

  /** The accompanying suggestor on a shaped file none of whose lines is
      long enough to declare the wrapper: one insertion, `p`. */
  lemma AccompanyFile(lines: seq<string>, pre: seq<string>, anns: seq<string>, h: Header, body: seq<string>, post: seq<string>,
                      k: AnnotationKind, n: WrapperNames, d: Decl, p: Patch)
    requires ShapeOk(pre, anns, h, body, post, k) && Shaped(pre, anns, h, body, post) == lines
    requires NamesFor(h.name) == n
    requires forall t :: 0 <= t < |lines| ==> |lines[t]| < |WrapperDecl(n)|
    requires ShapedDecl(pre, anns, h, body, k) == d && AccompanyPatch(d) == p
    ensures SuggestAccompanying(lines) == Success([p])
  {
    NoWrapperInShortLines(lines, n);
    AccompanyShaped(pre, anns, h, body, post, k);
  }

  /** The accompanying suggestor on a shaped file whose line `t` already
      declares the wrapper: nothing to insert. */
  lemma AccompanyFileWrapped(lines: seq<string>, pre: seq<string>, anns: seq<string>, h: Header, body: seq<string>,
                             post: seq<string>, k: AnnotationKind, n: WrapperNames, t: nat)
    requires ShapeOk(pre, anns, h, body, post, k) && Shaped(pre, anns, h, body, post) == lines
    requires NamesFor(h.name) == n
    requires t < |lines| && DeclaresWrapper(lines[t], n)
    ensures SuggestAccompanying(lines) == Success([])
  {
    AccompanyShapedWrapped(pre, anns, h, body, post, k);
  }

  /** A line that starts with the wrapper's declaration, followed by
      something other than an identifier character, declares the wrapper. */
  lemma DeclaresWrapperLine(n: WrapperNames, rest: string)
    requires |rest| > 0 && !IsIdentChar(rest[0])
    ensures DeclaresWrapper(WrapperDecl(n) + rest, n)
  {
    var decl := WrapperDecl(n);
    var line := decl + rest;
    assert line[0] == 'c';
    assert line[..|decl|] == decl;
    assert line[|decl|] == rest[0];
  }

  /** Length of a wrapper declaration. */
  lemma WrapperDeclLength(n: WrapperNames)
    ensures |WrapperDecl(n)| == 21 + |n.publicName| + |n.hiddenName| + |n.mixinName|
  {
  }

  /** The rename suggestor on the file of `test_props`. */
  lemma RenameProps(lines: seq<string>)
    requires lines == ["library foo;", "", "@Props()", "class " + "FooProps" + " extends UiProps {", "    String foo;", "}"]
    ensures SuggestRenames(lines)
      == Success([Patch(2, 4, ["@Props()\n", "class " + "_$FooProps" + " extends UiProps {\n"])])
  {
    PreludeQuiet();
    PropsAnnotations();
    FooPropsOk();
    FieldBody();
    FooPropsRenamed();
    RenamePropsText();
    RenameShaped(["library foo;", ""], ["@Props()"], Header(false, "FooProps", "UiProps", "{"), ["    String foo;"], [], Props);
    RenamePropsPatch();
  }

  lemma RenamePropsText()
    ensures Shaped(["library foo;", ""], ["@Props()"], Header(false, "FooProps", "UiProps", "{"), ["    String foo;"], [])
      == ["library foo;", "", "@Props()", "class " + "FooProps" + " extends UiProps {", "    String foo;", "}"]
  {
    FooPropsLine();
  }

  lemma RenamePropsPatch()
    ensures TerminateAll(["@Props()"]) + [Terminated(HeaderText(Renamed(Header(false, "FooProps", "UiProps", "{"))))]
      == ["@Props()\n", "class " + "_$FooProps" + " extends UiProps {\n"]
  {
    TerminateAllOne("@Props()");
    FooPropsRenamed();
    FooPropsHidden();
    HiddenFooPropsLine();
    assert Terminated("@Props()") == "@Props()\n";
    assert Terminated("class " + "_$FooProps" + " extends UiProps {") == "class " + "_$FooProps" + " extends UiProps {\n";
  }

  /** The rename suggestor on the file of `test_state`. */
  lemma RenameState(lines: seq<string>)
    requires lines == ["library foo;", "", "@State()", "class " + "FooState" + " extends UiState {", "    String foo;", "}"]
    ensures SuggestRenames(lines)
      == Success([Patch(2, 4, ["@State()\n", "class " + "_$FooState" + " extends UiState {\n"])])
  {
    PreludeQuiet();
    StateAnnotations();
    FooStateOk();
    FieldBody();
    FooStateRenamed();
    RenameStateText();
    RenameShaped(["library foo;", ""], ["@State()"], Header(false, "FooState", "UiState", "{"), ["    String foo;"], [], State);
    RenameStatePatch();
  }

  lemma RenameStateText()
    ensures Shaped(["library foo;", ""], ["@State()"], Header(false, "FooState", "UiState", "{"), ["    String foo;"], [])
      == ["library foo;", "", "@State()", "class " + "FooState" + " extends UiState {", "    String foo;", "}"]
  {
    FooStateLine();
  }

  lemma RenameStatePatch()
    ensures TerminateAll(["@State()"]) + [Terminated(HeaderText(Renamed(Header(false, "FooState", "UiState", "{"))))]
      == ["@State()\n", "class " + "_$FooState" + " extends UiState {\n"]
  {
    TerminateAllOne("@State()");
    FooStateRenamed();
    FooStateHidden();
    HiddenFooStateLine();
    assert Terminated("@State()") == "@State()\n";
    assert Terminated("class " + "_$FooState" + " extends UiState {") == "class " + "_$FooState" + " extends UiState {\n";
  }

  /** The rename suggestor on the file of `test_abstract_props`. */
  lemma RenameAbstractProps(lines: seq<string>)
    requires lines == ["library foo;", "", "@AbstractProps()", "abstract class " + "AbstractFooProps" + " extends UiProps {", "    String get foo;", "}"]
    ensures SuggestRenames(lines)
      == Success([Patch(2, 4, ["@AbstractProps()\n", "abstract class " + "_$AbstractFooProps" + " extends UiProps {\n"])])
  {
    PreludeQuiet();
    AbstractPropsAnnotations();
    AbstractFooPropsOk();
    GetterBody();
    AbstractFooPropsRenamed();
    RenameAbstractPropsText();
    RenameShaped(["library foo;", ""], ["@AbstractProps()"], Header(true, "AbstractFooProps", "UiProps", "{"), ["    String get foo;"], [], AbstractProps);
    RenameAbstractPropsPatch();
  }

  lemma RenameAbstractPropsText()
    ensures Shaped(["library foo;", ""], ["@AbstractProps()"], Header(true, "AbstractFooProps", "UiProps", "{"), ["    String get foo;"], [])
      == ["library foo;", "", "@AbstractProps()", "abstract class " + "AbstractFooProps" + " extends UiProps {", "    String get foo;", "}"]
  {
    AbstractFooPropsLine();
  }

  lemma RenameAbstractPropsPatch()
    ensures TerminateAll(["@AbstractProps()"]) + [Terminated(HeaderText(Renamed(Header(true, "AbstractFooProps", "UiProps", "{"))))]
      == ["@AbstractProps()\n", "abstract class " + "_$AbstractFooProps" + " extends UiProps {\n"]
  {
    TerminateAllOne("@AbstractProps()");
    AbstractFooPropsRenamed();
    AbstractFooPropsHidden();
    HiddenAbstractFooPropsLine();
    assert Terminated("@AbstractProps()") == "@AbstractProps()\n";
    assert Terminated("abstract class " + "_$AbstractFooProps" + " extends UiProps {") == "abstract class " + "_$AbstractFooProps" + " extends UiProps {\n";
  }

  /** The rename suggestor on the file of `test_abstract_state`. */
  lemma RenameAbstractState(lines: seq<string>)
    requires lines == ["library foo;", "", "@AbstractState()", "abstract class " + "AbstractFooState" + " extends UiState {", "    String get foo;", "}"]
    ensures SuggestRenames(lines)
      == Success([Patch(2, 4, ["@AbstractState()\n", "abstract class " + "_$AbstractFooState" + " extends UiState {\n"])])
  {
    PreludeQuiet();
    AbstractStateAnnotations();
    AbstractFooStateOk();
    GetterBody();
    AbstractFooStateRenamed();
    RenameAbstractStateText();
    RenameShaped(["library foo;", ""], ["@AbstractState()"], Header(true, "AbstractFooState", "UiState", "{"), ["    String get foo;"], [], AbstractState);
    RenameAbstractStatePatch();
  }

  lemma RenameAbstractStateText()
    ensures Shaped(["library foo;", ""], ["@AbstractState()"], Header(true, "AbstractFooState", "UiState", "{"), ["    String get foo;"], [])
      == ["library foo;", "", "@AbstractState()", "abstract class " + "AbstractFooState" + " extends UiState {", "    String get foo;", "}"]
  {
    AbstractFooStateLine();
  }

  lemma RenameAbstractStatePatch()
    ensures TerminateAll(["@AbstractState()"]) + [Terminated(HeaderText(Renamed(Header(true, "AbstractFooState", "UiState", "{"))))]
      == ["@AbstractState()\n", "abstract class " + "_$AbstractFooState" + " extends UiState {\n"]
  {
    TerminateAllOne("@AbstractState()");
    AbstractFooStateRenamed();
    AbstractFooStateHidden();
    HiddenAbstractFooStateLine();
    assert Terminated("@AbstractState()") == "@AbstractState()\n";
    assert Terminated("abstract class " + "_$AbstractFooState" + " extends UiState {") == "abstract class " + "_$AbstractFooState" + " extends UiState {\n";
  }

  /** The rename suggestor on the file of `test_empty_class_body`. */
  lemma RenameEmptyClassBody(lines: seq<string>)
    requires lines == ["library foo;", "", "@Props()", "class " + "FooProps" + " extends UiProps {}"]
    ensures SuggestRenames(lines)
      == Success([Patch(2, 4, ["@Props()\n", "class " + "_$FooProps" + " extends UiProps {}\n"])])
  {
    PreludeQuiet();
    PropsAnnotations();
    EmptyFooPropsOk();
    EmptyBody();
    EmptyFooPropsRenamed();
    RenameEmptyClassBodyText();
    RenameShaped(["library foo;", ""], ["@Props()"], Header(false, "FooProps", "UiProps", "{}"), [], [], Props);
    RenameEmptyClassBodyPatch();
  }

  lemma RenameEmptyClassBodyText()
    ensures Shaped(["library foo;", ""], ["@Props()"], Header(false, "FooProps", "UiProps", "{}"), [], [])
      == ["library foo;", "", "@Props()", "class " + "FooProps" + " extends UiProps {}"]
  {
    EmptyFooPropsLine();
  }

  lemma RenameEmptyClassBodyPatch()
    ensures TerminateAll(["@Props()"]) + [Terminated(HeaderText(Renamed(Header(false, "FooProps", "UiProps", "{}"))))]
      == ["@Props()\n", "class " + "_$FooProps" + " extends UiProps {}\n"]
  {
    TerminateAllOne("@Props()");
    EmptyFooPropsRenamed();
    EmptyFooPropsHidden();
    HiddenEmptyFooPropsLine();
    assert Terminated("@Props()") == "@Props()\n";
    assert Terminated("class " + "_$FooProps" + " extends UiProps {}") == "class " + "_$FooProps" + " extends UiProps {}\n";
  }

  /** The rename suggestor on the file of `test_extra_annotation`. */
  lemma RenameExtraAnnotation(lines: seq<string>)
    requires lines == ["library foo;", "", "@Props()", "@Deprecated(\"3.0.0\")", "class " + "FooProps" + " extends UiProps {", "    String foo;", "}"]
    ensures SuggestRenames(lines)
      == Success([Patch(2, 5, ["@Props()\n", "@Deprecated(\"3.0.0\")\n", "class " + "_$FooProps" + " extends UiProps {\n"])])
  {
    PreludeQuiet();
    PropsDeprecatedAnnotations();
    FooPropsOk();
    FieldBody();
    FooPropsRenamed();
    RenameExtraAnnotationText();
    RenameShaped(["library foo;", ""], ["@Props()", "@Deprecated(\"3.0.0\")"], Header(false, "FooProps", "UiProps", "{"), ["    String foo;"], [], Props);
    RenameExtraAnnotationPatch();
  }

  lemma RenameExtraAnnotationText()
    ensures Shaped(["library foo;", ""], ["@Props()", "@Deprecated(\"3.0.0\")"], Header(false, "FooProps", "UiProps", "{"), ["    String foo;"], [])
      == ["library foo;", "", "@Props()", "@Deprecated(\"3.0.0\")", "class " + "FooProps" + " extends UiProps {", "    String foo;", "}"]
  {
    FooPropsLine();
  }

  lemma RenameExtraAnnotationPatch()
    ensures TerminateAll(["@Props()", "@Deprecated(\"3.0.0\")"]) + [Terminated(HeaderText(Renamed(Header(false, "FooProps", "UiProps", "{"))))]
      == ["@Props()\n", "@Deprecated(\"3.0.0\")\n", "class " + "_$FooProps" + " extends UiProps {\n"]
  {
    TerminateAllTwo("@Props()", "@Deprecated(\"3.0.0\")");
    FooPropsRenamed();
    FooPropsHidden();
    HiddenFooPropsLine();
    assert Terminated("@Props()") == "@Props()\n";
    assert Terminated("@Deprecated(\"3.0.0\")") == "@Deprecated(\"3.0.0\")\n";
    assert Terminated("class " + "_$FooProps" + " extends UiProps {") == "class " + "_$FooProps" + " extends UiProps {\n";
  }

  /** The rename suggestor on the file of `test_annotation_args`. */
  lemma RenameAnnotationArgs(lines: seq<string>)
    requires lines == ["library foo;", "", "@Props(keyNamespace: \"bar\")", "class " + "FooProps" + " extends UiProps {", "    String foo;", "}"]
    ensures SuggestRenames(lines)
      == Success([Patch(2, 4, ["@Props(keyNamespace: \"bar\")\n", "class " + "_$FooProps" + " extends UiProps {\n"])])
  {
    PreludeQuiet();
    PropsWithArgumentAnnotations();
    FooPropsOk();
    FieldBody();
    FooPropsRenamed();
    RenameAnnotationArgsText();
    RenameShaped(["library foo;", ""], ["@Props(keyNamespace: \"bar\")"], Header(false, "FooProps", "UiProps", "{"), ["    String foo;"], [], Props);
    RenameAnnotationArgsPatch();
  }

  lemma RenameAnnotationArgsText()
    ensures Shaped(["library foo;", ""], ["@Props(keyNamespace: \"bar\")"], Header(false, "FooProps", "UiProps", "{"), ["    String foo;"], [])
      == ["library foo;", "", "@Props(keyNamespace: \"bar\")", "class " + "FooProps" + " extends UiProps {", "    String foo;", "}"]
  {
    FooPropsLine();
  }

  lemma RenameAnnotationArgsPatch()
    ensures TerminateAll(["@Props(keyNamespace: \"bar\")"]) + [Terminated(HeaderText(Renamed(Header(false, "FooProps", "UiProps", "{"))))]
      == ["@Props(keyNamespace: \"bar\")\n", "class " + "_$FooProps" + " extends UiProps {\n"]
  {
    TerminateAllOne("@Props(keyNamespace: \"bar\")");
    FooPropsRenamed();
    FooPropsHidden();
    HiddenFooPropsLine();
    assert Terminated("@Props(keyNamespace: \"bar\")") == "@Props(keyNamespace: \"bar\")\n";
    assert Terminated("class " + "_$FooProps" + " extends UiProps {") == "class " + "_$FooProps" + " extends UiProps {\n";
  }

  /** The rename suggestor on the file of `test_private`. */
  lemma RenamePrivate(lines: seq<string>)
    requires lines == ["library foo;", "", "@Props()", "class " + "_PrivateFooProps" + " extends UiProps {", "    String foo;", "}"]
    ensures SuggestRenames(lines)
      == Success([Patch(2, 4, ["@Props()\n", "class " + "_$PrivateFooProps" + " extends UiProps {\n"])])
  {
    PreludeQuiet();
    PropsAnnotations();
    PrivateFooPropsOk();
    FieldBody();
    PrivateFooPropsRenamed();
    RenamePrivateText();
    RenameShaped(["library foo;", ""], ["@Props()"], Header(false, "_PrivateFooProps", "UiProps", "{"), ["    String foo;"], [], Props);
    RenamePrivatePatch();
  }

  lemma RenamePrivateText()
    ensures Shaped(["library foo;", ""], ["@Props()"], Header(false, "_PrivateFooProps", "UiProps", "{"), ["    String foo;"], [])
      == ["library foo;", "", "@Props()", "class " + "_PrivateFooProps" + " extends UiProps {", "    String foo;", "}"]
  {
    PrivateFooPropsLine();
  }

  lemma RenamePrivatePatch()
    ensures TerminateAll(["@Props()"]) + [Terminated(HeaderText(Renamed(Header(false, "_PrivateFooProps", "UiProps", "{"))))]
      == ["@Props()\n", "class " + "_$PrivateFooProps" + " extends UiProps {\n"]
  {
    TerminateAllOne("@Props()");
    PrivateFooPropsRenamed();
    PrivateFooPropsHidden();
    HiddenPrivateFooPropsLine();
    assert Terminated("@Props()") == "@Props()\n";
    assert Terminated("class " + "_$PrivateFooProps" + " extends UiProps {") == "class " + "_$PrivateFooProps" + " extends UiProps {\n";
  }

  /** The rename suggestor on the file of `test_special_chars`. */
  lemma RenameSpecialChars(lines: seq<string>)
    requires lines == ["library foo;", "", "@Props()", "class " + "Foo_Props" + " extends UiProps {", "    String foo;", "}"]
    ensures SuggestRenames(lines)
      == Success([Patch(2, 4, ["@Props()\n", "class " + "_$Foo_Props" + " extends UiProps {\n"])])
  {
    PreludeQuiet();
    PropsAnnotations();
    SpecialFooPropsOk();
    FieldBody();
    SpecialFooPropsRenamed();
    RenameSpecialCharsText();
    RenameShaped(["library foo;", ""], ["@Props()"], Header(false, "Foo_Props", "UiProps", "{"), ["    String foo;"], [], Props);
    RenameSpecialCharsPatch();
  }

  lemma RenameSpecialCharsText()
    ensures Shaped(["library foo;", ""], ["@Props()"], Header(false, "Foo_Props", "UiProps", "{"), ["    String foo;"], [])
      == ["library foo;", "", "@Props()", "class " + "Foo_Props" + " extends UiProps {", "    String foo;", "}"]
  {
    SpecialFooPropsLine();
  }

  lemma RenameSpecialCharsPatch()
    ensures TerminateAll(["@Props()"]) + [Terminated(HeaderText(Renamed(Header(false, "Foo_Props", "UiProps", "{"))))]
      == ["@Props()\n", "class " + "_$Foo_Props" + " extends UiProps {\n"]
  {
    TerminateAllOne("@Props()");
    SpecialFooPropsRenamed();
    SpecialFooPropsHidden();
    HiddenSpecialFooPropsLine();
    assert Terminated("@Props()") == "@Props()\n";
    assert Terminated("class " + "_$Foo_Props" + " extends UiProps {") == "class " + "_$Foo_Props" + " extends UiProps {\n";
  }

  /** The accompanying suggestor on the file of `test_props`. */
  lemma AccompanyProps(lines: seq<string>)
    requires lines == ["library foo;", "", "@Props()", "class " + "FooProps" + " extends UiProps {", "    String prop1;", "", "    bool prop2;", "}"]
    ensures SuggestAccompanying(lines) ==
      Success([Patch(8, 8, ["\n", MigrationComment + "\n", MixinIgnore + "\n", "class " + "FooProps" + " extends " + "_$FooProps" + " with " + "_$FooPropsAccessorsMixin" + " {\n", MetaIgnore + "\n", "  static const " + "PropsMeta" + " meta = " + "$metaForFooProps" + ";\n", "}\n"])])
  {
    PreludeQuiet();
    PropsAnnotations();
    FooPropsOk();
    TwoPropsBody();
    AccompanyPropsText();
    FooPropsNames();
    FooPropsSpelled();
    AccompanyPropsShort(lines, WrapperNames("FooProps", "_$FooProps", "_$FooPropsAccessorsMixin", "$metaForFooProps"));
    AccompanyPropsPatch(Decl(Props, 2, 3, 7, Header(false, "FooProps", "UiProps", "{")), WrapperNames("FooProps", "_$FooProps", "_$FooPropsAccessorsMixin", "$metaForFooProps"));
    AccompanyFile(lines, ["library foo;", ""], ["@Props()"], Header(false, "FooProps", "UiProps", "{"), ["    String prop1;", "", "    bool prop2;"], [], Props, WrapperNames("FooProps", "_$FooProps", "_$FooPropsAccessorsMixin", "$metaForFooProps"), Decl(Props, 2, 3, 7, Header(false, "FooProps", "UiProps", "{")),
      Patch(8, 8, ["\n", MigrationComment + "\n", MixinIgnore + "\n", "class " + "FooProps" + " extends " + "_$FooProps" + " with " + "_$FooPropsAccessorsMixin" + " {\n", MetaIgnore + "\n", "  static const " + "PropsMeta" + " meta = " + "$metaForFooProps" + ";\n", "}\n"]));
  }

  lemma AccompanyPropsText()
    ensures Shaped(["library foo;", ""], ["@Props()"], Header(false, "FooProps", "UiProps", "{"), ["    String prop1;", "", "    bool prop2;"], [])
      == ["library foo;", "", "@Props()", "class " + "FooProps" + " extends UiProps {", "    String prop1;", "", "    bool prop2;", "}"]
  {
    FooPropsLine();
  }

  lemma AccompanyPropsShort(lines: seq<string>, n: WrapperNames)
    requires lines == ["library foo;", "", "@Props()", "class " + "FooProps" + " extends UiProps {", "    String prop1;", "", "    bool prop2;", "}"]
    requires n == WrapperNames("FooProps", "_$FooProps", "_$FooPropsAccessorsMixin", "$metaForFooProps")
    ensures forall t :: 0 <= t < |lines| ==> |lines[t]| < |WrapperDecl(n)|
  {
    WrapperDeclLength(n);
  }

  lemma AccompanyPropsPatch(d: Decl, n: WrapperNames)
    requires d == Decl(Props, 2, 3, 7, Header(false, "FooProps", "UiProps", "{"))
    requires n == WrapperNames("FooProps", "_$FooProps", "_$FooPropsAccessorsMixin", "$metaForFooProps")
    ensures AccompanyPatch(d)
      == Patch(8, 8, ["\n", MigrationComment + "\n", MixinIgnore + "\n", "class " + "FooProps" + " extends " + "_$FooProps" + " with " + "_$FooPropsAccessorsMixin" + " {\n", MetaIgnore + "\n", "  static const " + "PropsMeta" + " meta = " + "$metaForFooProps" + ";\n", "}\n"])
  {
    FooPropsNames();
    FooPropsSpelled();
    FooPropsPlainHeader(n);
    FooPropsPropsMeta(n);
    AccompanyPatchSpelled(d, "class " + "FooProps" + " extends " + "_$FooProps" + " with " + "_$FooPropsAccessorsMixin" + " {\n", "  static const " + "PropsMeta" + " meta = " + "$metaForFooProps" + ";\n");
  }

  /** The accompanying suggestor on the file of `test_abstract_props`. */
  lemma AccompanyAbstractProps(lines: seq<string>)
    requires lines == ["library foo;", "", "@AbstractProps()", "abstract class " + "FooProps" + " extends UiProps {", "    String prop1;", "", "    bool prop2;", "}"]
    ensures SuggestAccompanying(lines) ==
      Success([Patch(8, 8, ["\n", MigrationComment + "\n", MixinIgnore + "\n", "abstract class " + "FooProps" + " extends " + "_$FooProps" + " with " + "_$FooPropsAccessorsMixin" + " {\n", MetaIgnore + "\n", "  static const " + "PropsMeta" + " meta = " + "$metaForFooProps" + ";\n", "}\n"])])
  {
    PreludeQuiet();
    AbstractPropsAnnotations();
    AbstractPlainFooPropsOk();
    TwoPropsBody();
    AccompanyAbstractPropsText();
    FooPropsNames();
    FooPropsSpelled();
    AccompanyAbstractPropsShort(lines, WrapperNames("FooProps", "_$FooProps", "_$FooPropsAccessorsMixin", "$metaForFooProps"));
    AccompanyAbstractPropsPatch(Decl(AbstractProps, 2, 3, 7, Header(true, "FooProps", "UiProps", "{")), WrapperNames("FooProps", "_$FooProps", "_$FooPropsAccessorsMixin", "$metaForFooProps"));
    AccompanyFile(lines, ["library foo;", ""], ["@AbstractProps()"], Header(true, "FooProps", "UiProps", "{"), ["    String prop1;", "", "    bool prop2;"], [], AbstractProps, WrapperNames("FooProps", "_$FooProps", "_$FooPropsAccessorsMixin", "$metaForFooProps"), Decl(AbstractProps, 2, 3, 7, Header(true, "FooProps", "UiProps", "{")),
      Patch(8, 8, ["\n", MigrationComment + "\n", MixinIgnore + "\n", "abstract class " + "FooProps" + " extends " + "_$FooProps" + " with " + "_$FooPropsAccessorsMixin" + " {\n", MetaIgnore + "\n", "  static const " + "PropsMeta" + " meta = " + "$metaForFooProps" + ";\n", "}\n"]));
  }

  lemma AccompanyAbstractPropsText()
    ensures Shaped(["library foo;", ""], ["@AbstractProps()"], Header(true, "FooProps", "UiProps", "{"), ["    String prop1;", "", "    bool prop2;"], [])
      == ["library foo;", "", "@AbstractProps()", "abstract class " + "FooProps" + " extends UiProps {", "    String prop1;", "", "    bool prop2;", "}"]
  {
    AbstractPlainFooPropsLine();
  }

  lemma AccompanyAbstractPropsShort(lines: seq<string>, n: WrapperNames)
    requires lines == ["library foo;", "", "@AbstractProps()", "abstract class " + "FooProps" + " extends UiProps {", "    String prop1;", "", "    bool prop2;", "}"]
    requires n == WrapperNames("FooProps", "_$FooProps", "_$FooPropsAccessorsMixin", "$metaForFooProps")
    ensures forall t :: 0 <= t < |lines| ==> |lines[t]| < |WrapperDecl(n)|
  {
    WrapperDeclLength(n);
  }

  lemma AccompanyAbstractPropsPatch(d: Decl, n: WrapperNames)
    requires d == Decl(AbstractProps, 2, 3, 7, Header(true, "FooProps", "UiProps", "{"))
    requires n == WrapperNames("FooProps", "_$FooProps", "_$FooPropsAccessorsMixin", "$metaForFooProps")
    ensures AccompanyPatch(d)
      == Patch(8, 8, ["\n", MigrationComment + "\n", MixinIgnore + "\n", "abstract class " + "FooProps" + " extends " + "_$FooProps" + " with " + "_$FooPropsAccessorsMixin" + " {\n", MetaIgnore + "\n", "  static const " + "PropsMeta" + " meta = " + "$metaForFooProps" + ";\n", "}\n"])
  {
    FooPropsNames();
    FooPropsSpelled();
    FooPropsAbstractHeader(n);
    FooPropsAbstractPropsMeta(n);
    AccompanyPatchSpelled(d, "abstract class " + "FooProps" + " extends " + "_$FooProps" + " with " + "_$FooPropsAccessorsMixin" + " {\n", "  static const " + "PropsMeta" + " meta = " + "$metaForFooProps" + ";\n");
  }

  /** The accompanying suggestor on the file of `test_state`. */
  lemma AccompanyState(lines: seq<string>)
    requires lines == ["library foo;", "", "@State()", "class " + "FooState" + " extends UiState {", "    String state1;", "", "    bool state2;", "}"]
    ensures SuggestAccompanying(lines) ==
      Success([Patch(8, 8, ["\n", MigrationComment + "\n", MixinIgnore + "\n", "class " + "FooState" + " extends " + "_$FooState" + " with " + "_$FooStateAccessorsMixin" + " {\n", MetaIgnore + "\n", "  static const " + "StateMeta" + " meta = " + "$metaForFooState" + ";\n", "}\n"])])
  {
    PreludeQuiet();
    StateAnnotations();
    FooStateOk();
    TwoStatesBody();
    AccompanyStateText();
    FooStateNames();
    FooStateSpelled();
    AccompanyStateShort(lines, WrapperNames("FooState", "_$FooState", "_$FooStateAccessorsMixin", "$metaForFooState"));
    AccompanyStatePatch(Decl(State, 2, 3, 7, Header(false, "FooState", "UiState", "{")), WrapperNames("FooState", "_$FooState", "_$FooStateAccessorsMixin", "$metaForFooState"));
    AccompanyFile(lines, ["library foo;", ""], ["@State()"], Header(false, "FooState", "UiState", "{"), ["    String state1;", "", "    bool state2;"], [], State, WrapperNames("FooState", "_$FooState", "_$FooStateAccessorsMixin", "$metaForFooState"), Decl(State, 2, 3, 7, Header(false, "FooState", "UiState", "{")),
      Patch(8, 8, ["\n", MigrationComment + "\n", MixinIgnore + "\n", "class " + "FooState" + " extends " + "_$FooState" + " with " + "_$FooStateAccessorsMixin" + " {\n", MetaIgnore + "\n", "  static const " + "StateMeta" + " meta = " + "$metaForFooState" + ";\n", "}\n"]));
  }

  lemma AccompanyStateText()
    ensures Shaped(["library foo;", ""], ["@State()"], Header(false, "FooState", "UiState", "{"), ["    String state1;", "", "    bool state2;"], [])
      == ["library foo;", "", "@State()", "class " + "FooState" + " extends UiState {", "    String state1;", "", "    bool state2;", "}"]
  {
    FooStateLine();
  }

  lemma AccompanyStateShort(lines: seq<string>, n: WrapperNames)
    requires lines == ["library foo;", "", "@State()", "class " + "FooState" + " extends UiState {", "    String state1;", "", "    bool state2;", "}"]
    requires n == WrapperNames("FooState", "_$FooState", "_$FooStateAccessorsMixin", "$metaForFooState")
    ensures forall t :: 0 <= t < |lines| ==> |lines[t]| < |WrapperDecl(n)|
  {
    WrapperDeclLength(n);
  }

  lemma AccompanyStatePatch(d: Decl, n: WrapperNames)
    requires d == Decl(State, 2, 3, 7, Header(false, "FooState", "UiState", "{"))
    requires n == WrapperNames("FooState", "_$FooState", "_$FooStateAccessorsMixin", "$metaForFooState")
    ensures AccompanyPatch(d)
      == Patch(8, 8, ["\n", MigrationComment + "\n", MixinIgnore + "\n", "class " + "FooState" + " extends " + "_$FooState" + " with " + "_$FooStateAccessorsMixin" + " {\n", MetaIgnore + "\n", "  static const " + "StateMeta" + " meta = " + "$metaForFooState" + ";\n", "}\n"])
  {
    FooStateNames();
    FooStateSpelled();
    FooStatePlainHeader(n);
    FooStateStateMeta(n);
    AccompanyPatchSpelled(d, "class " + "FooState" + " extends " + "_$FooState" + " with " + "_$FooStateAccessorsMixin" + " {\n", "  static const " + "StateMeta" + " meta = " + "$metaForFooState" + ";\n");
  }

  /** The accompanying suggestor on the file of `test_abstract_state`. */
  lemma AccompanyAbstractState(lines: seq<string>)
    requires lines == ["library foo;", "", "@AbstractState()", "abstract class " + "FooState" + " extends UiState {", "    String state1;", "", "    bool state2;", "}"]
    ensures SuggestAccompanying(lines) ==
      Success([Patch(8, 8, ["\n", MigrationComment + "\n", MixinIgnore + "\n", "abstract class " + "FooState" + " extends " + "_$FooState" + " with " + "_$FooStateAccessorsMixin" + " {\n", MetaIgnore + "\n", "  static const " + "StateMeta" + " meta = " + "$metaForFooState" + ";\n", "}\n"])])
  {
    PreludeQuiet();
    AbstractStateAnnotations();
    AbstractPlainFooStateOk();
    TwoStatesBody();
    AccompanyAbstractStateText();
    FooStateNames();
    FooStateSpelled();
    AccompanyAbstractStateShort(lines, WrapperNames("FooState", "_$FooState", "_$FooStateAccessorsMixin", "$metaForFooState"));
    AccompanyAbstractStatePatch(Decl(AbstractState, 2, 3, 7, Header(true, "FooState", "UiState", "{")), WrapperNames("FooState", "_$FooState", "_$FooStateAccessorsMixin", "$metaForFooState"));
    AccompanyFile(lines, ["library foo;", ""], ["@AbstractState()"], Header(true, "FooState", "UiState", "{"), ["    String state1;", "", "    bool state2;"], [], AbstractState, WrapperNames("FooState", "_$FooState", "_$FooStateAccessorsMixin", "$metaForFooState"), Decl(AbstractState, 2, 3, 7, Header(true, "FooState", "UiState", "{")),
      Patch(8, 8, ["\n", MigrationComment + "\n", MixinIgnore + "\n", "abstract class " + "FooState" + " extends " + "_$FooState" + " with " + "_$FooStateAccessorsMixin" + " {\n", MetaIgnore + "\n", "  static const " + "StateMeta" + " meta = " + "$metaForFooState" + ";\n", "}\n"]));
  }

  lemma AccompanyAbstractStateText()
    ensures Shaped(["library foo;", ""], ["@AbstractState()"], Header(true, "FooState", "UiState", "{"), ["    String state1;", "", "    bool state2;"], [])
      == ["library foo;", "", "@AbstractState()", "abstract class " + "FooState" + " extends UiState {", "    String state1;", "", "    bool state2;", "}"]
  {
    AbstractPlainFooStateLine();
  }

  lemma AccompanyAbstractStateShort(lines: seq<string>, n: WrapperNames)
    requires lines == ["library foo;", "", "@AbstractState()", "abstract class " + "FooState" + " extends UiState {", "    String state1;", "", "    bool state2;", "}"]
    requires n == WrapperNames("FooState", "_$FooState", "_$FooStateAccessorsMixin", "$metaForFooState")
    ensures forall t :: 0 <= t < |lines| ==> |lines[t]| < |WrapperDecl(n)|
  {
    WrapperDeclLength(n);
  }

  lemma AccompanyAbstractStatePatch(d: Decl, n: WrapperNames)
    requires d == Decl(AbstractState, 2, 3, 7, Header(true, "FooState", "UiState", "{"))
    requires n == WrapperNames("FooState", "_$FooState", "_$FooStateAccessorsMixin", "$metaForFooState")
    ensures AccompanyPatch(d)
      == Patch(8, 8, ["\n", MigrationComment + "\n", MixinIgnore + "\n", "abstract class " + "FooState" + " extends " + "_$FooState" + " with " + "_$FooStateAccessorsMixin" + " {\n", MetaIgnore + "\n", "  static const " + "StateMeta" + " meta = " + "$metaForFooState" + ";\n", "}\n"])
  {
    FooStateNames();
    FooStateSpelled();
    FooStateAbstractHeader(n);
    FooStateAbstractStateMeta(n);
    AccompanyPatchSpelled(d, "abstract class " + "FooState" + " extends " + "_$FooState" + " with " + "_$FooStateAccessorsMixin" + " {\n", "  static const " + "StateMeta" + " meta = " + "$metaForFooState" + ";\n");
  }

  /** The accompanying suggestor on the file of `test_annotation_with_arg`. */
  lemma AccompanyAnnotationWithArg(lines: seq<string>)
    requires lines == ["library foo;", "", "@Props(keyNamespace: 'test')", "class " + "FooProps" + " extends UiProps {", "    String prop1;", "", "    bool prop2;", "}"]
    ensures SuggestAccompanying(lines) ==
      Success([Patch(8, 8, ["\n", MigrationComment + "\n", MixinIgnore + "\n", "class " + "FooProps" + " extends " + "_$FooProps" + " with " + "_$FooPropsAccessorsMixin" + " {\n", MetaIgnore + "\n", "  static const " + "PropsMeta" + " meta = " + "$metaForFooProps" + ";\n", "}\n"])])
  {
    PreludeQuiet();
    PropsWithQuotedArgumentAnnotations();
    FooPropsOk();
    TwoPropsBody();
    AccompanyAnnotationWithArgText();
    FooPropsNames();
    FooPropsSpelled();
    AccompanyAnnotationWithArgShort(lines, WrapperNames("FooProps", "_$FooProps", "_$FooPropsAccessorsMixin", "$metaForFooProps"));
    AccompanyAnnotationWithArgPatch(Decl(Props, 2, 3, 7, Header(false, "FooProps", "UiProps", "{")), WrapperNames("FooProps", "_$FooProps", "_$FooPropsAccessorsMixin", "$metaForFooProps"));
    AccompanyFile(lines, ["library foo;", ""], ["@Props(keyNamespace: 'test')"], Header(false, "FooProps", "UiProps", "{"), ["    String prop1;", "", "    bool prop2;"], [], Props, WrapperNames("FooProps", "_$FooProps", "_$FooPropsAccessorsMixin", "$metaForFooProps"), Decl(Props, 2, 3, 7, Header(false, "FooProps", "UiProps", "{")),
      Patch(8, 8, ["\n", MigrationComment + "\n", MixinIgnore + "\n", "class " + "FooProps" + " extends " + "_$FooProps" + " with " + "_$FooPropsAccessorsMixin" + " {\n", MetaIgnore + "\n", "  static const " + "PropsMeta" + " meta = " + "$metaForFooProps" + ";\n", "}\n"]));
  }

  lemma AccompanyAnnotationWithArgText()
    ensures Shaped(["library foo;", ""], ["@Props(keyNamespace: 'test')"], Header(false, "FooProps", "UiProps", "{"), ["    String prop1;", "", "    bool prop2;"], [])
      == ["library foo;", "", "@Props(keyNamespace: 'test')", "class " + "FooProps" + " extends UiProps {", "    String prop1;", "", "    bool prop2;", "}"]
  {
    FooPropsLine();
  }

  lemma AccompanyAnnotationWithArgShort(lines: seq<string>, n: WrapperNames)
    requires lines == ["library foo;", "", "@Props(keyNamespace: 'test')", "class " + "FooProps" + " extends UiProps {", "    String prop1;", "", "    bool prop2;", "}"]
    requires n == WrapperNames("FooProps", "_$FooProps", "_$FooPropsAccessorsMixin", "$metaForFooProps")
    ensures forall t :: 0 <= t < |lines| ==> |lines[t]| < |WrapperDecl(n)|
  {
    WrapperDeclLength(n);
  }

  lemma AccompanyAnnotationWithArgPatch(d: Decl, n: WrapperNames)
    requires d == Decl(Props, 2, 3, 7, Header(false, "FooProps", "UiProps", "{"))
    requires n == WrapperNames("FooProps", "_$FooProps", "_$FooPropsAccessorsMixin", "$metaForFooProps")
    ensures AccompanyPatch(d)
      == Patch(8, 8, ["\n", MigrationComment + "\n", MixinIgnore + "\n", "class " + "FooProps" + " extends " + "_$FooProps" + " with " + "_$FooPropsAccessorsMixin" + " {\n", MetaIgnore + "\n", "  static const " + "PropsMeta" + " meta = " + "$metaForFooProps" + ";\n", "}\n"])
  {
    FooPropsNames();
    FooPropsSpelled();
    FooPropsPlainHeader(n);
    FooPropsPropsMeta(n);
    AccompanyPatchSpelled(d, "class " + "FooProps" + " extends " + "_$FooProps" + " with " + "_$FooPropsAccessorsMixin" + " {\n", "  static const " + "PropsMeta" + " meta = " + "$metaForFooProps" + ";\n");
  }

  /** The accompanying suggestor on the file of `test_multiple_annotations`. */
  lemma AccompanyMultipleAnnotations(lines: seq<string>)
    requires lines == ["library foo;", "", "@Props()", "@Deprecated('3.0.0')", "class " + "FooProps" + " extends UiProps {", "    String prop1;", "", "    bool prop2;", "}"]
    ensures SuggestAccompanying(lines) ==
      Success([Patch(9, 9, ["\n", MigrationComment + "\n", MixinIgnore + "\n", "class " + "FooProps" + " extends " + "_$FooProps" + " with " + "_$FooPropsAccessorsMixin" + " {\n", MetaIgnore + "\n", "  static const " + "PropsMeta" + " meta = " + "$metaForFooProps" + ";\n", "}\n"])])
  {
    PreludeQuiet();
    PropsDeprecatedQuotedAnnotations();
    FooPropsOk();
    TwoPropsBody();
    AccompanyMultipleAnnotationsText();
    FooPropsNames();
    FooPropsSpelled();
    AccompanyMultipleAnnotationsShort(lines, WrapperNames("FooProps", "_$FooProps", "_$FooPropsAccessorsMixin", "$metaForFooProps"));
    AccompanyMultipleAnnotationsPatch(Decl(Props, 2, 4, 8, Header(false, "FooProps", "UiProps", "{")), WrapperNames("FooProps", "_$FooProps", "_$FooPropsAccessorsMixin", "$metaForFooProps"));
    AccompanyFile(lines, ["library foo;", ""], ["@Props()", "@Deprecated('3.0.0')"], Header(false, "FooProps", "UiProps", "{"), ["    String prop1;", "", "    bool prop2;"], [], Props, WrapperNames("FooProps", "_$FooProps", "_$FooPropsAccessorsMixin", "$metaForFooProps"), Decl(Props, 2, 4, 8, Header(false, "FooProps", "UiProps", "{")),
      Patch(9, 9, ["\n", MigrationComment + "\n", MixinIgnore + "\n", "class " + "FooProps" + " extends " + "_$FooProps" + " with " + "_$FooPropsAccessorsMixin" + " {\n", MetaIgnore + "\n", "  static const " + "PropsMeta" + " meta = " + "$metaForFooProps" + ";\n", "}\n"]));
  }

  lemma AccompanyMultipleAnnotationsText()
    ensures Shaped(["library foo;", ""], ["@Props()", "@Deprecated('3.0.0')"], Header(false, "FooProps", "UiProps", "{"), ["    String prop1;", "", "    bool prop2;"], [])
      == ["library foo;", "", "@Props()", "@Deprecated('3.0.0')", "class " + "FooProps" + " extends UiProps {", "    String prop1;", "", "    bool prop2;", "}"]
  {
    FooPropsLine();
  }

  lemma AccompanyMultipleAnnotationsShort(lines: seq<string>, n: WrapperNames)
    requires lines == ["library foo;", "", "@Props()", "@Deprecated('3.0.0')", "class " + "FooProps" + " extends UiProps {", "    String prop1;", "", "    bool prop2;", "}"]
    requires n == WrapperNames("FooProps", "_$FooProps", "_$FooPropsAccessorsMixin", "$metaForFooProps")
    ensures forall t :: 0 <= t < |lines| ==> |lines[t]| < |WrapperDecl(n)|
  {
    WrapperDeclLength(n);
  }

  lemma AccompanyMultipleAnnotationsPatch(d: Decl, n: WrapperNames)
    requires d == Decl(Props, 2, 4, 8, Header(false, "FooProps", "UiProps", "{"))
    requires n == WrapperNames("FooProps", "_$FooProps", "_$FooPropsAccessorsMixin", "$metaForFooProps")
    ensures AccompanyPatch(d)
      == Patch(9, 9, ["\n", MigrationComment + "\n", MixinIgnore + "\n", "class " + "FooProps" + " extends " + "_$FooProps" + " with " + "_$FooPropsAccessorsMixin" + " {\n", MetaIgnore + "\n", "  static const " + "PropsMeta" + " meta = " + "$metaForFooProps" + ";\n", "}\n"])
  {
    FooPropsNames();
    FooPropsSpelled();
    FooPropsPlainHeader(n);
    FooPropsPropsMeta(n);
    AccompanyPatchSpelled(d, "class " + "FooProps" + " extends " + "_$FooProps" + " with " + "_$FooPropsAccessorsMixin" + " {\n", "  static const " + "PropsMeta" + " meta = " + "$metaForFooProps" + ";\n");
  }

  /** The accompanying suggestor on the file of `test_private_class`. */
  lemma AccompanyPrivateClass(lines: seq<string>)
    requires lines == ["library foo;", "", "@Props()", "class " + "_FooProps" + " extends UiProps {", "    String prop1;", "}"]
    ensures SuggestAccompanying(lines) ==
      Success([Patch(6, 6, ["\n", MigrationComment + "\n", MixinIgnore + "\n", "class " + "_FooProps" + " extends " + "_$FooProps" + " with " + "_$FooPropsAccessorsMixin" + " {\n", MetaIgnore + "\n", "  static const " + "PropsMeta" + " meta = " + "_$metaForFooProps" + ";\n", "}\n"])])
  {
    PreludeQuiet();
    PropsAnnotations();
    UnderscoreFooPropsOk();
    OnePropBody();
    AccompanyPrivateClassText();
    PrivateFooPropsNames();
    PrivateFooPropsSpelled();
    AccompanyPrivateClassShort(lines, WrapperNames("_FooProps", "_$FooProps", "_$FooPropsAccessorsMixin", "_$metaForFooProps"));
    AccompanyPrivateClassPatch(Decl(Props, 2, 3, 5, Header(false, "_FooProps", "UiProps", "{")), WrapperNames("_FooProps", "_$FooProps", "_$FooPropsAccessorsMixin", "_$metaForFooProps"));
    AccompanyFile(lines, ["library foo;", ""], ["@Props()"], Header(false, "_FooProps", "UiProps", "{"), ["    String prop1;"], [], Props, WrapperNames("_FooProps", "_$FooProps", "_$FooPropsAccessorsMixin", "_$metaForFooProps"), Decl(Props, 2, 3, 5, Header(false, "_FooProps", "UiProps", "{")),
      Patch(6, 6, ["\n", MigrationComment + "\n", MixinIgnore + "\n", "class " + "_FooProps" + " extends " + "_$FooProps" + " with " + "_$FooPropsAccessorsMixin" + " {\n", MetaIgnore + "\n", "  static const " + "PropsMeta" + " meta = " + "_$metaForFooProps" + ";\n", "}\n"]));
  }

  lemma AccompanyPrivateClassText()
    ensures Shaped(["library foo;", ""], ["@Props()"], Header(false, "_FooProps", "UiProps", "{"), ["    String prop1;"], [])
      == ["library foo;", "", "@Props()", "class " + "_FooProps" + " extends UiProps {", "    String prop1;", "}"]
  {
    UnderscoreFooPropsLine();
  }

  lemma AccompanyPrivateClassShort(lines: seq<string>, n: WrapperNames)
    requires lines == ["library foo;", "", "@Props()", "class " + "_FooProps" + " extends UiProps {", "    String prop1;", "}"]
    requires n == WrapperNames("_FooProps", "_$FooProps", "_$FooPropsAccessorsMixin", "_$metaForFooProps")
    ensures forall t :: 0 <= t < |lines| ==> |lines[t]| < |WrapperDecl(n)|
  {
    WrapperDeclLength(n);
  }

  lemma AccompanyPrivateClassPatch(d: Decl, n: WrapperNames)
    requires d == Decl(Props, 2, 3, 5, Header(false, "_FooProps", "UiProps", "{"))
    requires n == WrapperNames("_FooProps", "_$FooProps", "_$FooPropsAccessorsMixin", "_$metaForFooProps")
    ensures AccompanyPatch(d)
      == Patch(6, 6, ["\n", MigrationComment + "\n", MixinIgnore + "\n", "class " + "_FooProps" + " extends " + "_$FooProps" + " with " + "_$FooPropsAccessorsMixin" + " {\n", MetaIgnore + "\n", "  static const " + "PropsMeta" + " meta = " + "_$metaForFooProps" + ";\n", "}\n"])
  {
    PrivateFooPropsNames();
    PrivateFooPropsSpelled();
    PrivateFooPropsPlainHeader(n);
    PrivateFooPropsPropsMeta(n);
    AccompanyPatchSpelled(d, "class " + "_FooProps" + " extends " + "_$FooProps" + " with " + "_$FooPropsAccessorsMixin" + " {\n", "  static const " + "PropsMeta" + " meta = " + "_$metaForFooProps" + ";\n");
  }

  /** The accompanying suggestor on the file of `test_already_renamed`. */
  lemma AccompanyAlreadyRenamed(lines: seq<string>)
    requires lines == ["library foo;", "", "@Props()", "class " + "_$FooProps" + " extends UiProps {", "    String prop1;", "", "    bool prop2;", "}"]
    ensures SuggestAccompanying(lines) ==
      Success([Patch(8, 8, ["\n", MigrationComment + "\n", MixinIgnore + "\n", "class " + "FooProps" + " extends " + "_$FooProps" + " with " + "_$FooPropsAccessorsMixin" + " {\n", MetaIgnore + "\n", "  static const " + "PropsMeta" + " meta = " + "$metaForFooProps" + ";\n", "}\n"])])
  {
    PreludeQuiet();
    PropsAnnotations();
    HiddenFooPropsOk();
    TwoPropsBody();
    AccompanyAlreadyRenamedText();
    HiddenFooPropsNames();
    HiddenFooPropsSpelled();
    AccompanyAlreadyRenamedShort(lines, WrapperNames("FooProps", "_$FooProps", "_$FooPropsAccessorsMixin", "$metaForFooProps"));
    AccompanyAlreadyRenamedPatch(Decl(Props, 2, 3, 7, Header(false, "_$FooProps", "UiProps", "{")), WrapperNames("FooProps", "_$FooProps", "_$FooPropsAccessorsMixin", "$metaForFooProps"));
    AccompanyFile(lines, ["library foo;", ""], ["@Props()"], Header(false, "_$FooProps", "UiProps", "{"), ["    String prop1;", "", "    bool prop2;"], [], Props, WrapperNames("FooProps", "_$FooProps", "_$FooPropsAccessorsMixin", "$metaForFooProps"), Decl(Props, 2, 3, 7, Header(false, "_$FooProps", "UiProps", "{")),
      Patch(8, 8, ["\n", MigrationComment + "\n", MixinIgnore + "\n", "class " + "FooProps" + " extends " + "_$FooProps" + " with " + "_$FooPropsAccessorsMixin" + " {\n", MetaIgnore + "\n", "  static const " + "PropsMeta" + " meta = " + "$metaForFooProps" + ";\n", "}\n"]));
  }

  lemma AccompanyAlreadyRenamedText()
    ensures Shaped(["library foo;", ""], ["@Props()"], Header(false, "_$FooProps", "UiProps", "{"), ["    String prop1;", "", "    bool prop2;"], [])
      == ["library foo;", "", "@Props()", "class " + "_$FooProps" + " extends UiProps {", "    String prop1;", "", "    bool prop2;", "}"]
  {
    HiddenFooPropsLine();
  }

  lemma AccompanyAlreadyRenamedShort(lines: seq<string>, n: WrapperNames)
    requires lines == ["library foo;", "", "@Props()", "class " + "_$FooProps" + " extends UiProps {", "    String prop1;", "", "    bool prop2;", "}"]
    requires n == WrapperNames("FooProps", "_$FooProps", "_$FooPropsAccessorsMixin", "$metaForFooProps")
    ensures forall t :: 0 <= t < |lines| ==> |lines[t]| < |WrapperDecl(n)|
  {
    WrapperDeclLength(n);
  }

  lemma AccompanyAlreadyRenamedPatch(d: Decl, n: WrapperNames)
    requires d == Decl(Props, 2, 3, 7, Header(false, "_$FooProps", "UiProps", "{"))
    requires n == WrapperNames("FooProps", "_$FooProps", "_$FooPropsAccessorsMixin", "$metaForFooProps")
    ensures AccompanyPatch(d)
      == Patch(8, 8, ["\n", MigrationComment + "\n", MixinIgnore + "\n", "class " + "FooProps" + " extends " + "_$FooProps" + " with " + "_$FooPropsAccessorsMixin" + " {\n", MetaIgnore + "\n", "  static const " + "PropsMeta" + " meta = " + "$metaForFooProps" + ";\n", "}\n"])
  {
    HiddenFooPropsNames();
    HiddenFooPropsSpelled();
    HiddenFooPropsPlainHeader(n);
    HiddenFooPropsPropsMeta(n);
    AccompanyPatchSpelled(d, "class " + "FooProps" + " extends " + "_$FooProps" + " with " + "_$FooPropsAccessorsMixin" + " {\n", "  static const " + "PropsMeta" + " meta = " + "$metaForFooProps" + ";\n");
  }

  lemma FooPropsAbstractHeader(n: WrapperNames)
    requires n == WrapperNames("FooProps", "_$FooProps", "_$FooPropsAccessorsMixin", "$metaForFooProps")
    ensures Terminated(WrapperHeader(true, n))
      == "abstract class " + "FooProps" + " extends " + "_$FooProps" + " with " + "_$FooPropsAccessorsMixin" + " {\n"
  {
    WrapperHeaderLine(true, n);
    assert Lead(true) == "abstract class ";
  }

  lemma FooPropsPlainHeader(n: WrapperNames)
    requires n == WrapperNames("FooProps", "_$FooProps", "_$FooPropsAccessorsMixin", "$metaForFooProps")
    ensures Terminated(WrapperHeader(false, n))
      == "class " + "FooProps" + " extends " + "_$FooProps" + " with " + "_$FooPropsAccessorsMixin" + " {\n"
  {
    WrapperHeaderLine(false, n);
  }

  lemma FooStateAbstractHeader(n: WrapperNames)
    requires n == WrapperNames("FooState", "_$FooState", "_$FooStateAccessorsMixin", "$metaForFooState")
    ensures Terminated(WrapperHeader(true, n))
      == "abstract class " + "FooState" + " extends " + "_$FooState" + " with " + "_$FooStateAccessorsMixin" + " {\n"
  {
    WrapperHeaderLine(true, n);
    assert Lead(true) == "abstract class ";
  }

  lemma FooStatePlainHeader(n: WrapperNames)
    requires n == WrapperNames("FooState", "_$FooState", "_$FooStateAccessorsMixin", "$metaForFooState")
    ensures Terminated(WrapperHeader(false, n))
      == "class " + "FooState" + " extends " + "_$FooState" + " with " + "_$FooStateAccessorsMixin" + " {\n"
  {
    WrapperHeaderLine(false, n);
  }

  lemma HiddenFooPropsPlainHeader(n: WrapperNames)
    requires n == WrapperNames("FooProps", "_$FooProps", "_$FooPropsAccessorsMixin", "$metaForFooProps")
    ensures Terminated(WrapperHeader(false, n))
      == "class " + "FooProps" + " extends " + "_$FooProps" + " with " + "_$FooPropsAccessorsMixin" + " {\n"
  {
    WrapperHeaderLine(false, n);
  }

  lemma PrivateFooPropsPlainHeader(n: WrapperNames)
    requires n == WrapperNames("_FooProps", "_$FooProps", "_$FooPropsAccessorsMixin", "_$metaForFooProps")
    ensures Terminated(WrapperHeader(false, n))
      == "class " + "_FooProps" + " extends " + "_$FooProps" + " with " + "_$FooPropsAccessorsMixin" + " {\n"
  {
    WrapperHeaderLine(false, n);
  }

  lemma FooPropsAbstractPropsMeta(n: WrapperNames)
    requires n == WrapperNames("FooProps", "_$FooProps", "_$FooPropsAccessorsMixin", "$metaForFooProps")
    ensures Terminated(MetaLine(AbstractProps, n))
      == "  static const " + "PropsMeta" + " meta = " + "$metaForFooProps" + ";\n"
  {
    MetaLineText(AbstractProps, n);
  }

  lemma FooPropsPropsMeta(n: WrapperNames)
    requires n == WrapperNames("FooProps", "_$FooProps", "_$FooPropsAccessorsMixin", "$metaForFooProps")
    ensures Terminated(MetaLine(Props, n))
      == "  static const " + "PropsMeta" + " meta = " + "$metaForFooProps" + ";\n"
  {
    MetaLineText(Props, n);
  }

  lemma FooStateAbstractStateMeta(n: WrapperNames)
    requires n == WrapperNames("FooState", "_$FooState", "_$FooStateAccessorsMixin", "$metaForFooState")
    ensures Terminated(MetaLine(AbstractState, n))
      == "  static const " + "StateMeta" + " meta = " + "$metaForFooState" + ";\n"
  {
    MetaLineText(AbstractState, n);
  }

  lemma FooStateStateMeta(n: WrapperNames)
    requires n == WrapperNames("FooState", "_$FooState", "_$FooStateAccessorsMixin", "$metaForFooState")
    ensures Terminated(MetaLine(State, n))
      == "  static const " + "StateMeta" + " meta = " + "$metaForFooState" + ";\n"
  {
    MetaLineText(State, n);
  }

  lemma HiddenFooPropsPropsMeta(n: WrapperNames)
    requires n == WrapperNames("FooProps", "_$FooProps", "_$FooPropsAccessorsMixin", "$metaForFooProps")
    ensures Terminated(MetaLine(Props, n))
      == "  static const " + "PropsMeta" + " meta = " + "$metaForFooProps" + ";\n"
  {
    MetaLineText(Props, n);
  }

  lemma PrivateFooPropsPropsMeta(n: WrapperNames)
    requires n == WrapperNames("_FooProps", "_$FooProps", "_$FooPropsAccessorsMixin", "_$metaForFooProps")
    ensures Terminated(MetaLine(Props, n))
      == "  static const " + "PropsMeta" + " meta = " + "_$metaForFooProps" + ";\n"
  {
    MetaLineText(Props, n);
  }

  /** The accompanying suggestor on the file of `test_already_added`: the
      wrapper already follows the hidden class, so nothing is inserted. */
  lemma AccompanyAlreadyAdded(lines: seq<string>)
    requires lines == ["library foo;", "", "@Props()", "class " + "_$FooProps" + " extends UiProps {", "    String prop1;", "", "    bool prop2;", "}", "", "class " + "FooProps" + " extends " + "_$FooProps" + " with " + "_$FooPropsAccessorsMixin" + " {}"]
    ensures SuggestAccompanying(lines) == Success([])
  {
    PreludeQuiet();
    PropsAnnotations();
    HiddenFooPropsOk();
    TwoPropsBody();
    AlreadyAddedQuiet();
    AccompanyAlreadyAddedText();
    HiddenFooPropsNames();
    HiddenFooPropsSpelled();
    AlreadyAddedDeclares(lines, WrapperNames("FooProps", "_$FooProps", "_$FooPropsAccessorsMixin", "$metaForFooProps"));
    AccompanyFileWrapped(lines, ["library foo;", ""], ["@Props()"], Header(false, "_$FooProps", "UiProps", "{"), ["    String prop1;", "", "    bool prop2;"], ["", "class " + "FooProps" + " extends " + "_$FooProps" + " with " + "_$FooPropsAccessorsMixin" + " {}"], Props, WrapperNames("FooProps", "_$FooProps", "_$FooPropsAccessorsMixin", "$metaForFooProps"), 9);
  }

  /** The rename suggestor on the file of `test_already_added`: the class
      is already hidden, so nothing is renamed. */
  lemma RenameAlreadyAdded(lines: seq<string>)
    requires lines == ["library foo;", "", "@Props()", "class " + "_$FooProps" + " extends UiProps {", "    String prop1;", "", "    bool prop2;", "}", "", "class " + "FooProps" + " extends " + "_$FooProps" + " with " + "_$FooPropsAccessorsMixin" + " {}"]
    ensures SuggestRenames(lines) == Success([])
  {
    PreludeQuiet();
    PropsAnnotations();
    HiddenFooPropsOk();
    TwoPropsBody();
    AlreadyAddedQuiet();
    AccompanyAlreadyAddedText();
    HiddenFooPropsSigil();
    RenameShapedHidden(["library foo;", ""], ["@Props()"], Header(false, "_$FooProps", "UiProps", "{"), ["    String prop1;", "", "    bool prop2;"], ["", "class " + "FooProps" + " extends " + "_$FooProps" + " with " + "_$FooPropsAccessorsMixin" + " {}"], Props);
  }

  /** The rename suggestor on the file of
      `test_already_renamed_but_missing_accompanying_class`: nothing to rename. */
  lemma RenameAlreadyRenamed(lines: seq<string>)
    requires lines == ["library foo;", "", "@Props()", "class " + "_$FooProps" + " extends UiProps {", "    String prop1;", "", "    bool prop2;", "}"]
    ensures SuggestRenames(lines) == Success([])
  {
    PreludeQuiet();
    PropsAnnotations();
    HiddenFooPropsOk();
    TwoPropsBody();
    AccompanyAlreadyRenamedText();
    HiddenFooPropsSigil();
    RenameShapedHidden(["library foo;", ""], ["@Props()"], Header(false, "_$FooProps", "UiProps", "{"), ["    String prop1;", "", "    bool prop2;"], [], Props);
  }

  lemma HiddenFooPropsSigil()
    ensures HasSigil("_$FooProps")
  {
  }

  lemma AccompanyAlreadyAddedText()
    ensures Shaped(["library foo;", ""], ["@Props()"], Header(false, "_$FooProps", "UiProps", "{"), ["    String prop1;", "", "    bool prop2;"], ["", "class " + "FooProps" + " extends " + "_$FooProps" + " with " + "_$FooPropsAccessorsMixin" + " {}"])
      == ["library foo;", "", "@Props()", "class " + "_$FooProps" + " extends UiProps {", "    String prop1;", "", "    bool prop2;", "}", "", "class " + "FooProps" + " extends " + "_$FooProps" + " with " + "_$FooPropsAccessorsMixin" + " {}"]
  {
    HiddenFooPropsLine();
  }

  lemma AlreadyAddedQuiet()
    ensures Quiet(["", "class " + "FooProps" + " extends " + "_$FooProps" + " with " + "_$FooPropsAccessorsMixin" + " {}"])
  {
  }

  lemma AlreadyAddedDeclares(lines: seq<string>, n: WrapperNames)
    requires lines == ["library foo;", "", "@Props()", "class " + "_$FooProps" + " extends UiProps {", "    String prop1;", "", "    bool prop2;", "}", "", "class " + "FooProps" + " extends " + "_$FooProps" + " with " + "_$FooPropsAccessorsMixin" + " {}"]
    requires n == WrapperNames("FooProps", "_$FooProps", "_$FooPropsAccessorsMixin", "$metaForFooProps")
    ensures DeclaresWrapper(lines[9], n)
  {
    DeclaresWrapperLine(n, " {}");
  }

  lemma PreludeQuiet()
    ensures Quiet(["library foo;", ""])
  {
  }

  lemma AbstractPropsAnnotations()
    ensures AnnotationsOk(["@AbstractProps()"], AbstractProps)
  {
  }

  lemma AbstractStateAnnotations()
    ensures AnnotationsOk(["@AbstractState()"], AbstractState)
  {
  }

  lemma PropsAnnotations()
    ensures AnnotationsOk(["@Props()"], Props)
  {
  }

  lemma PropsDeprecatedAnnotations()
    ensures AnnotationsOk(["@Props()", "@Deprecated(\"3.0.0\")"], Props)
  {
  }

  lemma PropsDeprecatedQuotedAnnotations()
    ensures AnnotationsOk(["@Props()", "@Deprecated('3.0.0')"], Props)
  {
  }

  lemma PropsWithArgumentAnnotations()
    ensures AnnotationsOk(["@Props(keyNamespace: \"bar\")"], Props)
  {
  }

  lemma PropsWithQuotedArgumentAnnotations()
    ensures AnnotationsOk(["@Props(keyNamespace: 'test')"], Props)
  {
  }

  lemma StateAnnotations()
    ensures AnnotationsOk(["@State()"], State)
  {
  }

  lemma EmptyBody()
    ensures BodyOk("{}", [])
  {
  }

  lemma FieldBody()
    ensures BodyOk("{", ["    String foo;"])
  {
  }

  lemma GetterBody()
    ensures BodyOk("{", ["    String get foo;"])
  {
  }

  lemma OnePropBody()
    ensures BodyOk("{", ["    String prop1;"])
  {
  }

  lemma TwoPropsBody()
    ensures BodyOk("{", ["    String prop1;", "", "    bool prop2;"])
  {
  }

  lemma TwoStatesBody()
    ensures BodyOk("{", ["    String state1;", "", "    bool state2;"])
  {
  }

  lemma AbstractFooPropsOk()
    ensures HeaderOk(Header(true, "AbstractFooProps", "UiProps", "{"), AbstractProps)
  {
  }

  lemma AbstractFooStateOk()
    ensures HeaderOk(Header(true, "AbstractFooState", "UiState", "{"), AbstractState)
  {
  }

  lemma AbstractPlainFooPropsOk()
    ensures HeaderOk(Header(true, "FooProps", "UiProps", "{"), AbstractProps)
  {
  }

  lemma AbstractPlainFooStateOk()
    ensures HeaderOk(Header(true, "FooState", "UiState", "{"), AbstractState)
  {
  }

  lemma EmptyFooPropsOk()
    ensures HeaderOk(Header(false, "FooProps", "UiProps", "{}"), Props)
  {
  }

  lemma FooPropsOk()
    ensures HeaderOk(Header(false, "FooProps", "UiProps", "{"), Props)
  {
  }

  lemma FooStateOk()
    ensures HeaderOk(Header(false, "FooState", "UiState", "{"), State)
  {
  }

  lemma HiddenFooPropsOk()
    ensures HeaderOk(Header(false, "_$FooProps", "UiProps", "{"), Props)
  {
  }

  lemma PrivateFooPropsOk()
    ensures HeaderOk(Header(false, "_PrivateFooProps", "UiProps", "{"), Props)
  {
  }

  lemma SpecialFooPropsOk()
    ensures HeaderOk(Header(false, "Foo_Props", "UiProps", "{"), Props)
  {
  }

  lemma UnderscoreFooPropsOk()
    ensures HeaderOk(Header(false, "_FooProps", "UiProps", "{"), Props)
  {
  }

  lemma AbstractFooPropsRenamed()
    ensures !HasSigil("AbstractFooProps")
    ensures Renamed(Header(true, "AbstractFooProps", "UiProps", "{"))
      == Header(true, "_$" + "AbstractFooProps", "UiProps", "{")
  {
    SigilLead("AbstractFooProps");
    assert !IsPrivate("AbstractFooProps");
  }

  lemma AbstractFooPropsHidden()
    ensures "_$" + "AbstractFooProps" == "_$AbstractFooProps"
  {
  }

  lemma AbstractFooStateRenamed()
    ensures !HasSigil("AbstractFooState")
    ensures Renamed(Header(true, "AbstractFooState", "UiState", "{"))
      == Header(true, "_$" + "AbstractFooState", "UiState", "{")
  {
    SigilLead("AbstractFooState");
    assert !IsPrivate("AbstractFooState");
  }

  lemma AbstractFooStateHidden()
    ensures "_$" + "AbstractFooState" == "_$AbstractFooState"
  {
  }

  lemma EmptyFooPropsRenamed()
    ensures !HasSigil("FooProps")
    ensures Renamed(Header(false, "FooProps", "UiProps", "{}"))
      == Header(false, "_$" + "FooProps", "UiProps", "{}")
  {
    SigilLead("FooProps");
    assert !IsPrivate("FooProps");
  }

  lemma EmptyFooPropsHidden()
    ensures "_$" + "FooProps" == "_$FooProps"
  {
  }

  lemma FooPropsRenamed()
    ensures !HasSigil("FooProps")
    ensures Renamed(Header(false, "FooProps", "UiProps", "{"))
      == Header(false, "_$" + "FooProps", "UiProps", "{")
  {
    SigilLead("FooProps");
    assert !IsPrivate("FooProps");
  }

  lemma FooPropsHidden()
    ensures "_$" + "FooProps" == "_$FooProps"
  {
  }

  lemma FooStateRenamed()
    ensures !HasSigil("FooState")
    ensures Renamed(Header(false, "FooState", "UiState", "{"))
      == Header(false, "_$" + "FooState", "UiState", "{")
  {
    SigilLead("FooState");
    assert !IsPrivate("FooState");
  }

  lemma FooStateHidden()
    ensures "_$" + "FooState" == "_$FooState"
  {
  }

  lemma PrivateFooPropsRenamed()
    ensures !HasSigil("_PrivateFooProps")
    ensures Renamed(Header(false, "_PrivateFooProps", "UiProps", "{"))
      == Header(false, "_$" + "_PrivateFooProps"[1..], "UiProps", "{")
  {
    SigilLead("_PrivateFooProps");
    assert IsPrivate("_PrivateFooProps");
  }

  lemma PrivateFooPropsHidden()
    ensures "_$" + "_PrivateFooProps"[1..] == "_$PrivateFooProps"
  {
  }

  lemma SpecialFooPropsRenamed()
    ensures !HasSigil("Foo_Props")
    ensures Renamed(Header(false, "Foo_Props", "UiProps", "{"))
      == Header(false, "_$" + "Foo_Props", "UiProps", "{")
  {
    SigilLead("Foo_Props");
    assert !IsPrivate("Foo_Props");
  }

  lemma SpecialFooPropsHidden()
    ensures "_$" + "Foo_Props" == "_$Foo_Props"
  {
  }

  lemma AbstractFooPropsLine()
    ensures HeaderText(Header(true, "AbstractFooProps", "UiProps", "{"))
      == "abstract class " + "AbstractFooProps" + " extends UiProps {"
  {
  }

  lemma AbstractFooStateLine()
    ensures HeaderText(Header(true, "AbstractFooState", "UiState", "{"))
      == "abstract class " + "AbstractFooState" + " extends UiState {"
  {
  }

  lemma AbstractPlainFooPropsLine()
    ensures HeaderText(Header(true, "FooProps", "UiProps", "{"))
      == "abstract class " + "FooProps" + " extends UiProps {"
  {
  }

  lemma AbstractPlainFooStateLine()
    ensures HeaderText(Header(true, "FooState", "UiState", "{"))
      == "abstract class " + "FooState" + " extends UiState {"
  {
  }

  lemma EmptyFooPropsLine()
    ensures HeaderText(Header(false, "FooProps", "UiProps", "{}"))
      == "class " + "FooProps" + " extends UiProps {}"
  {
  }

  lemma FooPropsLine()
    ensures HeaderText(Header(false, "FooProps", "UiProps", "{"))
      == "class " + "FooProps" + " extends UiProps {"
  {
  }

  lemma FooStateLine()
    ensures HeaderText(Header(false, "FooState", "UiState", "{"))
      == "class " + "FooState" + " extends UiState {"
  {
  }

  lemma HiddenAbstractFooPropsLine()
    ensures HeaderText(Header(true, "_$AbstractFooProps", "UiProps", "{"))
      == "abstract class " + "_$AbstractFooProps" + " extends UiProps {"
  {
  }

  lemma HiddenAbstractFooStateLine()
    ensures HeaderText(Header(true, "_$AbstractFooState", "UiState", "{"))
      == "abstract class " + "_$AbstractFooState" + " extends UiState {"
  {
  }

  lemma HiddenEmptyFooPropsLine()
    ensures HeaderText(Header(false, "_$FooProps", "UiProps", "{}"))
      == "class " + "_$FooProps" + " extends UiProps {}"
  {
  }

  lemma HiddenFooPropsLine()
    ensures HeaderText(Header(false, "_$FooProps", "UiProps", "{"))
      == "class " + "_$FooProps" + " extends UiProps {"
  {
  }

  lemma HiddenFooStateLine()
    ensures HeaderText(Header(false, "_$FooState", "UiState", "{"))
      == "class " + "_$FooState" + " extends UiState {"
  {
  }

  lemma HiddenPrivateFooPropsLine()
    ensures HeaderText(Header(false, "_$PrivateFooProps", "UiProps", "{"))
      == "class " + "_$PrivateFooProps" + " extends UiProps {"
  {
  }

  lemma HiddenSpecialFooPropsLine()
    ensures HeaderText(Header(false, "_$Foo_Props", "UiProps", "{"))
      == "class " + "_$Foo_Props" + " extends UiProps {"
  {
  }

  lemma PrivateFooPropsLine()
    ensures HeaderText(Header(false, "_PrivateFooProps", "UiProps", "{"))
      == "class " + "_PrivateFooProps" + " extends UiProps {"
  {
  }

  lemma SpecialFooPropsLine()
    ensures HeaderText(Header(false, "Foo_Props", "UiProps", "{"))
      == "class " + "Foo_Props" + " extends UiProps {"
  {
  }

  lemma UnderscoreFooPropsLine()
    ensures HeaderText(Header(false, "_FooProps", "UiProps", "{"))
      == "class " + "_FooProps" + " extends UiProps {"
  {
  }

  lemma FooPropsSpelled()
    ensures WrapperNames("FooProps", "_$" + "FooProps", "_$" + "FooProps" + "AccessorsMixin", "$metaFor" + "FooProps")
      == WrapperNames("FooProps", "_$FooProps", "_$FooPropsAccessorsMixin", "$metaForFooProps")
  {
  }

  lemma FooPropsNames()
    ensures NamesFor("FooProps")
      == WrapperNames("FooProps", "_$" + "FooProps", "_$" + "FooProps" + "AccessorsMixin", "$metaFor" + "FooProps")
  {
    SigilLead("FooProps");
    NamesForPublic("FooProps");
  }

  lemma FooStateSpelled()
    ensures WrapperNames("FooState", "_$" + "FooState", "_$" + "FooState" + "AccessorsMixin", "$metaFor" + "FooState")
      == WrapperNames("FooState", "_$FooState", "_$FooStateAccessorsMixin", "$metaForFooState")
  {
  }

  lemma FooStateNames()
    ensures NamesFor("FooState")
      == WrapperNames("FooState", "_$" + "FooState", "_$" + "FooState" + "AccessorsMixin", "$metaFor" + "FooState")
  {
    SigilLead("FooState");
    NamesForPublic("FooState");
  }

  lemma HiddenFooPropsSpelled()
    ensures WrapperNames("FooProps", "_$" + "FooProps", "_$" + "FooProps" + "AccessorsMixin", "$metaFor" + "FooProps")
      == WrapperNames("FooProps", "_$FooProps", "_$FooPropsAccessorsMixin", "$metaForFooProps")
  {
  }

  lemma HiddenFooPropsNames()
    ensures NamesFor("_$FooProps")
      == WrapperNames("FooProps", "_$" + "FooProps", "_$" + "FooProps" + "AccessorsMixin", "$metaFor" + "FooProps")
  {
    assert "_$FooProps" == "_$" + "FooProps";
    SigilLead("FooProps");
    NamesForHidden("FooProps");
    NamesForPublic("FooProps");
  }

  lemma PrivateFooPropsSpelled()
    ensures WrapperNames("_FooProps", "_$" + "_FooProps"[1..], "_$" + "_FooProps"[1..] + "AccessorsMixin", "_$metaFor" + "_FooProps"[1..])
      == WrapperNames("_FooProps", "_$FooProps", "_$FooPropsAccessorsMixin", "_$metaForFooProps")
  {
  }

  lemma PrivateFooPropsNames()
    ensures NamesFor("_FooProps")
      == WrapperNames("_FooProps", "_$" + "_FooProps"[1..], "_$" + "_FooProps"[1..] + "AccessorsMixin", "_$metaFor" + "_FooProps"[1..])
  {
    SigilLead("_FooProps");
    NamesForPrivate("_FooProps");
  }
}

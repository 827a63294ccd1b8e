/** Class header lines of the form
      `[abstract ]class <Ident> extends <Base> {<tail>`
    with single spaces between the tokens. A header with type parameters
    (`class Foo<T> extends ...`) does not have this form and is never
    recognised, so it is left untouched. */
module Headers {
  import opened Results
  import opened Text
  import opened Naming

  /** A parsed header. `tail` is everything from the opening brace on. */
  datatype Header = Header(isAbstract: bool, name: string, base: string, tail: string)

  predicate WellFormed(h: Header) {
    IsIdent(h.name) && IsIdent(h.base) && StartsWith(h.tail, "{")
  }

  /** The text before the identifier: the modifier and the `class` keyword. */
  function Lead(isAbstract: bool): string {
    Modifier(isAbstract) + "class "
  }

  function Modifier(isAbstract: bool): string {
    if isAbstract then "abstract " else ""
  }

  /** The text after the identifier: the `extends` clause and the tail. */
  function Trail(h: Header): string {
    " extends " + (h.base + (" " + h.tail))
  }

  /** The line a header is written as. */
  function HeaderText(h: Header): (line: string)
    ensures line == Lead(h.isAbstract) + h.name + Trail(h)
  {
    Modifier(h.isAbstract) + ("class " + (h.name + Trail(h)))
  }

  /** Recognises the `extends` clause and the tail after the identifier. */
  function ParseTrail(s: string): (r: Option<(string, string)>)
    ensures r.Some? ==> IsIdent(r.value.0) && StartsWith(r.value.1, "{")
    ensures r.Some? ==> s == " extends " + (r.value.0 + (" " + r.value.1))
  {
    match AfterPrefix(s, " extends ")
    case None => None
    case Some(afterExtends) =>
      match SplitIdent(afterExtends)
      case None => None
      case Some(split) =>
        match AfterPrefix(split.1, " ")
        case None => None
        case Some(tail) =>
          if StartsWith(tail, "{") then Some((split.0, tail)) else None
  }

  /** Recognises a header line. Every recognised header is well formed and
      written exactly as the line reads. */
  function ParseHeader(line: string): (r: Option<Header>)
    ensures r.Some? ==> WellFormed(r.value) && HeaderText(r.value) == line
    ensures r.Some? ==> line[0] == (if r.value.isAbstract then 'a' else 'c')
  {
    var isAbstract := StartsWith(line, "abstract ");
    var afterModifier := if isAbstract then line[9..] else line;
    assert line == Modifier(isAbstract) + afterModifier;
    match AfterPrefix(afterModifier, "class ")
    case None => None
    case Some(afterClass) =>
      match SplitIdent(afterClass)
      case None => None
      case Some(split) =>
        match ParseTrail(split.1)
        case None => None
        case Some(trail) => Some(Header(isAbstract, split.0, trail.0, trail.1))
  }

  lemma ParseTrailText(h: Header)
    requires WellFormed(h)
    ensures ParseTrail(Trail(h)) == Some((h.base, h.tail))
  {
    AfterPrefixOfConcat(" extends ", h.base + (" " + h.tail));
    SplitIdentOfConcat(h.base, " " + h.tail);
    AfterPrefixOfConcat(" ", h.tail);
  }

  /** Round trip: a well-formed header's text parses back to the header. */
  lemma ParseHeaderText(h: Header)
    requires WellFormed(h)
    ensures ParseHeader(HeaderText(h)) == Some(h)
  {
    var line := HeaderText(h);
    var afterModifier := "class " + (h.name + Trail(h));
    assert line == Modifier(h.isAbstract) + afterModifier;
    if h.isAbstract {
      AfterPrefixOfConcat("abstract ", afterModifier);
      assert StartsWith(line, "abstract ") && line[9..] == afterModifier;
    } else {
      assert line == afterModifier;
      assert line[0] == 'c';
      assert !StartsWith(line, "abstract ");
    }
    AfterPrefixOfConcat("class ", h.name + Trail(h));
    assert Trail(h)[0] == ' ';
    SplitIdentOfConcat(h.name, Trail(h));
    ParseTrailText(h);
  }

  /** The header after the rename: only the identifier changes. */
  function Renamed(h: Header): (r: Header)
    ensures r.isAbstract == h.isAbstract && r.base == h.base && r.tail == h.tail
    ensures r.name == Hide(h.name)
    ensures WellFormed(h) ==> WellFormed(r)
  {
    h.(name := Hide(h.name))
  }

  /** The renamed header line differs from the original only in the
      identifier: the same text precedes and follows it. */
  lemma RenameOnlyIdentifier(h: Header)
    ensures HeaderText(h) == Lead(h.isAbstract) + h.name + Trail(h)
    ensures HeaderText(Renamed(h)) == Lead(h.isAbstract) + Hide(h.name) + Trail(h)
  {
  }

  /** The renamed header line is again a header: same modifier, same
      `extends` clause and tail, and the hidden identifier. */
  lemma RenamedHeaderParses(h: Header)
    requires WellFormed(h)
    ensures ParseHeader(HeaderText(Renamed(h))) == Some(Renamed(h))
  {
    ParseHeaderText(Renamed(h));
  }

  /** A header line is neither an annotation nor a recognised trigger. */
  lemma HeaderIsNotAnnotation(line: string)
    requires ParseHeader(line).Some?
    ensures line[0] == 'a' || line[0] == 'c'
  {
    var h := ParseHeader(line).value;
    assert line == Lead(h.isAbstract) + h.name + Trail(h);
    assert line[0] == Lead(h.isAbstract)[0];
  }

  /** A header line starts with `abstract` or `class`, never with `@`. */
  lemma HeaderTextNotAnnotation(h: Header)
    ensures HeaderText(h)[0] == (if h.isAbstract then 'a' else 'c')
  {
  }
}

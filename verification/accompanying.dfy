/** The accompanying public class suggestor: after the body of every
    recognised declaration it inserts a public wrapper class that extends the
    hidden class and mixes in its generated accessors, unless the file
    already declares that wrapper. */
module AccompanyingSuggestor {
  import opened Results
  import opened Text
  import opened Naming
  import opened Annotations
  import opened Headers
  import opened Scanner
  import opened ScanSpec
  import opened Patches

  /** The fixed comment lines of the wrapper block. */
  const MigrationComment: string := "// AF-3369 This will be removed once the transition to Dart 2 is complete."
  const MixinIgnore: string := "// ignore: mixin_of_non_class, undefined_class"
  const MetaIgnore: string := "  // ignore: undefined_identifier, undefined_class, const_initialized_with_non_constant_value"

  /** `class <Public> extends <Hidden> with <Mixin>`: the part of a wrapper
      header that identifies it. */
  function WrapperDecl(n: WrapperNames): string {
    "class " + n.publicName + " extends " + n.hiddenName + " with " + n.mixinName
  }

  /** The wrapper's header line; `abstract` follows the annotated class. */
  function WrapperHeader(isAbstract: bool, n: WrapperNames): string {
    Modifier(isAbstract) + (WrapperDecl(n) + " {")
  }

  /** The wrapper's `meta` constant, typed by the annotation's family. */
  function MetaLine(k: AnnotationKind, n: WrapperNames): string {
    "  static const " + MetaType(k) + " meta = " + n.metaRef + ";"
  }

  /** The seven lines of the wrapper block, without terminators. */
  function WrapperLines(d: Decl): seq<string> {
    var n := NamesFor(d.header.name);
    ["", MigrationComment, MixinIgnore, WrapperHeader(d.header.isAbstract, n), MetaIgnore, MetaLine(d.kind, n), "}"]
  }

  /** `line` declares the wrapper named by `n`: after an optional `abstract`
      modifier it reads `class <Public> extends <Hidden> with <Mixin>`, and
      the mixin name is not the prefix of a longer identifier. */
  predicate DeclaresWrapper(line: string, n: WrapperNames) {
    var rest := if StartsWith(line, "abstract ") then line[9..] else line;
    var decl := WrapperDecl(n);
    StartsWith(rest, decl) && (|rest| == |decl| || !IsIdentChar(rest[|decl|]))
  }

  /** Some line of the file declares the wrapper named by `n`. */
  predicate HasWrapper(lines: seq<string>, n: WrapperNames) {
    exists t :: 0 <= t < |lines| && DeclaresWrapper(lines[t], n)
  }

  /** Only the one-line layout of the wrapper is recognised: a wrapper
      whose `with` clause a formatter moved to an indented second line is
      not, so the suggestor would insert a second one. */
  lemma SplitWrapperMissed(n: WrapperNames, indent: string)
    requires |indent| > 0 && indent[0] == ' '
    ensures !HasWrapper(["class " + n.publicName + " extends " + n.hiddenName, indent + "with " + n.mixinName + " {}"], n)
  {
    var first := "class " + n.publicName + " extends " + n.hiddenName;
    var second := indent + "with " + n.mixinName + " {}";
    var lines := [first, second];
    var decl := WrapperDecl(n);
    assert |decl| == |first| + 6 + |n.mixinName|;
    assert first[0] == 'c' && !StartsWith(first, "abstract ");
    assert !DeclaresWrapper(first, n);
    assert second[0] == ' ' && decl[0] == 'c';
    assert !StartsWith(second, "abstract ") && !StartsWith(second, decl);
    assert !DeclaresWrapper(second, n);
    assert forall t :: 0 <= t < |lines| ==> lines[t] == first || lines[t] == second;
  }

  /** The patch for one declaration: the terminated wrapper block inserted
      just after the line holding the body's closing brace. */
  function AccompanyPatch(d: Decl): (p: Patch)
    ensures p.startLine == p.endLine == d.closeLine + 1
    ensures |p.newLines| == 7
    ensures forall k :: 0 <= k < 7 ==> p.newLines[k] == Terminated(WrapperLines(d)[k])
  {
    Patch(d.closeLine + 1, d.closeLine + 1, TerminateAll(WrapperLines(d)))
  }

  /** The declarations of `ds` whose wrapper the file does not yet declare. */
  function Unwrapped(lines: seq<string>, ds: seq<Decl>): (us: seq<Decl>)
    ensures |us| <= |ds|
    ensures forall d :: d in us <==> d in ds && !HasWrapper(lines, NamesFor(d.header.name))
  {
    if |ds| == 0 then []
    else
      var rest := Unwrapped(lines, ds[1..]);
      assert forall d :: d in ds <==> d == ds[0] || d in ds[1..];
      if HasWrapper(lines, NamesFor(ds[0].header.name)) then rest else [ds[0]] + rest
  }

  /** The wrapper block of every declaration of `us`, in order. */
  function Blocks(us: seq<Decl>): (ps: seq<Patch>)
    ensures |ps| == |us|
    ensures forall k :: 0 <= k < |us| ==> ps[k] == AccompanyPatch(us[k])
    ensures forall k :: 0 <= k < |us| ==> InsertsWrapper(ps[k], NamesFor(us[k].header.name))
  {
    var ps := seq(|us|, k requires 0 <= k < |us| => AccompanyPatch(us[k]));
    assert forall k :: 0 <= k < |ps| ==> InsertsWrapper(ps[k], NamesFor(us[k].header.name)) by {
      forall k | 0 <= k < |ps| {
        AccompanyPatchInsertsWrapper(us[k]);
      }
    }
    ps
  }

  /** One insertion per declaration whose wrapper is missing, in file
      order: just below the declaration's closing brace, a block that
      declares the wrapper. */
  function AccompanyPatches(lines: seq<string>, ds: seq<Decl>): (ps: seq<Patch>)
    ensures |ps| == |Unwrapped(lines, ds)|
    ensures forall k :: 0 <= k < |ps| ==>
      ps[k].startLine == ps[k].endLine == Unwrapped(lines, ds)[k].closeLine + 1
    ensures forall k :: 0 <= k < |ps| ==> InsertsWrapper(ps[k], NamesFor(Unwrapped(lines, ds)[k].header.name))
  {
    Blocks(Unwrapped(lines, ds))
  }

  /** The accompanying suggestor over one file. A body that never closes
      fails the file; otherwise it suggests insertions inside the file at
      strictly increasing lines, one for each declaration whose wrapper the
      file lacks (`SuggestAccompanyingExact` says which, and that applying
      them leaves no declaration without its wrapper). */
  function SuggestAccompanying(lines: seq<string>): (r: Result<seq<Patch>, ScanError>)
    ensures r.Success? <==> Scan(lines).Success?
    ensures r.Failure? ==> r.error == Scan(lines).error && NeverCloses(lines, r.error.headerLine)
    ensures r.Success? ==> Sequential(r.value) && |r.value| == |Unwrapped(lines, Scan(lines).value)|
    ensures r.Success? ==> forall k :: 0 <= k < |r.value| ==> r.value[k].startLine == r.value[k].endLine <= |lines|
    ensures r.Success? ==> forall a, b :: 0 <= a < b < |r.value| ==> r.value[a].startLine < r.value[b].startLine
  {
    ScanSound(lines);
    match Scan(lines)
    case Failure(e) => Failure(e)
    case Success(ds) =>
      AccompanyPatchesInOrder(lines, ds, 0);
      Success(AccompanyPatches(lines, ds))
  }

  /** Every declaration the accompanying suggestor finds is a declaration
      of the text; each one whose wrapper is missing gets its wrapper block,
      every suggested patch is the block of such a declaration, and once the
      patch engine applies them the file declares every wrapper. */
  lemma SuggestAccompanyingExact(lines: seq<string>)
    requires SuggestAccompanying(lines).Success?
    ensures forall d :: d in Scan(lines).value ==>
      IsDeclAt(lines, d) && (!HasWrapper(lines, NamesFor(d.header.name)) ==> AccompanyPatch(d) in SuggestAccompanying(lines).value)
    ensures forall p :: p in SuggestAccompanying(lines).value ==> exists d ::
      IsDeclAt(lines, d) && !HasWrapper(lines, NamesFor(d.header.name)) && p == AccompanyPatch(d)
    ensures forall d :: d in Scan(lines).value ==>
      HasWrapper(ApplyAll(lines, SuggestAccompanying(lines).value), NamesFor(d.header.name))
  {
    var ds := Scan(lines).value;
    var ps := SuggestAccompanying(lines).value;
    assert ps == AccompanyPatches(lines, ds);
    ScanSound(lines);
    AccompanyCovers(lines, ds, ps);
    AccompanyOnly(lines, ds, ps);
    forall d | d in ds
      ensures HasWrapper(ApplyAll(lines, ps), NamesFor(d.header.name))
    {
      WrapperAfterApply(lines, ds, d);
    }
  }

  lemma AccompanyCovers(lines: seq<string>, ds: seq<Decl>, ps: seq<Patch>)
    requires ps == AccompanyPatches(lines, ds)
    requires forall k :: 0 <= k < |ds| ==> IsDeclAt(lines, ds[k])
    ensures forall d :: d in ds ==>
      IsDeclAt(lines, d) && (!HasWrapper(lines, NamesFor(d.header.name)) ==> AccompanyPatch(d) in ps)
  {
    var us := Unwrapped(lines, ds);
    forall d | d in ds
      ensures IsDeclAt(lines, d) && (!HasWrapper(lines, NamesFor(d.header.name)) ==> AccompanyPatch(d) in ps)
    {
      var j :| 0 <= j < |ds| && ds[j] == d;
      assert IsDeclAt(lines, ds[j]);
      if !HasWrapper(lines, NamesFor(d.header.name)) {
        var u :| 0 <= u < |us| && us[u] == d;
        assert ps[u] == AccompanyPatch(d);
      }
    }
  }

  lemma AccompanyOnly(lines: seq<string>, ds: seq<Decl>, ps: seq<Patch>)
    requires ps == AccompanyPatches(lines, ds)
    requires forall k :: 0 <= k < |ds| ==> IsDeclAt(lines, ds[k])
    ensures forall p :: p in ps ==> exists d ::
      IsDeclAt(lines, d) && !HasWrapper(lines, NamesFor(d.header.name)) && p == AccompanyPatch(d)
  {
    var us := Unwrapped(lines, ds);
    forall p | p in ps
      ensures exists d :: IsDeclAt(lines, d) && !HasWrapper(lines, NamesFor(d.header.name)) && p == AccompanyPatch(d)
    {
      var u :| 0 <= u < |ps| && ps[u] == p;
      assert p == AccompanyPatch(us[u]) && us[u] in us;
      var j :| 0 <= j < |ds| && ds[j] == us[u];
      assert IsDeclAt(lines, ds[j]);
    }
  }

  /** The wrapper header starts with `abstract` exactly when the annotated
      class is abstract, and the suggestor recognises it as the wrapper it
      would insert. */
  lemma WrapperHeaderRecognised(isAbstract: bool, n: WrapperNames)
    ensures StartsWith(WrapperHeader(isAbstract, n), "abstract ") <==> isAbstract
    ensures DeclaresWrapper(WrapperHeader(isAbstract, n), n)
  {
    var decl := WrapperDecl(n);
    var line := WrapperHeader(isAbstract, n);
    var rest := decl + " {";
    assert rest[..|decl|] == decl && rest[|decl|] == ' ';
    assert decl[0] == 'c';
    if isAbstract {
      assert line == "abstract " + rest;
      assert line[..9] == "abstract " && line[9..] == rest;
    } else {
      assert line == rest && line[0] == 'c';
    }
  }

  /** The wrapper block's header line is the fourth line the patch inserts. */
  lemma InsertedWrapperLine(lines: seq<string>, d: Decl)
    requires d.closeLine < |lines|
    ensures |Replace(lines, AccompanyPatch(d))| == |lines| + 7
    ensures Replace(lines, AccompanyPatch(d))[d.closeLine + 4] ==
      WrapperHeader(d.header.isAbstract, NamesFor(d.header.name))
  {
    var p := AccompanyPatch(d);
    InsertLines(lines, p);
    ContentOfTerminated(WrapperLines(d)[3]);
  }

  /** Inserting lines keeps every wrapper the file declared. */
  lemma InsertKeepsWrapper(lines: seq<string>, p: Patch, n: WrapperNames)
    requires p.startLine == p.endLine <= |lines|
    requires HasWrapper(lines, n)
    ensures HasWrapper(Replace(lines, p), n)
  {
    var t :| 0 <= t < |lines| && DeclaresWrapper(lines[t], n);
    InsertLines(lines, p);
    if t < p.startLine {
      assert DeclaresWrapper(Replace(lines, p)[t], n);
    } else {
      assert DeclaresWrapper(Replace(lines, p)[t + |p.newLines|], n);
    }
  }

  /** `p` inserts a block whose header line declares the wrapper `n`. */
  predicate InsertsWrapper(p: Patch, n: WrapperNames) {
    p.startLine == p.endLine && |p.newLines| > 3 && DeclaresWrapper(Content(p.newLines[3]), n)
  }

  /** After the patch engine applies insertions, the file declares every
      wrapper it declared before and every wrapper one of them inserts. */
  lemma {:induction false} ApplyAllKeepsWrapper(lines: seq<string>, ps: seq<Patch>, n: WrapperNames)
    requires Sequential(ps)
    requires forall k :: 0 <= k < |ps| ==> InFile(ps[k], |lines|) && ps[k].startLine == ps[k].endLine
    requires HasWrapper(lines, n) || exists k :: 0 <= k < |ps| && InsertsWrapper(ps[k], n)
    ensures HasWrapper(ApplyAll(lines, ps), n)
    decreases |ps|
  {
    if |ps| > 0 {
      var q, init := ps[|ps| - 1], ps[..|ps| - 1];
      LastInsertion(lines, ps);
      LastInsertionKeepsWrapper(lines, ps, n);
      ApplyAllKeepsWrapper(Replace(lines, q), init, n);
    }
  }

  /** The patch engine applies the last insertion first, then the others,
      which still lie inside the file. */
  lemma LastInsertion(lines: seq<string>, ps: seq<Patch>)
    requires |ps| > 0 && Sequential(ps)
    requires forall k :: 0 <= k < |ps| ==> InFile(ps[k], |lines|) && ps[k].startLine == ps[k].endLine
    ensures InFile(ps[|ps| - 1], |lines|)
    ensures var r, init := Replace(lines, ps[|ps| - 1]), ps[..|ps| - 1];
      && Sequential(init)
      && (forall k :: 0 <= k < |init| ==> init[k] == ps[k])
      && (forall k :: 0 <= k < |init| ==> InFile(init[k], |r|) && init[k].startLine == init[k].endLine)
      && ApplyAll(lines, ps) == ApplyAll(r, init)
  {
    var q, init := ps[|ps| - 1], ps[..|ps| - 1];
    assert InFile(q, |lines|);
    InsertLines(lines, q);
    assert forall k :: 0 <= k < |init| ==> init[k] == ps[k];
  }

  /** One step of `ApplyAllKeepsWrapper`: after the last insertion the
      wrapper is declared, or an earlier insertion still declares it. */
  lemma LastInsertionKeepsWrapper(lines: seq<string>, ps: seq<Patch>, n: WrapperNames)
    requires |ps| > 0
    requires InFile(ps[|ps| - 1], |lines|) && ps[|ps| - 1].startLine == ps[|ps| - 1].endLine
    requires HasWrapper(lines, n) || exists k :: 0 <= k < |ps| && InsertsWrapper(ps[k], n)
    ensures HasWrapper(Replace(lines, ps[|ps| - 1]), n) ||
      (exists k :: 0 <= k < |ps| - 1 && InsertsWrapper(ps[k], n))
  {
    var q, init := ps[|ps| - 1], ps[..|ps| - 1];
    var r := Replace(lines, q);
    if HasWrapper(lines, n) {
      InsertKeepsWrapper(lines, q, n);
    } else if InsertsWrapper(q, n) {
      InsertLines(lines, q);
      assert q.startLine + 3 < |r| && DeclaresWrapper(r[q.startLine + 3], n);
    } else {
      var k :| 0 <= k < |ps| && InsertsWrapper(ps[k], n);
      assert k < |ps| - 1 && InsertsWrapper(ps[k], n);
    }
  }

  /** The declarations left to accompany keep the file order. */
  lemma {:induction false} UnwrappedOrdered(lines: seq<string>, ds: seq<Decl>, i: nat)
    requires Ordered(ds, i)
    ensures Ordered(Unwrapped(lines, ds), i)
    decreases |ds|
  {
    if |ds| > 0 {
      OrderedTail(ds, i);
      UnwrappedOrdered(lines, ds[1..], ds[0].closeLine + 1);
      if !HasWrapper(lines, NamesFor(ds[0].header.name)) {
        ConsOrdered(i, ds[0], Unwrapped(lines, ds[1..]));
      }
    }
  }

  /** The accompanying patches are insertions inside the file, each just
      below a closing brace at or after line `i`, at strictly increasing
      lines. */
  lemma AccompanyPatchesInOrder(lines: seq<string>, ds: seq<Decl>, i: nat)
    requires Ordered(ds, i)
    requires forall k :: 0 <= k < |ds| ==> ds[k].closeLine < |lines|
    ensures Sequential(AccompanyPatches(lines, ds))
    ensures forall k :: 0 <= k < |AccompanyPatches(lines, ds)| ==>
      var p := AccompanyPatches(lines, ds)[k];
      p.startLine == p.endLine && i < p.startLine <= |lines|
    ensures forall a, b :: 0 <= a < b < |AccompanyPatches(lines, ds)| ==>
      AccompanyPatches(lines, ds)[a].startLine < AccompanyPatches(lines, ds)[b].startLine
  {
    var us := Unwrapped(lines, ds);
    UnwrappedOrdered(lines, ds, i);
    forall k | 0 <= k < |us|
      ensures us[k].closeLine < |lines|
    {
      assert us[k] in ds;
    }
  }

  /** The block a declaration's patch inserts declares its wrapper. */
  lemma AccompanyPatchInsertsWrapper(d: Decl)
    ensures InsertsWrapper(AccompanyPatch(d), NamesFor(d.header.name))
  {
    WrapperHeaderRecognised(d.header.isAbstract, NamesFor(d.header.name));
    ContentOfTerminated(WrapperLines(d)[3]);
  }

  /** After the patch engine applies the accompanying patches, the file
      declares the wrapper of the declaration `d` of `ds`. */
  lemma WrapperAfterApply(lines: seq<string>, ds: seq<Decl>, d: Decl)
    requires d in ds
    requires Sequential(AccompanyPatches(lines, ds))
    requires forall k :: 0 <= k < |AccompanyPatches(lines, ds)| ==>
      var p := AccompanyPatches(lines, ds)[k];
      p.startLine == p.endLine && p.startLine <= |lines|
    ensures HasWrapper(ApplyAll(lines, AccompanyPatches(lines, ds)), NamesFor(d.header.name))
  {
    var ps := AccompanyPatches(lines, ds);
    var us := Unwrapped(lines, ds);
    var n := NamesFor(d.header.name);
    if !HasWrapper(lines, n) {
      assert d in us;
      var u :| 0 <= u < |us| && us[u] == d;
      AccompanyPatchInsertsWrapper(d);
      assert InsertsWrapper(ps[u], n);
    }
    ApplyAllKeepsWrapper(lines, ps, n);
  }

  /** Idempotence: once the patch engine has applied the accompanying
      patches, the file declares the wrapper of every declaration, so a
      second run that finds the same identifiers suggests nothing. */
  lemma AccompanyIdempotent(lines: seq<string>, ds: seq<Decl>, i: nat, again: seq<Decl>)
    requires Ordered(ds, i)
    requires forall k :: 0 <= k < |ds| ==> ds[k].closeLine < |lines|
    requires |again| == |ds| && forall k :: 0 <= k < |ds| ==> again[k].header.name == ds[k].header.name
    ensures Sequential(AccompanyPatches(lines, ds))
    ensures forall k :: 0 <= k < |AccompanyPatches(lines, ds)| ==> InFile(AccompanyPatches(lines, ds)[k], |lines|)
    ensures AccompanyPatches(ApplyAll(lines, AccompanyPatches(lines, ds)), again) == []
  {
    AccompanyPatchesInOrder(lines, ds, i);
    var r := ApplyAll(lines, AccompanyPatches(lines, ds));
    var vs := Unwrapped(r, again);
    if |vs| > 0 {
      assert vs[0] in again;
      var k :| 0 <= k < |again| && again[k] == vs[0];
      WrapperAfterApply(lines, ds, ds[k]);
      assert false;
    }
  }

  /** Accompanying a renamed declaration inserts the same block as
      accompanying it before the rename, unless its identifier is private:
      the rename absorbs the private marker, so the wrapper of the renamed
      class is public. */
  lemma AccompanyAfterRename(d: Decl)
    requires !HasSigil(d.header.name) && !IsPrivate(d.header.name)
    ensures AccompanyPatch(d.(header := Renamed(d.header))) == AccompanyPatch(d)
  {
    NamesSurviveRename(d.header.name);
  }
}

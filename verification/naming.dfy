/** Identifier naming for the two-class layout: the annotated class is hidden
    behind the `_$` sigil and a public class of the original name extends it.
    A leading `_` marks a library-private Dart identifier. */
module Naming {
  import opened Text

  /** The hidden-name sigil. */
  const Sigil: string := "_$"

  predicate HasSigil(id: string) {
    StartsWith(id, Sigil)
  }

  /** A hidden identifier starts with the sigil's first character. */
  lemma SigilLead(id: string)
    ensures HasSigil(id) ==> |id| >= 2 && id[0] == '_' && id[1] == '$'
  {
    if HasSigil(id) {
      assert id[..2] == Sigil;
    }
  }

  predicate IsPrivate(id: string) {
    |id| > 0 && id[0] == '_'
  }

  /** `id` without one leading private marker. */
  function StripPrivate(id: string): (r: string)
    ensures IsPrivate(id) ==> id == "_" + r
    ensures !IsPrivate(id) ==> r == id
  {
    if IsPrivate(id) then id[1..] else id
  }

  /** The rename performed on a not-yet-hidden identifier: the sigil is put
      in front, absorbing a leading private marker (`Foo` and `_Foo` both
      become `_$Foo`); every other character is kept. */
  function Hide(id: string): (r: string)
    ensures HasSigil(r)
    ensures IsIdent(id) ==> IsIdent(r)
    ensures IsPrivate(id) ==> r == "_$" + id[1..]
    ensures !IsPrivate(id) ==> r == "_$" + id
  {
    Sigil + StripPrivate(id)
  }

  /** Name of the public accompanying class: the sigil is dropped from a
      hidden identifier, any other identifier is kept as written. */
  function Public(id: string): (r: string)
    ensures HasSigil(id) ==> id == "_$" + r
    ensures !HasSigil(id) ==> r == id
  {
    if HasSigil(id) then id[|Sigil|..] else id
  }

  /** The names the accompanying class is built from. */
  datatype WrapperNames = WrapperNames(
    publicName: string,
    hiddenName: string,
    mixinName: string,
    metaRef: string)

  /** Derives every wrapper name from the declared identifier, whether or
      not it already carries the sigil. */
  function NamesFor(id: string): (n: WrapperNames)
    ensures n.hiddenName == Hide(n.publicName)
    ensures HasSigil(n.hiddenName)
    ensures n.mixinName == n.hiddenName + "AccessorsMixin"
    ensures n.metaRef == (if IsPrivate(n.publicName) then "_" else "") + "$metaFor" + StripPrivate(n.publicName)
    ensures !HasSigil(id) ==> n.publicName == id
    ensures HasSigil(id) ==> id == Sigil + n.publicName
  {
    var pub := Public(id);
    var stem := StripPrivate(pub);
    WrapperNames(
      pub,
      Hide(pub),
      Sigil + stem + "AccessorsMixin",
      (if IsPrivate(pub) then "_$metaFor" else "$metaFor") + stem)
  }

  /** Round trip: un-hiding a hidden public identifier gives it back. */
  lemma PublicOfHide(id: string)
    requires !IsPrivate(id)
    ensures Public(Hide(id)) == id
  {
  }

  /** For a private identifier the round trip loses the private marker. */
  lemma PublicOfHidePrivate(id: string)
    requires IsPrivate(id)
    ensures Public(Hide(id)) == id[1..]
  {
  }

  /** Hiding the public name of a hidden identifier gives it back, unless
      the part after the sigil itself starts with a private marker. */
  lemma HideOfPublic(id: string)
    requires HasSigil(id) && !IsPrivate(id[2..])
    ensures Hide(Public(id)) == id
  {
    assert id == Sigil + id[2..];
  }

  /** Hiding is not injective: `Foo` and `_Foo` share one hidden name. */
  lemma HideNotInjective(id: string)
    requires !IsPrivate(id)
    ensures Hide(id) == Hide("_" + id)
    ensures id != "_" + id
  {
    assert ("_" + id)[1..] == id;
  }

  /** The wrapper names of a public identifier `Foo`: hidden `_$Foo`,
      mixin `_$FooAccessorsMixin`, meta reference `$metaForFoo`. */
  lemma NamesForPublic(id: string)
    requires !HasSigil(id) && !IsPrivate(id)
    ensures NamesFor(id) == WrapperNames(id, "_$" + id, "_$" + id + "AccessorsMixin", "$metaFor" + id)
  {
  }

  /** The wrapper names of a private identifier `_Foo`: the public name
      keeps the marker, the hidden name absorbs it (`_$Foo`), the mixin is
      `_$FooAccessorsMixin` and the meta reference `_$metaForFoo`. */
  lemma NamesForPrivate(id: string)
    requires !HasSigil(id) && IsPrivate(id)
    ensures NamesFor(id) == WrapperNames(id, "_$" + id[1..], "_$" + id[1..] + "AccessorsMixin", "_$metaFor" + id[1..])
  {
  }

  /** The sigil followed by an identifier that does not itself carry the
      sigil yields the same wrapper names as that identifier; a private
      one included (`_$_Foo` and `_Foo`). */
  lemma NamesForHidden(id: string)
    requires !HasSigil(id)
    ensures NamesFor("_$" + id) == NamesFor(id)
  {
    assert ("_$" + id)[2..] == id;
  }

  /** A hidden private class names the same wrapper as its public form. */
  lemma NamesForHiddenPrivate()
    ensures NamesFor("_$_FooProps") == NamesFor("_FooProps")
  {
    assert "_$_FooProps" == "_$" + "_FooProps";
    assert "_FooProps"[1] != Sigil[1] && !HasSigil("_FooProps");
    NamesForHidden("_FooProps");
  }

  /** Renaming first and accompanying afterwards refers to the same hidden
      class and accessor mixin as accompanying the original identifier;
      the public name survives the rename exactly when it was not private.
      A doubled private marker (`__Foo`) is excluded: it hides to `_$_Foo`,
      whose public name `_Foo` hides to `_$Foo` instead. */
  lemma NamesSurviveRename(id: string)
    requires !HasSigil(id) && !IsPrivate(StripPrivate(id))
    ensures NamesFor(Hide(id)).hiddenName == NamesFor(id).hiddenName == Hide(id)
    ensures NamesFor(Hide(id)).mixinName == NamesFor(id).mixinName
    ensures !IsPrivate(id) ==> NamesFor(Hide(id)) == NamesFor(id)
    ensures IsPrivate(id) ==> NamesFor(Hide(id)).publicName == id[1..]
  {
    if !IsPrivate(id) {
      PublicOfHide(id);
    } else {
      PublicOfHidePrivate(id);
      assert StripPrivate(id) == id[1..];
      assert Hide(id) == Sigil + id[1..];
    }
  }
}

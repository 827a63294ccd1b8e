/** What a second scan sees once the rename patches are applied: the same
    declarations at the same lines, now with hidden identifiers. Hence a
    second rename sweep suggests nothing. */
module Rescan {
  import opened Results
  import opened Text
  import opened Naming
  import opened Annotations
  import opened Headers
  import opened Braces
  import opened LineInfos
  import opened Scanner
  import opened ScanCongruence
  import opened Patches
  import opened RenameSuggestor

  /** A declaration as the rename leaves it. */
  function AfterRename(d: Decl): (r: Decl)
    ensures SameSpot(d, r)
    ensures NeedsRename(d) ==> r.header == Renamed(d.header)
    ensures !NeedsRename(d) ==> r == d
    ensures !NeedsRename(r)
  {
    if NeedsRename(d) then d.(header := Renamed(d.header)) else d
  }

  lemma IdentBraceFree(s: string)
    requires IsIdent(s)
    ensures BraceFree(s)
  {
  }

  /** A header line never invokes an annotation. */
  lemma HeaderLineInvokesNothing(h: Header, k: AnnotationKind)
    ensures !Invokes(HeaderText(h), k)
  {
    HeaderTextNotAnnotation(h);
    assert ("@" + KindName(k))[0] == '@';
  }

  /** The classification of a header line and of the same line renamed are
      alike: the header keeps its shape and the line its brace profile. */
  lemma RenamedLineAlike(h: Header, a: LineInfo, b: LineInfo)
    requires WellFormed(h)
    requires Describes(a, HeaderText(h)) && Describes(b, HeaderText(Renamed(h)))
    ensures Alike(a, b)
    ensures a.header == Some(h) && b.header == Some(Renamed(h))
  {
    var r := Renamed(h);
    if a.trigger.Some? {
      HeaderLineInvokesNothing(h, a.trigger.value);
    }
    if b.trigger.Some? {
      HeaderLineInvokesNothing(r, b.trigger.value);
    }
    HeaderTextNotAnnotation(h);
    HeaderTextNotAnnotation(r);
    HeaderTextInjective(a.header.value, h);
    HeaderTextInjective(b.header.value, r);
    RenameOnlyIdentifier(h);
    IdentBraceFree(h.name);
    IdentBraceFree(r.name);
    SwapBraceFree(Lead(h.isAbstract), h.name, r.name, Trail(h));
  }

  /** Two classifications of one line are alike. */
  lemma SameLineAlike(a: LineInfo, b: LineInfo, line: string)
    requires Describes(a, line) && Describes(b, line)
    ensures Alike(a, b)
  {
    if a.trigger.Some? && b.trigger.Some? {
      InvokesUnique(line, a.trigger.value, b.trigger.value);
    }
    if a.header.Some? && b.header.Some? {
      HeaderTextInjective(a.header.value, b.header.value);
    }
  }

  /** Line `t` is renamed only as the header line of a declaration that
      needs renaming. */
  lemma {:induction false} RenamedHeaderAtSome(ds: seq<Decl>, t: nat)
    requires RenamedHeaderAt(ds, t).Some?
    ensures exists k :: (0 <= k < |ds| && ds[k].headerLine == t && NeedsRename(ds[k]) &&
      RenamedHeaderAt(ds, t) == Some(Renamed(ds[k].header)))
    decreases |ds|
  {
    if !(NeedsRename(ds[0]) && ds[0].headerLine == t) {
      RenamedHeaderAtSome(ds[1..], t);
      var k :| 0 <= k < |ds[1..]| && ds[1..][k].headerLine == t && NeedsRename(ds[1..][k]) &&
        RenamedHeaderAt(ds[1..], t) == Some(Renamed(ds[1..][k].header));
      assert ds[k + 1] == ds[1..][k];
    }
  }

  /** The header line of the declaration `ds[k]` is renamed exactly when
      that declaration needs renaming. */
  lemma {:induction false} RenamedHeaderAtDecl(ds: seq<Decl>, k: nat, i: nat)
    requires Ordered(ds, i) && k < |ds|
    ensures RenamedHeaderAt(ds, ds[k].headerLine) ==
      if NeedsRename(ds[k]) then Some(Renamed(ds[k].header)) else None
    decreases |ds|
  {
    OrderedTail(ds, i);
    if k == 0 {
      NoRenameBefore(ds[1..], ds[0].headerLine, ds[0].closeLine + 1);
    } else {
      assert ds[0].headerLine < ds[k].headerLine;
      RenamedHeaderAtDecl(ds[1..], k - 1, ds[0].closeLine + 1);
    }
  }

  /** The classifications of a file and of the file with its renames applied
      are alike line by line. */
  lemma RenamedFileAlike(lines: seq<string>, ds: seq<Decl>, R: seq<string>, A: seq<LineInfo>, B: seq<LineInfo>)
    requires forall k :: 0 <= k < |ds| ==> HeadedAt(lines, ds[k])
    requires |R| == |lines| && forall t :: 0 <= t < |lines| ==> R[t] == RenamedLine(lines, ds, t)
    requires Agrees(A, lines) && Agrees(B, R)
    ensures AllAlike(A, B)
  {
    forall t | 0 <= t < |A|
      ensures Alike(A[t], B[t])
    {
      assert Describes(A[t], lines[t]) && Describes(B[t], R[t]);
      match RenamedHeaderAt(ds, t)
      case None => SameLineAlike(A[t], B[t], lines[t]);
      case Some(hr) =>
        RenamedHeaderAtSome(ds, t);
        var k :| 0 <= k < |ds| && ds[k].headerLine == t && NeedsRename(ds[k]) && hr == Renamed(ds[k].header);
        RenamedLineAlike(ds[k].header, A[t], B[t]);
    }
  }

  /** The file the patch engine makes of the rename patches of its
      declarations. */
  function RenamedFile(lines: seq<string>, ds: seq<Decl>): (R: seq<string>)
    requires forall k :: 0 <= k < |ds| ==> HeadedAt(lines, ds[k])
    requires Ordered(ds, 0)
    ensures |R| == |lines|
    ensures forall t :: 0 <= t < |lines| ==> R[t] == RenamedLine(lines, ds, t)
  {
    ApplyRenamePatches(lines, lines, ds, 0);
    RewritesAreEngineOrder(lines, RenamePatches(lines, ds));
    ApplyAll(lines, RenamePatches(lines, ds))
  }

  /** Scanning the renamed file finds every declaration again, at the same
      lines, with the identifier the rename gave it. */
  lemma RescanAfterRename(lines: seq<string>)
    requires Scan(lines).Success?
    ensures var ds := Scan(lines).value;
      var again := Scan(RenamedFile(lines, ds));
      && again.Success? && |again.value| == |ds|
      && forall k :: 0 <= k < |ds| ==> again.value[k] == AfterRename(ds[k])
  {
    var ds := Scan(lines).value;
    var R := RenamedFile(lines, ds);
    var A, B := ClassifyAll(lines), ClassifyAll(R);
    RenamedFileAlike(lines, ds, R, A, B);
    ScanFromAlike(A, B);
    var es := Scan(R).value;
    forall k | 0 <= k < |ds|
      ensures es[k] == AfterRename(ds[k])
    {
      assert SameSpot(ds[k], es[k]) && HeadedAt(R, es[k]) && HeadedAt(lines, ds[k]);
      RescannedDecl(lines, ds, R, k, es[k]);
    }
  }

  /** A declaration the second scan finds where the first found `ds[k]`
      is `ds[k]` as the rename leaves it. */
  lemma RescannedDecl(lines: seq<string>, ds: seq<Decl>, R: seq<string>, k: nat, e: Decl)
    requires Ordered(ds, 0) && k < |ds|
    requires HeadedAt(lines, ds[k]) && HeadedAt(R, e) && SameSpot(ds[k], e)
    requires |R| == |lines| && R[e.headerLine] == RenamedLine(lines, ds, e.headerLine)
    ensures e == AfterRename(ds[k])
  {
    RenamedHeaderAtDecl(ds, k, 0);
    if NeedsRename(ds[k]) {
      HeaderTextInjective(e.header, Renamed(ds[k].header));
    } else {
      HeaderTextInjective(e.header, ds[k].header);
    }
  }

  /** Idempotence of the rename suggestor: on the file its patches produce
      it suggests nothing. */
  lemma RenameIdempotent(lines: seq<string>)
    requires SuggestRenames(lines).Success?
    ensures SuggestRenames(RenamedFile(lines, Scan(lines).value)) == Success([])
  {
    var ds := Scan(lines).value;
    var R := RenamedFile(lines, ds);
    RescanAfterRename(lines);
    var es := Scan(R).value;
    assert forall k :: 0 <= k < |es| ==> !NeedsRename(es[k]) by {
      forall k | 0 <= k < |es|
        ensures !NeedsRename(es[k])
      {
        assert es[k] == AfterRename(ds[k]);
      }
    }
  }
}

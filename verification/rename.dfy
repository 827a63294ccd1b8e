/** The rename suggestor: for every recognised declaration whose identifier
    does not yet carry the `_$` sigil, one patch rewrites the annotation
    lines and the header, changing only the identifier to its hidden form. */
module RenameSuggestor {
  import opened Results
  import opened Text
  import opened Naming
  import opened Annotations
  import opened Headers
  import opened Scanner
  import opened ScanSpec
  import opened Patches

  /** A declaration is renamed at most once: an identifier that already
      carries the sigil is left alone. */
  predicate NeedsRename(d: Decl) {
    !HasSigil(d.header.name)
  }

  /** The patch for one declaration: it covers the recognised annotation
      through the header line and puts back as many lines as it covers (see
      `RenamePatchLines` for what they are). */
  function RenamePatch(lines: seq<string>, d: Decl): (p: Patch)
    requires HeadedAt(lines, d)
    ensures p.startLine == d.start && p.endLine == d.headerLine + 1
    ensures InFile(p, |lines|)
    ensures |p.newLines| == p.endLine - p.startLine
  {
    var annotations := TerminateAll(lines[d.start..d.headerLine]);
    var header := Terminated(HeaderText(Renamed(d.header)));
    Patch(d.start, d.headerLine + 1, annotations + [header])
  }

  /** The lines of a rename patch: every annotation line it covers as it
      was, then the header renamed (by `RenameOnlyIdentifier`, the header
      line with only its identifier hidden). */
  lemma RenamePatchLines(lines: seq<string>, d: Decl)
    requires HeadedAt(lines, d)
    ensures forall t :: d.start <= t < d.headerLine ==>
      RenamePatch(lines, d).newLines[t - d.start] == Terminated(lines[t])
    ensures RenamePatch(lines, d).newLines[d.headerLine - d.start] == Terminated(HeaderText(Renamed(d.header)))
  {
    TerminatedRunThen(lines, d.start, d.headerLine, Terminated(HeaderText(Renamed(d.header))));
  }

  lemma TerminatedRunThen(ls: seq<string>, a: nat, b: nat, x: string)
    requires a <= b <= |ls|
    ensures forall t :: a <= t < b ==> (TerminateAll(ls[a..b]) + [x])[t - a] == Terminated(ls[t])
    ensures (TerminateAll(ls[a..b]) + [x])[b - a] == x
  {
    var run := TerminateAll(ls[a..b]);
    forall t | a <= t < b
      ensures (run + [x])[t - a] == Terminated(ls[t])
    {
      assert ls[a..b][t - a] == ls[t];
    }
  }

  /** How many declarations of `ds` need renaming. */
  function RenameCount(ds: seq<Decl>): (n: nat)
    ensures n <= |ds|
  {
    if |ds| == 0 then 0 else (if NeedsRename(ds[0]) then 1 else 0) + RenameCount(ds[1..])
  }

  /** The patches for the declarations that need renaming, in file order:
      as many as there are such declarations (`RenamePatchesExact` says
      which). */
  function RenamePatches(lines: seq<string>, ds: seq<Decl>): (ps: seq<Patch>)
    requires forall k :: 0 <= k < |ds| ==> HeadedAt(lines, ds[k])
    ensures |ps| == RenameCount(ds)
    ensures (forall k :: 0 <= k < |ds| ==> !NeedsRename(ds[k])) <==> ps == []
  {
    if |ds| == 0 then []
    else
      var rest := RenamePatches(lines, ds[1..]);
      if NeedsRename(ds[0]) then [RenamePatch(lines, ds[0])] + rest
      else
        assert forall k :: 0 < k < |ds| ==> ds[1..][k - 1] == ds[k];
        rest
  }

  /** `p` is the rename patch of a declaration of `ds` that needs
      renaming. */
  ghost predicate RenamesSome(lines: seq<string>, ds: seq<Decl>, p: Patch)
    requires forall k :: 0 <= k < |ds| ==> HeadedAt(lines, ds[k])
  {
    exists j :: 0 <= j < |ds| && NeedsRename(ds[j]) && p == RenamePatch(lines, ds[j])
  }

  /** One rename patch for each declaration that needs renaming, and no
      other patch. */
  lemma RenamePatchesExact(lines: seq<string>, ds: seq<Decl>)
    requires forall k :: 0 <= k < |ds| ==> HeadedAt(lines, ds[k])
    ensures forall j :: 0 <= j < |ds| && NeedsRename(ds[j]) ==> RenamePatch(lines, ds[j]) in RenamePatches(lines, ds)
    ensures forall p :: p in RenamePatches(lines, ds) ==> RenamesSome(lines, ds, p)
  {
    RenamePatchesCover(lines, ds);
    RenamePatchesOnly(lines, ds);
  }

  lemma {:induction false} RenamePatchesCover(lines: seq<string>, ds: seq<Decl>)
    requires forall k :: 0 <= k < |ds| ==> HeadedAt(lines, ds[k])
    ensures forall j :: 0 <= j < |ds| && NeedsRename(ds[j]) ==> RenamePatch(lines, ds[j]) in RenamePatches(lines, ds)
    decreases |ds|
  {
    if |ds| > 0 {
      TailHeaded(lines, ds);
      RenamePatchesCover(lines, ds[1..]);
      var rest := RenamePatches(lines, ds[1..]);
      assert forall j :: 0 < j < |ds| ==> ds[1..][j - 1] == ds[j];
      assert RenamePatches(lines, ds) == if NeedsRename(ds[0]) then [RenamePatch(lines, ds[0])] + rest else rest;
    }
  }

  lemma {:induction false} RenamePatchesOnly(lines: seq<string>, ds: seq<Decl>)
    requires forall k :: 0 <= k < |ds| ==> HeadedAt(lines, ds[k])
    ensures forall p :: p in RenamePatches(lines, ds) ==> RenamesSome(lines, ds, p)
    decreases |ds|
  {
    if |ds| > 0 {
      TailHeaded(lines, ds);
      RenamePatchesOnly(lines, ds[1..]);
      var rest := RenamePatches(lines, ds[1..]);
      forall p | p in RenamePatches(lines, ds)
        ensures RenamesSome(lines, ds, p)
      {
        if p in rest {
          RenamesSomeTail(lines, ds, p);
        } else {
          RenamesSomeHead(lines, ds);
        }
      }
    }
  }

  lemma RenamesSomeHead(lines: seq<string>, ds: seq<Decl>)
    requires |ds| > 0 && NeedsRename(ds[0]) && forall k :: 0 <= k < |ds| ==> HeadedAt(lines, ds[k])
    ensures RenamesSome(lines, ds, RenamePatch(lines, ds[0]))
  {
  }

  lemma RenamesSomeTail(lines: seq<string>, ds: seq<Decl>, p: Patch)
    requires |ds| > 0 && forall k :: 0 <= k < |ds| ==> HeadedAt(lines, ds[k])
    requires forall k :: 0 <= k < |ds[1..]| ==> HeadedAt(lines, ds[1..][k])
    requires RenamesSome(lines, ds[1..], p)
    ensures RenamesSome(lines, ds, p)
  {
    var j :| 0 <= j < |ds[1..]| && NeedsRename(ds[1..][j]) && p == RenamePatch(lines, ds[1..][j]);
    assert ds[1..][j] == ds[j + 1];
  }

  /** The rename suggestor over one file. A body that never closes fails
      the file rather than producing a partial set of patches; otherwise it
      suggests non-overlapping rewrites in file order, one for each
      declaration whose identifier is not yet hidden (`SuggestRenamesExact`
      says which). */
  function SuggestRenames(lines: seq<string>): (r: Result<seq<Patch>, ScanError>)
    ensures r.Success? <==> Scan(lines).Success?
    ensures r.Failure? ==> r.error == Scan(lines).error && NeverCloses(lines, r.error.headerLine)
    ensures r.Success? ==> Sequential(r.value) && Rewrites(r.value, |lines|)
    ensures r.Success? ==> |r.value| == RenameCount(Scan(lines).value)
  {
    ScanSound(lines);
    match Scan(lines)
    case Failure(e) => Failure(e)
    case Success(ds) =>
      RenamePatchesSequential(lines, ds, 0);
      Success(RenamePatches(lines, ds))
  }

  /** Every declaration the rename suggestor finds is a declaration of the
      text; each one whose identifier is not hidden gets its rename patch,
      and every suggested patch is the rename patch of such a declaration. */
  lemma SuggestRenamesExact(lines: seq<string>)
    requires SuggestRenames(lines).Success?
    ensures forall d :: d in Scan(lines).value ==>
      IsDeclAt(lines, d) && (NeedsRename(d) ==> RenamePatch(lines, d) in SuggestRenames(lines).value)
    ensures forall p :: p in SuggestRenames(lines).value ==> exists d ::
      IsDeclAt(lines, d) && NeedsRename(d) && p == RenamePatch(lines, d)
  {
    var ds := Scan(lines).value;
    var ps := SuggestRenames(lines).value;
    assert ps == RenamePatches(lines, ds);
    ScanSound(lines);
    RenamePatchesExact(lines, ds);
    forall d | d in ds
      ensures IsDeclAt(lines, d) && (NeedsRename(d) ==> RenamePatch(lines, d) in ps)
    {
      var j :| 0 <= j < |ds| && ds[j] == d;
      assert IsDeclAt(lines, ds[j]);
    }
    forall p | p in ps
      ensures exists d :: IsDeclAt(lines, d) && NeedsRename(d) && p == RenamePatch(lines, d)
    {
      assert RenamesSome(lines, ds, p);
      var j :| 0 <= j < |ds| && NeedsRename(ds[j]) && p == RenamePatch(lines, ds[j]);
      assert IsDeclAt(lines, ds[j]);
    }
  }

  /** The rename patches of the scanned declarations are rewrites, in file
      order and not overlapping, all at or after line `i`. */
  lemma {:induction false} RenamePatchesSequential(lines: seq<string>, ds: seq<Decl>, i: nat)
    requires forall k :: 0 <= k < |ds| ==> HeadedAt(lines, ds[k])
    requires Ordered(ds, i)
    ensures Sequential(RenamePatches(lines, ds))
    ensures Rewrites(RenamePatches(lines, ds), |lines|)
    ensures forall k :: 0 <= k < |RenamePatches(lines, ds)| ==> i <= RenamePatches(lines, ds)[k].startLine
    decreases |ds|
  {
    if |ds| > 0 {
      OrderedTail(ds, i);
      assert forall k :: 0 <= k < |ds[1..]| ==> ds[1..][k] == ds[k + 1];
      RenamePatchesSequential(lines, ds[1..], ds[0].closeLine + 1);
      var rest := RenamePatches(lines, ds[1..]);
      if NeedsRename(ds[0]) {
        var p := RenamePatch(lines, ds[0]);
        assert Rewrites([p], |lines|);
        ConsSequential(p, rest, |lines|, i);
      }
    }
  }

  /** The renamed header that belongs on line `t`, if `t` is the header
      line of a declaration of `ds` that needs renaming. */
  ghost function RenamedHeaderAt(ds: seq<Decl>, t: nat): Option<Header> {
    if |ds| == 0 then None
    else if NeedsRename(ds[0]) && ds[0].headerLine == t then Some(Renamed(ds[0].header))
    else RenamedHeaderAt(ds[1..], t)
  }

  lemma {:induction false} NoRenameBefore(ds: seq<Decl>, t: nat, i: nat)
    requires Ordered(ds, i) && t < i
    ensures RenamedHeaderAt(ds, t) == None
    decreases |ds|
  {
    if |ds| > 0 {
      OrderedTail(ds, i);
      NoRenameBefore(ds[1..], t, ds[0].closeLine + 1);
    }
  }

  /** Line `t` of file `L` once the rename patches of `ds` are applied. */
  ghost function RenamedLine(L: seq<string>, ds: seq<Decl>, t: nat): string
    requires t < |L|
  {
    match RenamedHeaderAt(ds, t)
    case Some(h) => HeaderText(h)
    case None => L[t]
  }

  /** One rename patch rewrites its header line and reproduces the
      annotation lines it covers. */
  lemma ReplaceByRenamePatch(L: seq<string>, lines: seq<string>, d: Decl, i: nat)
    requires HeadedAt(lines, d) && i <= d.start
    requires |L| == |lines|
    requires forall t :: i <= t < |lines| ==> L[t] == lines[t]
    ensures forall t :: 0 <= t < |L| ==>
      Replace(L, RenamePatch(lines, d))[t] == (if t == d.headerLine then HeaderText(Renamed(d.header)) else L[t])
  {
    var p := RenamePatch(lines, d);
    var s, e := p.startLine, p.endLine;
    var c := Contents(p.newLines);
    var r := Replace(L, p);
    assert r == L[..s] + c + L[e..];
    forall t | 0 <= t < |L|
      ensures r[t] == (if t == d.headerLine then HeaderText(Renamed(d.header)) else L[t])
    {
      if t < s {
        assert r[t] == L[t];
      } else if t < e {
        assert r[t] == c[t - s] == Content(p.newLines[t - s]);
        RenamePatchLines(lines, d);
        if t < d.headerLine {
          ContentOfTerminated(lines[t]);
        } else {
          ContentOfTerminated(HeaderText(Renamed(d.header)));
        }
      } else {
        assert r[t] == L[t];
      }
    }
  }

  /** Applying the rename patches rewrites exactly the header lines of the
      declarations that need renaming; every other line, the annotation
      lines included, reads as before. */
  lemma {:induction false} ApplyRenamePatches(L: seq<string>, lines: seq<string>, ds: seq<Decl>, i: nat)
    requires forall k :: 0 <= k < |ds| ==> HeadedAt(lines, ds[k])
    requires Ordered(ds, i)
    requires |L| == |lines|
    requires forall t :: i <= t < |lines| ==> L[t] == lines[t]
    ensures Sequential(RenamePatches(lines, ds)) && Rewrites(RenamePatches(lines, ds), |L|)
    ensures forall t :: 0 <= t < |L| ==> ApplyRewrites(L, RenamePatches(lines, ds))[t] == RenamedLine(L, ds, t)
    decreases |ds|, 1
  {
    RenamePatchesSequential(lines, ds, i);
    if |ds| > 0 {
      if NeedsRename(ds[0]) {
        ApplyRenamedFirst(L, lines, ds, i);
      } else {
        OrderedTail(ds, i);
        TailHeaded(lines, ds);
        ApplyRenamePatches(L, lines, ds[1..], ds[0].closeLine + 1);
        UnrenamedFirst(L, lines, ds, i);
      }
    }
  }

  /** The step of `ApplyRenamePatches` when the first declaration is
      renamed. */
  lemma {:induction false} ApplyRenamedFirst(L: seq<string>, lines: seq<string>, ds: seq<Decl>, i: nat)
    requires forall k :: 0 <= k < |ds| ==> HeadedAt(lines, ds[k])
    requires Ordered(ds, i) && |ds| > 0 && NeedsRename(ds[0])
    requires Sequential(RenamePatches(lines, ds)) && Rewrites(RenamePatches(lines, ds), |L|)
    requires |L| == |lines|
    requires forall t :: i <= t < |lines| ==> L[t] == lines[t]
    ensures forall t :: 0 <= t < |L| ==> ApplyRewrites(L, RenamePatches(lines, ds))[t] == RenamedLine(L, ds, t)
    decreases |ds|, 0
  {
    OrderedTail(ds, i);
    TailHeaded(lines, ds);
    var L1 := Replace(L, RenamePatch(lines, ds[0]));
    ReplaceByRenamePatch(L, lines, ds[0], i);
    ApplyRenamePatches(L1, lines, ds[1..], ds[0].closeLine + 1);
    RenamedFirst(L, lines, ds);
    FirstRenameLines(L, L1, ApplyRewrites(L1, RenamePatches(lines, ds[1..])), ds);
  }

  lemma TailHeaded(lines: seq<string>, ds: seq<Decl>)
    requires |ds| > 0 && forall k :: 0 <= k < |ds| ==> HeadedAt(lines, ds[k])
    ensures forall k :: 0 <= k < |ds[1..]| ==> HeadedAt(lines, ds[1..][k])
  {
    assert forall k :: 0 <= k < |ds[1..]| ==> ds[1..][k] == ds[k + 1];
  }

  /** The inductive step of `ApplyRenamePatches` when the first declaration
      keeps its identifier: its patch is absent and its lines unchanged. */
  lemma UnrenamedFirst(L: seq<string>, lines: seq<string>, ds: seq<Decl>, i: nat)
    requires forall k :: 0 <= k < |ds| ==> HeadedAt(lines, ds[k])
    requires |ds| > 0 && !NeedsRename(ds[0]) && |L| == |lines|
    requires forall k :: 0 <= k < |ds[1..]| ==> HeadedAt(lines, ds[1..][k])
    requires Sequential(RenamePatches(lines, ds[1..])) && Rewrites(RenamePatches(lines, ds[1..]), |L|)
    requires forall t :: 0 <= t < |L| ==> ApplyRewrites(L, RenamePatches(lines, ds[1..]))[t] == RenamedLine(L, ds[1..], t)
    ensures RenamePatches(lines, ds) == RenamePatches(lines, ds[1..])
    ensures forall t :: 0 <= t < |L| ==> RenamedLine(L, ds, t) == RenamedLine(L, ds[1..], t)
  {
  }

  /** The inductive step of `ApplyRenamePatches` when the first declaration
      is renamed: its patch comes first, then the others. */
  lemma RenamedFirst(L: seq<string>, lines: seq<string>, ds: seq<Decl>)
    requires forall k :: 0 <= k < |ds| ==> HeadedAt(lines, ds[k])
    requires |ds| > 0 && NeedsRename(ds[0]) && |L| == |lines|
    requires Sequential(RenamePatches(lines, ds)) && Rewrites(RenamePatches(lines, ds), |L|)
    requires forall k :: 0 <= k < |ds[1..]| ==> HeadedAt(lines, ds[1..][k])
    ensures Sequential(RenamePatches(lines, ds[1..]))
    ensures Rewrites(RenamePatches(lines, ds[1..]), |Replace(L, RenamePatch(lines, ds[0]))|)
    ensures ApplyRewrites(L, RenamePatches(lines, ds)) ==
      ApplyRewrites(Replace(L, RenamePatch(lines, ds[0])), RenamePatches(lines, ds[1..]))
  {
    var p := RenamePatch(lines, ds[0]);
    var rest := RenamePatches(lines, ds[1..]);
    assert RenamePatches(lines, ds) == [p] + rest;
    ApplyRewritesCons(L, p, rest);
  }

  /** Line by line, the inductive step of `ApplyRenamePatches` when the
      first declaration is renamed: `L1` is `L` with its header rewritten
      and `R` is `L1` with the rest of the renames applied. */
  lemma FirstRenameLines(L: seq<string>, L1: seq<string>, R: seq<string>, ds: seq<Decl>)
    requires |ds| > 0 && NeedsRename(ds[0])
    requires Ordered(ds[1..], ds[0].closeLine + 1) && ds[0].headerLine <= ds[0].closeLine
    requires |L| == |L1| == |R|
    requires forall t :: 0 <= t < |L| ==>
      L1[t] == (if t == ds[0].headerLine then HeaderText(Renamed(ds[0].header)) else L[t])
    requires forall t :: 0 <= t < |L1| ==> R[t] == RenamedLine(L1, ds[1..], t)
    ensures forall t :: 0 <= t < |L| ==> R[t] == RenamedLine(L, ds, t)
  {
    forall t | 0 <= t < |L|
      ensures R[t] == RenamedLine(L, ds, t)
    {
      if t == ds[0].headerLine {
        NoRenameBefore(ds[1..], t, ds[0].closeLine + 1);
      }
    }
  }
}

/** For archives without hard links the order of the entries does not matter: unpacking
    succeeds exactly when the entries are pairwise compatible, and the tree is determined by
    the multiset of entries. */
module UnpackOrder {
  import opened Basics
  import opened TarPaths
  import opened UnpackTree

  predicate Acceptable(e: Entry) {
    TarTarget(e.name).Some? && (e.kind.DirEntry? || e.kind.RegEntry? || e.kind.SymlinkEntry?)
  }

  function Target(e: Entry): Path
    requires Acceptable(e)
  {
    TarTarget(e.name).value
  }

  function NodeOf(e: Entry): Node
    requires Acceptable(e)
  {
    match e.kind
    case DirEntry => Dir
    case RegEntry(mode, content) => File(Perm(mode), content)
    case SymlinkEntry(linkname) => Symlink(linkname)
  }

  /** Every entry is acceptable, an entry that is not a directory occurs once, and its target is
      neither equal to nor above the target of another entry. */
  ghost predicate Compatible(m: multiset<Entry>) {
    && (forall e | e in m :: Acceptable(e))
    && (forall e | e in m && !e.kind.DirEntry? :: m[e] == 1)
    && (forall e, f | e in m && f in m && e != f && !e.kind.DirEntry? :: !IsPrefix(Target(e), Target(f)))
  }

  ghost predicate Implied(m: multiset<Entry>, p: Path)
    requires forall e | e in m :: Acceptable(e)
  {
    p != [] && exists e | e in m :: IsPrefix(p, Target(e))
  }

  /** `t` has each entry's node at its target, directories above the targets, nothing else. */
  ghost predicate Describes(m: multiset<Entry>, t: Tree)
    requires forall e | e in m :: Acceptable(e)
  {
    && (forall p | p in t :: Implied(m, p))
    && (forall p | Implied(m, p) :: p in t)
    && (forall e | e in m :: Target(e) in t && t[Target(e)] == NodeOf(e))
    && (forall p | p in t && t[p] != Dir :: exists e | e in m :: !e.kind.DirEntry? && Target(e) == p)
  }

  lemma DescribesUnique(m: multiset<Entry>, t: Tree, t': Tree)
    requires (forall e | e in m :: Acceptable(e)) && Describes(m, t) && Describes(m, t')
    ensures t == t'
  {
    hide TarTarget, Implied, NodeOf, IsPrefix;
    forall p | p in t ensures p in t' && t[p] == t'[p] {
      assert Implied(m, p);
    }
    forall p | p in t' ensures p in t {
      assert Implied(m, p);
    }
  }

  lemma TargetNonEmpty(e: Entry)
    requires Acceptable(e)
    ensures Target(e) != []
  {
    AcceptedNamesAreUnpackable(e.name);
  }

  /** No parent of the target is taken by something that is not a directory. */
  ghost predicate ParentsFree(m: multiset<Entry>, target: Path)
    requires forall e | e in m :: Acceptable(e)
  {
    forall f | f in m && !f.kind.DirEntry? :: !(IsPrefix(Target(f), target) && Target(f) != target)
  }

  lemma ParentsFreeIff(m: multiset<Entry>, t: Tree, target: Path)
    requires (forall e | e in m :: Acceptable(e)) && Describes(m, t)
    ensures AddParents(t, target, 1).Some? <==> ParentsFree(m, target)
  {
    hide TarTarget, Implied, AddParents;
    AddParentsAdds(t, target, 1);
    if AddParents(t, target, 1).Some? {
      forall f | f in m && !f.kind.DirEntry? ensures !(IsPrefix(Target(f), target) && Target(f) != target) {
        TargetNonEmpty(f);
        var p := Target(f);
        assert t[p] == NodeOf(f) != Dir;
        assert target[..|target|] == target;
      }
    }
    if ParentsFree(m, target) {
      forall i | 0 < i < |target| && target[..i] in t ensures t[target[..i]] == Dir {
        var p := target[..i];
        assert IsPrefix(p, target) && |p| < |target|;
      }
    }
  }

  /** The entries of `m` leave room for `e`. */
  ghost predicate Fits(m: multiset<Entry>, e: Entry)
    requires (forall f | f in m :: Acceptable(f)) && Acceptable(e)
  {
    && ParentsFree(m, Target(e))
    && (if e.kind.DirEntry? then forall f | f in m && !f.kind.DirEntry? :: Target(f) != Target(e)
        else forall f | f in m :: !IsPrefix(Target(e), Target(f)))
  }

  lemma CompatibleIffFits(m: multiset<Entry>, e: Entry)
    requires Compatible(m) && Acceptable(e)
    ensures Compatible(m + multiset{e}) <==> Fits(m, e)
  {
    hide TarTarget;
    var more := m + multiset{e};
    assert forall f :: f in more <==> f in m || f == e;
    assert IsPrefix(Target(e), Target(e));
    if Compatible(more) {
      if !e.kind.DirEntry? {
        assert more[e] == m[e] + 1 == 1;
      }
      forall f | f in m && !f.kind.DirEntry? ensures !IsPrefix(Target(f), Target(e)) {
        assert more[f] == m[f] + multiset{e}[f];
      }
    }
    if Fits(m, e) {
      assert !e.kind.DirEntry? ==> e !in m;
      forall f | f in m && !f.kind.DirEntry? ensures !IsPrefix(Target(f), Target(e)) {}
    }
  }

  lemma CompatibleShrinks(m: multiset<Entry>, e: Entry)
    requires Compatible(m + multiset{e})
    ensures Compatible(m)
  {
    hide TarTarget;
    assert forall f | f in m :: f in m + multiset{e};
  }

  lemma TakenIff(m: multiset<Entry>, t: Tree, p: Path)
    requires (forall e | e in m :: Acceptable(e)) && Describes(m, t) && p != []
    ensures p in t <==> exists f | f in m :: IsPrefix(p, Target(f))
  {
    hide TarTarget, IsPrefix, NodeOf;
    assert p in t <==> Implied(m, p);
  }

  lemma NonDirIff(m: multiset<Entry>, t: Tree, p: Path)
    requires (forall e | e in m :: Acceptable(e)) && Describes(m, t) && p in t
    ensures t[p] != Dir <==> exists f | f in m :: !f.kind.DirEntry? && Target(f) == p
  {
    hide TarTarget, Implied;
  }

  /** Unpacking one more entry succeeds exactly when the entry fits. */
  lemma ApplyIffFits(m: multiset<Entry>, t: Tree, e: Entry)
    requires Compatible(m) && Describes(m, t) && !e.kind.LinkEntry?
    ensures ApplyEntry(t, e).Some? <==> Acceptable(e) && Fits(m, e)
  {
    hide TarTarget, AddParents, Describes;
    if Acceptable(e) {
      var target := Target(e);
      TargetNonEmpty(e);
      ParentsFreeIff(m, t, target);
      AddParentsAdds(t, target, 1);
      TakenIff(m, t, target);
      if target in t {
        NonDirIff(m, t, target);
      }
      if AddParents(t, target, 1).Some? {
        var t1 := AddParents(t, target, 1).value;
        assert target in t1 <==> target in t;
        assert target in t ==> t1[target] == t[target];
      }
    }
  }

  lemma ApplyGrows(t: Tree, e: Entry)
    requires Acceptable(e) && ApplyEntry(t, e).Some?
    ensures Grown(t, ApplyEntry(t, e).value, Target(e), NodeOf(e))
  {
    hide TarTarget, AddParents;
    var target := Target(e);
    TargetNonEmpty(e);
    AddParentsAdds(t, target, 1);
    assert target[..|target|] == target;
  }

  lemma ImpliedGrows(m: multiset<Entry>, e: Entry, p: Path)
    requires (forall f | f in m :: Acceptable(f)) && Acceptable(e)
    ensures forall f | f in m + multiset{e} :: Acceptable(f)
    ensures Implied(m + multiset{e}, p) <==> Implied(m, p) || (p != [] && IsPrefix(p, Target(e)))
  {
    hide TarTarget, IsPrefix;
    var more := m + multiset{e};
    assert forall f :: f in more <==> f in m || f == e;
    if p != [] && IsPrefix(p, Target(e)) {
      assert e in more;
    }
    if Implied(m, p) {
      var f :| f in m && IsPrefix(p, Target(f));
      assert f in more;
    }
  }

  lemma GrownHas(t: Tree, t': Tree, target: Path, node: Node, p: Path)
    requires Grown(t, t', target, node) && target != []
    ensures p in t' <==> p in t || (p != [] && IsPrefix(p, target))
  {
    if p != [] && IsPrefix(p, target) {
      assert target[..|p|] == p;
      assert |p| == |target| ==> p == target;
    }
  }

  lemma GrownImplied(m: multiset<Entry>, t: Tree, t': Tree, e: Entry, p: Path)
    requires (forall f | f in m :: Acceptable(f)) && Acceptable(e) && Grown(t, t', Target(e), NodeOf(e))
    requires p in t <==> Implied(m, p)
    ensures (forall f | f in m + multiset{e} :: Acceptable(f)) && (p in t' <==> Implied(m + multiset{e}, p))
  {
    hide TarTarget, NodeOf, Implied, Grown, IsPrefix;
    TargetNonEmpty(e);
    ImpliedGrows(m, e, p);
    GrownHas(t, t', Target(e), NodeOf(e), p);
  }

  lemma GrownNonDir(m: multiset<Entry>, t: Tree, t': Tree, e: Entry, p: Path)
    requires (forall f | f in m :: Acceptable(f)) && Describes(m, t) && Acceptable(e)
        && Grown(t, t', Target(e), NodeOf(e))
    requires p in t' && t'[p] != Dir
    ensures (forall f | f in m + multiset{e} :: Acceptable(f))
    ensures exists f | f in m + multiset{e} :: !f.kind.DirEntry? && Target(f) == p
  {
    hide TarTarget, Implied, IsPrefix, Parents;
    var more := m + multiset{e};
    assert forall f :: f in more <==> f in m || f == e;
    if p in t {
      var f :| f in m && !f.kind.DirEntry? && Target(f) == p;
      assert f in more;
    } else {
      assert e in more;
    }
  }

  lemma ApplyDescribes(m: multiset<Entry>, t: Tree, e: Entry)
    requires Compatible(m) && Describes(m, t) && Acceptable(e) && ApplyEntry(t, e).Some?
    ensures (forall f | f in m + multiset{e} :: Acceptable(f)) && Describes(m + multiset{e}, ApplyEntry(t, e).value)
  {
    hide TarTarget, ApplyEntry, Implied, NodeOf, IsPrefix, Parents;
    var more, t' := m + multiset{e}, ApplyEntry(t, e).value;
    ApplyGrows(t, e);
    assert forall f :: f in more <==> f in m || f == e;
    forall p ensures p in t' <==> Implied(more, p) {
      GrownImplied(m, t, t', e, p);
    }
    forall p | p in t' && t'[p] != Dir ensures exists f | f in more :: !f.kind.DirEntry? && Target(f) == p {
      GrownNonDir(m, t, t', e, p);
    }
  }

  ghost predicate NoHardLinks(entries: seq<Entry>) {
    forall i | 0 <= i < |entries| :: !entries[i].kind.LinkEntry?
  }

  /** The closed form of unpacking. */
  lemma {:induction false} UnpackClosedForm(entries: seq<Entry>)
    requires NoHardLinks(entries)
    ensures ApplyAll(map[], entries).Some? <==> Compatible(multiset(entries))
    ensures ApplyAll(map[], entries).Some? ==> Describes(multiset(entries), ApplyAll(map[], entries).value)
  {
    if entries != [] {
      var before, e := entries[..|entries| - 1], entries[|entries| - 1];
      assert entries == before + [e];
      assert multiset(entries) == multiset(before) + multiset{e};
      UnpackClosedForm(before);
      hide Compatible, Describes, Fits, ApplyEntry, Acceptable;
      if Compatible(multiset(before)) {
        var t := ApplyAll(map[], before).value;
        ApplyIffFits(multiset(before), t, e);
        if Acceptable(e) {
          CompatibleIffFits(multiset(before), e);
          if ApplyEntry(t, e).Some? {
            ApplyDescribes(multiset(before), t, e);
          }
        } else {
          UnacceptableIncompatible(multiset(before), e);
        }
      } else if Compatible(multiset(entries)) {
        CompatibleShrinks(multiset(before), e);
      }
    }
  }

  lemma UnacceptableIncompatible(m: multiset<Entry>, e: Entry)
    requires !Acceptable(e)
    ensures !Compatible(m + multiset{e})
  {
    assert e in m + multiset{e};
  }

  /** Permuting an archive without hard links changes neither success nor the tree. */
  lemma UnpackOrderIrrelevant(entries: seq<Entry>, permuted: seq<Entry>)
    requires NoHardLinks(entries) && multiset(entries) == multiset(permuted)
    ensures ApplyAll(map[], entries) == ApplyAll(map[], permuted)
  {
    forall i | 0 <= i < |permuted| ensures !permuted[i].kind.LinkEntry? {
      assert permuted[i] in multiset(entries);
    }
    UnpackClosedForm(entries);
    UnpackClosedForm(permuted);
    if Compatible(multiset(entries)) {
      DescribesUnique(multiset(entries), ApplyAll(map[], entries).value, ApplyAll(map[], permuted).value);
    }
  }

  // ---- hard links ----

  /** A link needs its file: on the empty tree there is none. */
  lemma LinkFailsFirst(e: Entry)
    requires e.kind.LinkEntry?
    ensures ApplyEntry(map[], e) == None
  {
    hide TarTarget;
    if TarTarget(e.kind.linkname).Some? {
      var source := TarTarget(e.kind.linkname).value;
      AddParentsAdds(map[], source, 1);
    }
  }

  /** With a link moved to the front the archive no longer unpacks. */
  lemma HardLinksNeedOrder(entries: seq<Entry>, i: nat) returns (permuted: seq<Entry>)
    requires i < |entries| && entries[i].kind.LinkEntry?
    ensures multiset(permuted) == multiset(entries) && ApplyAll(map[], permuted) == None
  {
    hide ApplyEntry;
    permuted := [entries[i]] + entries[..i] + entries[i + 1..];
    assert entries == entries[..i] + [entries[i]] + entries[i + 1..];
    LinkFailsFirst(entries[i]);
    assert permuted[..1] == [entries[i]] && [entries[i]][..0] == [];
    assert ApplyAll(map[], [entries[i]]) == None;
    ApplyAllFails(map[], permuted, 1);
  }

  /** For an archive that unpacks, the order of the entries is irrelevant exactly when it has no hard link. */
  lemma OrderIrrelevantIff(entries: seq<Entry>)
    requires ApplyAll(map[], entries).Some?
    ensures (forall permuted | multiset(permuted) == multiset(entries) ::
               ApplyAll(map[], permuted) == ApplyAll(map[], entries)) <==> NoHardLinks(entries)
  {
    hide ApplyAll;
    if NoHardLinks(entries) {
      forall permuted | multiset(permuted) == multiset(entries)
        ensures ApplyAll(map[], permuted) == ApplyAll(map[], entries)
      {
        UnpackOrderIrrelevant(entries, permuted);
      }
    } else {
      var i :| 0 <= i < |entries| && entries[i].kind.LinkEntry?;
      var permuted := HardLinksNeedOrder(entries, i);
    }
  }
}

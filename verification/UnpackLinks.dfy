/** Archives with hard links: each link stands for the regular file that its chain of links ends in. */
module UnpackLinks {
  import opened Basics
  import opened TarPaths
  import opened UnpackOrder
  import opened UnpackTree

  /** The entry is a regular file at the place that `name` refers to. */
  ghost predicate IsFileAt(e: Entry, name: string) {
    e.kind.RegEntry? && TarTarget(e.name).Some? && TarTarget(e.name) == TarTarget(name)
  }

  /** An entry without its link: one earlier file at the place linked to lends it mode and content. */
  ghost predicate Inlined(e: Entry, earlier: seq<Entry>, plain: Entry) {
    && plain.name == e.name
    && if e.kind.LinkEntry?
       then exists j | 0 <= j < |earlier| :: IsFileAt(earlier[j], e.kind.linkname) && plain.kind == earlier[j].kind
       else plain.kind == e.kind
  }

  /** The archive with every link replaced in this way, from the front. */
  ghost predicate Inlines(entries: seq<Entry>, plain: seq<Entry>) {
    |plain| == |entries| && forall i | 0 <= i < |entries| :: Inlined(entries[i], plain[..i], plain[i])
  }

  lemma InlinesPrefix(entries: seq<Entry>, plain: seq<Entry>)
    requires Inlines(entries, plain) && entries != []
    ensures Inlines(entries[..|entries| - 1], plain[..|plain| - 1])
  {
    var n := |entries| - 1;
    forall i | 0 <= i < n ensures Inlined(entries[..n][i], plain[..n][..i], plain[..n][i]) {
      assert plain[..n][..i] == plain[..i];
    }
  }

  lemma InlinesMore(entries: seq<Entry>, plain: seq<Entry>, e: Entry, f: Entry)
    requires Inlines(entries, plain) && Inlined(e, plain, f)
    ensures Inlines(entries + [e], plain + [f])
  {
    var entries', plain' := entries + [e], plain + [f];
    forall i | 0 <= i < |entries'| ensures Inlined(entries'[i], plain'[..i], plain'[i]) {
      assert plain'[..i] == plain[..i];
      assert plain[..|plain|] == plain;
    }
  }

  lemma InlinedHaveNoLinks(entries: seq<Entry>, plain: seq<Entry>)
    requires Inlines(entries, plain)
    ensures NoHardLinks(plain)
  {
    forall i | 0 <= i < |plain| ensures !plain[i].kind.LinkEntry? {
      assert Inlined(entries[i], plain[..i], plain[i]);
    }
  }

  /** What an unpacked archive without links holds at the place of one of its files. */
  lemma FileIsThere(plain: seq<Entry>, t: Tree, j: nat)
    requires NoHardLinks(plain) && ApplyAll(map[], plain) == Some(t) && j < |plain| && plain[j].kind.RegEntry?
    ensures TarTarget(plain[j].name).Some?
    ensures var RegEntry(mode, content) := plain[j].kind; var p := TarTarget(plain[j].name).value;
            p in t && t[p] == File(Perm(mode), content)
  {
    hide TarTarget, ApplyAll, Perm, Compatible, Implied, NoHardLinks;
    UnpackClosedForm(plain);
    Acceptables(plain);
    assert plain[j] in multiset(plain);
  }

  /** Every file of an unpacked archive without links is one of its regular entries. */
  lemma FileHasEntry(plain: seq<Entry>, t: Tree, p: Path) returns (j: nat)
    requires NoHardLinks(plain) && ApplyAll(map[], plain) == Some(t) && p in t && t[p].File?
    ensures j < |plain| && plain[j].kind.RegEntry? && TarTarget(plain[j].name) == Some(p)
  {
    hide TarTarget, ApplyAll, Perm, Compatible, Implied, NoHardLinks;
    UnpackClosedForm(plain);
    Acceptables(plain);
    var e :| e in multiset(plain) && !e.kind.DirEntry? && Target(e) == p;
    assert e in plain;
    j :| 0 <= j < |plain| && plain[j] == e;
  }

  lemma UnpackedIsRooted(entries: seq<Entry>)
    ensures ApplyAll(map[], entries).Some? ==> Rooted(ApplyAll(map[], entries).value)
  {
    if ApplyAll(map[], entries).Some? {
      ApplyAllKeeps(map[], entries);
    }
  }

  /** On the tree of what came before it, a link does what the file it stands for does. */
  lemma LinkIsFile(plain: seq<Entry>, t: Tree, e: Entry, f: Entry)
    requires NoHardLinks(plain) && ApplyAll(map[], plain) == Some(t) && Inlined(e, plain, f)
    ensures ApplyEntry(t, e) == ApplyEntry(t, f)
  {
    if e.kind.LinkEntry? {
      var j :| 0 <= j < |plain| && IsFileAt(plain[j], e.kind.linkname) && f.kind == plain[j].kind;
      hide TarTarget, AddLink, AddNew, ApplyAll, Perm, Rooted;
      FileIsThere(plain, t, j);
      UnpackedIsRooted(plain);
      if TarTarget(e.name).Some? {
        AcceptedNamesAreUnpackable(e.name);
        AcceptedNamesAreUnpackable(e.kind.linkname);
        AddLinkExactly(t, TarTarget(e.name).value, TarTarget(e.kind.linkname).value);
      }
    }
  }

  /** Replacing links by files changes neither success nor the tree. */
  lemma {:induction false} LinksAreFiles(entries: seq<Entry>, plain: seq<Entry>)
    requires Inlines(entries, plain)
    ensures ApplyAll(map[], entries) == ApplyAll(map[], plain)
  {
    if entries != [] {
      hide ApplyEntry, Inlined;
      var n := |entries| - 1;
      InlinesPrefix(entries, plain);
      LinksAreFiles(entries[..n], plain[..n]);
      InlinedHaveNoLinks(entries[..n], plain[..n]);
      if ApplyAll(map[], plain[..n]).Some? {
        LinkIsFile(plain[..n], ApplyAll(map[], plain[..n]).value, entries[n], plain[n]);
      }
    }
  }

  /** An archive that unpacks has a file for each of its links. */
  lemma {:induction false} LinksResolve(entries: seq<Entry>) returns (plain: seq<Entry>)
    requires ApplyAll(map[], entries).Some?
    ensures Inlines(entries, plain)
  {
    if entries == [] {
      plain := [];
    } else {
      hide ApplyEntry, Inlines, Inlined;
      var n := |entries| - 1;
      var before, e := entries[..n], entries[n];
      var earlier := LinksResolve(before);
      var f := EntryResolves(before, earlier, e);
      InlinesMore(before, earlier, e, f);
      plain := earlier + [f];
      assert before + [e] == entries;
    }
  }

  lemma EntryResolves(before: seq<Entry>, plain: seq<Entry>, e: Entry) returns (f: Entry)
    requires Inlines(before, plain)
    requires ApplyAll(map[], before).Some? && ApplyEntry(ApplyAll(map[], before).value, e).Some?
    ensures Inlined(e, plain, f)
  {
    hide TarTarget, AddLink, ApplyAll, Rooted;
    f := e;
    if e.kind.LinkEntry? {
      var t := ApplyAll(map[], before).value;
      LinksAreFiles(before, plain);
      InlinedHaveNoLinks(before, plain);
      UnpackedIsRooted(before);
      AcceptedNamesAreUnpackable(e.name);
      AcceptedNamesAreUnpackable(e.kind.linkname);
      AddLinkExactly(t, TarTarget(e.name).value, TarTarget(e.kind.linkname).value);
      var j := FileHasEntry(plain, t, TarTarget(e.kind.linkname).value);
      f := Entry(e.name, plain[j].kind);
    }
  }

  /** The entries are compatible and describe the tree. */
  ghost predicate Unpacks(plain: seq<Entry>, t: Tree) {
    Compatible(multiset(plain)) && Describes(multiset(plain), t)
  }

  /** The closed form of unpacking, for all archives: it succeeds exactly when every link has an earlier file
      to stand for and the entries are then compatible, and the tree is the one they describe. */
  lemma UnpackClosedFormWithLinks(entries: seq<Entry>, t: Tree)
    ensures ApplyAll(map[], entries) == Some(t) <==>
              exists plain :: Inlines(entries, plain) && Unpacks(plain, t)
  {
    hide ApplyAll, Compatible, Describes, Inlines, NoHardLinks;
    if ApplyAll(map[], entries) == Some(t) {
      var plain := LinksResolve(entries);
      LinksAreFiles(entries, plain);
      InlinedHaveNoLinks(entries, plain);
      UnpackClosedForm(plain);
    }
    if plain :| Inlines(entries, plain) && Unpacks(plain, t) {
      LinksAreFiles(entries, plain);
      InlinedHaveNoLinks(entries, plain);
      UnpackClosedForm(plain);
      Acceptables(plain);
      DescribesUnique(multiset(plain), t, ApplyAll(map[], plain).value);
    }
  }

  lemma Acceptables(plain: seq<Entry>)
    requires Compatible(multiset(plain))
    ensures forall e | e in multiset(plain) :: Acceptable(e)
  {
  }

  /** In the unpacked tree a link and what it links to are the same file, with the mode and content of a
      regular entry that comes before the link. */
  lemma LinkedFilesAgree(entries: seq<Entry>, t: Tree, i: nat)
    requires ApplyAll(map[], entries) == Some(t) && i < |entries| && entries[i].kind.LinkEntry?
    ensures TarTarget(entries[i].name).Some? && TarTarget(entries[i].kind.linkname).Some?
    ensures var target, source := TarTarget(entries[i].name).value, TarTarget(entries[i].kind.linkname).value;
            && target in t && source in t && t[target] == t[source]
            && exists j | 0 <= j < i && entries[j].kind.RegEntry? ::
                 t[target] == File(Perm(entries[j].kind.mode), entries[j].kind.content)
  {
    hide ApplyAll, TarTarget, Perm;
    var plain := LinksResolve(entries);
    LinksAreFiles(entries, plain);
    InlinedHaveNoLinks(entries, plain);
    assert Inlined(entries[i], plain[..i], plain[i]);
    var j :| 0 <= j < i && IsFileAt(plain[..i][j], entries[i].kind.linkname) && plain[i].kind == plain[..i][j].kind;
    FileIsThere(plain, t, i);
    FileIsThere(plain, t, j);
    var k := ChainEnd(entries, plain, j);
  }

  /** The regular entry in which a chain of links ends. */
  lemma {:induction false} ChainEnd(entries: seq<Entry>, plain: seq<Entry>, j: nat) returns (k: nat)
    requires Inlines(entries, plain) && j < |plain| && plain[j].kind.RegEntry?
    ensures k <= j && entries[k].kind.RegEntry? && entries[k].kind == plain[j].kind
  {
    hide TarTarget;
    assert Inlined(entries[j], plain[..j], plain[j]);
    if entries[j].kind.LinkEntry? {
      var m :| 0 <= m < j && IsFileAt(plain[..j][m], entries[j].kind.linkname) && plain[j].kind == plain[..j][m].kind;
      k := ChainEnd(entries, plain, m);
    } else {
      k := j;
    }
  }
}

/** The cache check as a whole, and what is left behind: temporary directories in every run. */
module PublishTemps {
  import opened Basics
  import opened Publish
  import opened PublishProofs
  import opened PublishTheorems
  import opened TarPaths
  import opened UnpackTree

  // ---- the three calls of a check ----

  ghost predicate IsDirectory(s: State, name: string) { name in s.dirs && s.dirs[name].Directory? }

  ghost predicate HasMarker(s: State, name: string) { IsDirectory(s, name) && MARKER in s.dirs[name].tree }

  ghost predicate MarkerIsFile(s: State, name: string) { HasMarker(s, name) && s.dirs[name].tree[MARKER].File? }

  /** The calls of one check see the cache in states `s0`, `s1` and `s2`, as far as they are made. */
  ghost predicate Checked(s0: State, s1: State, s2: State, name: string, v: Verdict) {
    exists v0, v1 ::
      && CheckStep(s0, name, 0, v0) && CheckStep(s1, name, 1, v1)
      && if v0 != NextPhase then v == v0 else if v1 != NextPhase then v == v1 else CheckStep(s2, name, 2, v)
  }

  /** What a check says, from what its calls see: cached when there is a directory, with a regular marker, of
      the right content; not cached when the directory or the marker is missing or the content differs; else
      the check fails.  Reading a marker that has become a link may give anything. */
  lemma CheckExactly(s0: State, s1: State, s2: State, name: string, v: Verdict)
    requires HasMarker(s2, name) ==> MarkerIsFile(s2, name)
    ensures Checked(s0, s1, s2, name, v) <==>
            match v
            case Cached =>
              && IsDirectory(s0, name) && MarkerIsFile(s1, name) && MarkerIsFile(s2, name)
              && s2.dirs[name].tree[MARKER].content == COMPLETE
            case NotCached =>
              || name !in s0.dirs
              || (IsDirectory(s0, name) && !HasMarker(s1, name))
              || (&& IsDirectory(s0, name) && MarkerIsFile(s1, name) && MarkerIsFile(s2, name)
                  && s2.dirs[name].tree[MARKER].content != COMPLETE)
            case CheckFails =>
              || (name in s0.dirs && !IsDirectory(s0, name))
              || (IsDirectory(s0, name) && HasMarker(s1, name) && !MarkerIsFile(s1, name))
              || (IsDirectory(s0, name) && MarkerIsFile(s1, name) && !HasMarker(s2, name))
            case NextPhase => false
  {
    var v0 := First(s0, name);
    var v1 := Second(s1, name);
    assert forall x :: CheckStep(s0, name, 0, x) <==> x == v0;
    assert forall x :: CheckStep(s1, name, 1, x) <==> x == v1;
  }

  ghost function First(s: State, name: string): (v: Verdict)
    ensures CheckStep(s, name, 0, v)
  {
    if name !in s.dirs then NotCached else if s.dirs[name].Directory? then NextPhase else CheckFails
  }

  ghost function Second(s: State, name: string): (v: Verdict)
    ensures CheckStep(s, name, 1, v)
  {
    if !HasMarker(s, name) then NotCached else if MarkerIsFile(s, name) then NextPhase else CheckFails
  }

  // ---- temporary directories ----

  /** A receiver is at work on the temporary directory. */
  ghost predicate Owned(s: State, temp: string) {
    exists p | p in s.procs :: HasTemp(s.procs[p].pc) && s.procs[p].pc.temp == temp
  }

  /** The receiver leaves it behind: it dies, or fails while removing it. */
  ghost predicate Abandons(s: State, p: nat, e: Step, temp: string) {
    && p in s.procs && HasTemp(s.procs[p].pc) && s.procs[p].pc.temp == temp
    && (e.Crash? || (e.Fail? && s.procs[p].pc.Cleaning?))
  }

  ghost predicate Abandoned(run: seq<State>, steps: seq<(nat, Step)>, j: nat, temp: string)
    requires j < |run| == |steps| + 1
  {
    exists n | 0 <= n < j :: Abandons(run[n], steps[n].0, steps[n].1, temp)
  }

  lemma OthersStay(s: State, s': State, p: nat, temp: string)
    requires Owned(s, temp)
    requires forall q | q in s.procs && q != p :: q in s'.procs && s'.procs[q] == s.procs[q]
    ensures Owned(s', temp) || (p in s.procs && HasTemp(s.procs[p].pc) && s.procs[p].pc.temp == temp)
  {
    var q :| q in s.procs && HasTemp(s.procs[q].pc) && s.procs[q].pc.temp == temp;
    assert q != p ==> q in s'.procs;
  }

  lemma OwnStays(s: State, p: nat, temp: string)
    requires p in s.procs && HasTemp(s.procs[p].pc) && s.procs[p].pc.temp == temp
    ensures Owned(s, temp)
  {
  }

  /** Locking, checking and failing make no directory and leave one only by abandoning it. */
  lemma LockLeaves(w: World, s: State, s': State, p: nat, e: Step, temp: string)
    requires LockStep(w, s, s', p, e)
    ensures s'.dirs == s.dirs && (Owned(s, temp) ==> Owned(s', temp) || Abandons(s, p, e, temp))
  {
    hide CheckStep, Owned;
    if Owned(s, temp) {
      OthersStay(s, s', p, temp);
      if p in s.procs && HasTemp(s.procs[p].pc) && s.procs[p].pc.temp == temp && !Abandons(s, p, e, temp) {
        OwnStays(s', p, temp);
      }
    }
  }

  lemma DirLeaves(w: World, s: State, s': State, p: nat, e: Step, temp: string)
    requires DirStep(w, s, s', p, e) && TempName(temp) && temp in s'.dirs && p in s.procs
    requires !TempName(s.procs[p].digest)
    ensures temp in s.dirs ==> (Owned(s, temp) ==> Owned(s', temp))
    ensures temp !in s.dirs ==> Owned(s', temp)
  {
    hide ApplyEntry, Owned, TempName;
    if e.MakeTemp? && e.temp == temp {
      OwnStays(s', p, temp);
    }
    if Owned(s, temp) {
      OthersStay(s, s', p, temp);
      if HasTemp(s'.procs[p].pc) && s'.procs[p].pc.temp == temp {
        OwnStays(s', p, temp);
      }
    }
  }

  /** In every run, a temporary directory that was not left over from before belongs to a receiver at work on
      it, unless its receiver died or failed to remove it. */
  lemma {:induction false} TempsAreCleaned(w: World, run: seq<State>, steps: seq<(nat, Step)>, j: nat, temp: string)
    requires IsRun(w, run, steps) && j < |run| && TempName(temp) && temp in run[j].dirs
    ensures temp in run[0].dirs || Owned(run[j], temp) || Abandoned(run, steps, j, temp)
  {
    if j > 0 {
      var s, s', p, e := run[j - 1], run[j], steps[j - 1].0, steps[j - 1].1;
      assert Next(w, s, s', p, e);
      RunKeeps(w, run, steps, j - 1);
      hide Owned, TempName, Abandons, Next;
      TempStep(w, s, s', p, e, temp);
      if temp in s.dirs {
        TempsAreCleaned(w, run, steps, j - 1, temp);
        if Abandoned(run, steps, j - 1, temp) {
          var n :| 0 <= n < j - 1 && Abandons(run[n], steps[n].0, steps[n].1, temp);
          assert 0 <= n < j;
        }
      }
    }
  }

  lemma TempStep(w: World, s: State, s': State, p: nat, e: Step, temp: string)
    requires Inv(w, s) && Next(w, s, s', p, e) && TempName(temp) && temp in s'.dirs
    ensures temp in s.dirs ==> (Owned(s, temp) ==> Owned(s', temp) || Abandons(s, p, e, temp))
    ensures temp !in s.dirs ==> Owned(s', temp)
  {
    hide Owned, Abandons, LockStep, DirOk, PcOk, TempName;
    if LockStep(w, s, s', p, e) {
      LockLeaves(w, s, s', p, e, temp);
    } else {
      assert p in s.procs;
      assert ProcOk(w, s, p);
      DigestsArePlainNames(s.procs[p].digest);
      DirLeaves(w, s, s', p, e, temp);
    }
  }
}

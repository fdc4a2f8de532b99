/** Every run of the content-addressed context cache: any number of receivers check, lock,
    unpack, publish and walk concurrently, and each may fail or crash at any step. */
module Publish {
  import opened Basics
  import opened TarPaths
  import opened UnpackTree

  // ---- names in the cache directory ----

  function ToLower(c: char): char {
    if 'A' <= c <= 'Z' then (c as int + 32) as char else c
  }

  predicate IsHexDigit(c: char) { '0' <= c <= '9' || 'a' <= c <= 'f' || 'A' <= c <= 'F' }

  /** `validateContextDigest`: a lower-case SHA-256 digest in hexadecimal. */
  predicate ValidDigest(s: string) {
    && |s| == 64
    && (forall i | 0 <= i < |s| :: ToLower(s[i]) == s[i])
    && (forall i | 0 <= i < |s| :: IsHexDigit(s[i]))
  }

  /** Exactly the lower-case hexadecimal strings of 256 bits are digests. */
  lemma ValidDigestIff(s: string)
    ensures ValidDigest(s) <==> |s| == 64 && forall i | 0 <= i < |s| :: '0' <= s[i] <= '9' || 'a' <= s[i] <= 'f'
  {
    if ValidDigest(s) {
      forall i | 0 <= i < |s| ensures '0' <= s[i] <= '9' || 'a' <= s[i] <= 'f' {
        assert ToLower(s[i]) == s[i];
      }
    }
  }

  /** The pattern given to `MkdirTemp`. */
  predicate TempName(s: string) { ".context-" <= s }

  lemma TempNamesBegin(s: string)
    ensures TempName(s) ==> s != "" && s[0] == '.'
  {
  }

  /** A digest is a plain name and never one of the temporary names. */
  lemma DigestsArePlainNames(s: string)
    requires ValidDigest(s)
    ensures IsName(s) && !TempName(s)
    ensures forall i | 0 <= i < |s| :: '0' <= s[i] <= '9' || 'a' <= s[i] <= 'f'
  {
    TempNamesBegin(s);
    ValidDigestIff(s);
  }

  // ---- state ----

  /** "complete" and a newline. */
  const COMPLETE: seq<byte> := [99, 111, 109, 112, 108, 101, 116, 101, 10]
  const MARKER: Path := [COMPLETION_MARKER]
  const MARKER_NODE: Node := File(384, COMPLETE)

  datatype Child = Directory(tree: Tree) | NotDirectory

  /** The digest function and the tar format; a malformed archive ends in an unsupported entry. */
  datatype World = World(hash: seq<byte> -> string, parse: seq<byte> -> seq<Entry>)

  datatype Pc =
    | Early(phase: nat)                                      // unlocked check
    | Receiving(cached: bool)
    | Locking(archive: seq<byte>)
    | Checking(archive: seq<byte>, phase: nat)               // locked from here on
    | Removing(archive: seq<byte>)
    | Making(archive: seq<byte>)
    | Unpacking(archive: seq<byte>, temp: string, done: nat)
    | Marking(archive: seq<byte>, temp: string)
    | Renaming(archive: seq<byte>, temp: string)
    | Cleaning(temp: string)
    | Unlocking(ok: bool)                                    // to here
    | Walking(visited: Tree)
    | Walked(visited: Tree)
    | Failed

  datatype Proc = Proc(digest: string, pc: Pc)

  datatype State = State(dirs: map<string, Child>, locks: map<string, nat>, procs: map<nat, Proc>)

  predicate Locked(pc: Pc) {
    pc.Checking? || pc.Removing? || pc.Making? || pc.Unpacking? || pc.Marking? || pc.Renaming? || pc.Cleaning?
        || pc.Unlocking?
  }

  predicate HasTemp(pc: Pc) { pc.Unpacking? || pc.Marking? || pc.Renaming? || pc.Cleaning? }

  /** What `checkCache` looks for. */
  predicate Complete(s: State, name: string) {
    && name in s.dirs && s.dirs[name].Directory?
    && MARKER in s.dirs[name].tree && s.dirs[name].tree[MARKER].File? && s.dirs[name].tree[MARKER].content == COMPLETE
  }

  // ---- steps ----

  datatype Step =
    | Begin(digest: string)
    | CheckEarly
    | Deliver(archive: seq<byte>)
    | Acquire
    | CheckLocked
    | RemoveOne(path: Path)
    | RemoveDone
    | MakeTemp(temp: string)
    | UnpackNext
    | UnpackDone
    | Mark
    | Rename
    | CleanOne(path: Path)
    | CleanDone
    | Unlock
    | Visit(path: Path)
    | WalkDone
    | Fail
    | Crash

  function To(s: State, p: nat, pc: Pc): State
    requires p in s.procs
  {
    s.(procs := s.procs[p := s.procs[p].(pc := pc)])
  }

  datatype Verdict = Cached | NotCached | NextPhase | CheckFails

  /** The three file-system calls of `checkCache`; each sees the directory as it is then. */
  ghost predicate CheckStep(s: State, name: string, phase: nat, v: Verdict) {
    if phase == 0 then
      v == if name !in s.dirs then NotCached else if s.dirs[name].Directory? then NextPhase else CheckFails
    else if name !in s.dirs || !s.dirs[name].Directory? || MARKER !in s.dirs[name].tree then
      v == if phase == 1 then NotCached else CheckFails
    else if phase == 1 then
      v == if s.dirs[name].tree[MARKER].File? then NextPhase else CheckFails
    else if s.dirs[name].tree[MARKER].File? then
      v == if s.dirs[name].tree[MARKER].content == COMPLETE then Cached else NotCached
    else
      v == Cached || v == NotCached || v == CheckFails    // reading a link may give anything
  }

  function AfterEarly(phase: nat, v: Verdict): Pc {
    match v
    case Cached => Receiving(true)
    case NotCached => Receiving(false)
    case NextPhase => Early(phase + 1)
    case CheckFails => Failed
  }

  function AfterLocked(archive: seq<byte>, phase: nat, v: Verdict): Pc {
    match v
    case Cached => Unlocking(true)
    case NotCached => Removing(archive)
    case NextPhase => Checking(archive, phase + 1)
    case CheckFails => Unlocking(false)
  }

  function DropPath(c: Child, p: Path): Child
    requires c.Directory?
  {
    Directory(c.tree - {p})
  }

  /** Checking, locking and leaving. */
  ghost predicate LockStep(w: World, s: State, s': State, p: nat, e: Step) {
    match e
    case Begin(digest) =>
      p !in s.procs && ValidDigest(digest) && s' == s.(procs := s.procs[p := Proc(digest, Early(0))])
    case CheckEarly =>
      && p in s.procs && s.procs[p].pc.Early?
      && var phase := s.procs[p].pc.phase;
      && exists v :: CheckStep(s, s.procs[p].digest, phase, v) && s' == To(s, p, AfterEarly(phase, v))
    case Deliver(archive) =>     // the body has arrived; unless it is already cached its hash is verified
      && p in s.procs && s.procs[p].pc.Receiving?
      && s' == To(s, p, if s.procs[p].pc.cached then Walking(map[])
                        else if w.hash(archive) == s.procs[p].digest then Locking(archive) else Failed)
    case Acquire =>
      && p in s.procs && s.procs[p].pc.Locking? && s.procs[p].digest !in s.locks
      && s' == To(s, p, Checking(s.procs[p].pc.archive, 0)).(locks := s.locks[s.procs[p].digest := p])
    case CheckLocked =>
      && p in s.procs && s.procs[p].pc.Checking?
      && var Checking(archive, phase) := s.procs[p].pc;
      && exists v :: CheckStep(s, s.procs[p].digest, phase, v) && s' == To(s, p, AfterLocked(archive, phase, v))
    case Unlock =>
      && p in s.procs && s.procs[p].pc.Unlocking?
      && s' == To(s, p, if s.procs[p].pc.ok then Walking(map[]) else Failed).(locks := s.locks - {s.procs[p].digest})
    case Fail =>                 // any call may fail, and the context may be cancelled
      && p in s.procs
      && s' == (match s.procs[p].pc
                case Early(_) => To(s, p, Failed)
                case Receiving(_) => To(s, p, Failed)
                case Locking(_) => To(s, p, Failed)
                case Checking(_, _) => To(s, p, Unlocking(false))
                case Removing(_) => To(s, p, Unlocking(false))
                case Making(_) => To(s, p, Unlocking(false))
                case Unpacking(_, temp, _) => To(s, p, Cleaning(temp))
                case Marking(_, temp) => To(s, p, Cleaning(temp))
                case Renaming(_, temp) => To(s, p, Cleaning(temp))
                case Cleaning(_) => To(s, p, Unlocking(false))
                case Unlocking(_) => s
                case Walking(_) => To(s, p, Failed)
                case Walked(_) => s
                case Failed => s)
    case Crash =>                // the kernel releases the lock of a process that dies
      && p in s.procs
      && s' == s.(procs := s.procs - {p},
                  locks := map d | d in s.locks && s.locks[d] != p :: s.locks[d])
    case _ => false
  }

  /** The steps that change the cache directory, and the walk. */
  ghost predicate DirStep(w: World, s: State, s': State, p: nat, e: Step) {
    match e
    case RemoveOne(path) =>
      && p in s.procs && s.procs[p].pc.Removing? && s.procs[p].digest in s.dirs && s.dirs[s.procs[p].digest].Directory?
      && s' == s.(dirs := s.dirs[s.procs[p].digest := DropPath(s.dirs[s.procs[p].digest], path)])
    case RemoveDone =>
      && p in s.procs && s.procs[p].pc.Removing?
      && s' == To(s, p, Making(s.procs[p].pc.archive)).(dirs := s.dirs - {s.procs[p].digest})
    case MakeTemp(temp) =>
      && p in s.procs && s.procs[p].pc.Making? && temp !in s.dirs && TempName(temp)
      && s' == To(s, p, Unpacking(s.procs[p].pc.archive, temp, 0)).(dirs := s.dirs[temp := Directory(map[])])
    case UnpackNext =>
      && p in s.procs && s.procs[p].pc.Unpacking?
      && var Unpacking(archive, temp, done) := s.procs[p].pc;
      && done < |w.parse(archive)| && temp in s.dirs && s.dirs[temp].Directory?
      && s' == (match ApplyEntry(s.dirs[temp].tree, w.parse(archive)[done])
                case Some(t) => To(s, p, Unpacking(archive, temp, done + 1)).(dirs := s.dirs[temp := Directory(t)])
                case None => To(s, p, Cleaning(temp)))
    case UnpackDone =>
      && p in s.procs && s.procs[p].pc.Unpacking?
      && s.procs[p].pc.done == |w.parse(s.procs[p].pc.archive)|
      && s' == To(s, p, Marking(s.procs[p].pc.archive, s.procs[p].pc.temp))
    case Mark =>                 // writing the marker fails when the archive implied a directory of that name
      && p in s.procs && s.procs[p].pc.Marking?
      && var Marking(archive, temp) := s.procs[p].pc;
      && temp in s.dirs && s.dirs[temp].Directory?
      && s' == if MARKER in s.dirs[temp].tree then To(s, p, Cleaning(temp))
               else To(s, p, Renaming(archive,
                   temp)).(dirs := s.dirs[temp := Directory(s.dirs[temp].tree[MARKER := MARKER_NODE])])
    case Rename =>               // atomic; refused when the target exists
      && p in s.procs && s.procs[p].pc.Renaming?
      && var Renaming(archive, temp) := s.procs[p].pc;
      && temp in s.dirs
      && s' == if s.procs[p].digest in s.dirs then To(s, p, Cleaning(temp))
               else To(s, p, Unlocking(true)).(dirs := (s.dirs - {temp})[s.procs[p].digest := s.dirs[temp]])
    case CleanOne(path) =>
      && p in s.procs && s.procs[p].pc.Cleaning? && s.procs[p].pc.temp in s.dirs
          && s.dirs[s.procs[p].pc.temp].Directory?
      && s' == s.(dirs := s.dirs[s.procs[p].pc.temp := DropPath(s.dirs[s.procs[p].pc.temp], path)])
    case CleanDone =>
      && p in s.procs && s.procs[p].pc.Cleaning?
      && s' == To(s, p, Unlocking(false)).(dirs := s.dirs - {s.procs[p].pc.temp})
    case Visit(path) =>          // one entry of the walk, read when the walk gets to it
      && p in s.procs && s.procs[p].pc.Walking? && path != MARKER
      && s.procs[p].digest in s.dirs && s.dirs[s.procs[p].digest].Directory?
      && path in s.dirs[s.procs[p].digest].tree
      && s' == To(s, p, Walking(s.procs[p].pc.visited[path := s.dirs[s.procs[p].digest].tree[path]]))
    case WalkDone =>
      && p in s.procs && s.procs[p].pc.Walking?
      && s.procs[p].digest in s.dirs && s.dirs[s.procs[p].digest].Directory?
      && (forall path | path in s.dirs[s.procs[p].digest].tree && path != MARKER :: path in s.procs[p].pc.visited)
      && s' == To(s, p, Walked(s.procs[p].pc.visited))
    case _ => false
  }

  ghost predicate Next(w: World, s: State, s': State, p: nat, e: Step) {
    LockStep(w, s, s', p, e) || DirStep(w, s, s', p, e)
  }
}

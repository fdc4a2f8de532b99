# container-builder-shim: verified models

The shim sits between BuildKit and a macOS host.  It reads image layers through a prefetching
reader, receives the build context as a tar stream, publishes it in a content-addressed cache, walks
the cache for BuildKit, and multiplexes all of this over one duplex gRPC stream.  This project models
the parts of the shim whose correctness depends on interleavings, on shared state or on untrusted
input, and proves what they promise, for all inputs and all runs.

Code that changes one object step by step is modelled as a Dafny class or method with loops, proved
against a specification function.  Code that runs in several goroutines is modelled as a state
machine: one step per channel operation, lock, file-system call or underlying read, so that every
interleaving of the goroutines, with failures, timeouts, cancellation and crashes at any point, is a
run of the machine.  Theorems are about every state of every run.

| files | part of the shim |
|---|---|
| `Chunks`, `IntervalTree`, `IntervalNodes`, `LastUse`, `ChunkCache` | the chunk cache: map, interval tree, eviction |
| `Prefetch`, `PrefetchLoops` | request arithmetic and the sequential loops of the prefetcher |
| `PrefetchRuns`, `PrefetchInvariant`, `PrefetchSteps`, `PrefetchTheorems`, `PrefetchRetries`, `PrefetchWindow`, `PrefetchProgress`, `PrefetchCache` | concurrent reads, read-ahead, retries and shutdown |
| `TarPaths`, `UnpackTree`, `UnpackOrder`, `UnpackLinks` | tar names, the tree an archive describes, its closed form |
| `FileSystem`, `Unpack` | unpacking into a file system that follows symbolic links |
| `Publish`, `PublishProofs`, `PublishTheorems`, `PublishProgress`, `PublishTemps` | concurrent check, lock, publish and walk of the context cache |
| `TarStream`, `TarStreamProofs`, `TarStreamCached`, `TarStreamProgress` | the goroutine and readers that receive a tar stream |
| `TarReceive` | the stream, the cache and the walk together |
| `DiffCopy`, `DiffCopyProofs`, `DiffCopyTheorems` | the file-transfer sender |
| `Filters`, `StreamDemux`, `StreamDemuxProofs`, `StreamDemuxTheorems`, `StreamDemuxCalls` | the stream multiplexer |
| `SyntheticWalk`, `SyntheticOrder` | merging the generated Dockerfile into the walk |
| `ContentInfo` | content information as string metadata |

## Where the code does not do what one might expect

* The merged walk compares whole path strings, while BuildKit's receiver orders paths component by
  component.  The output is out of order exactly when a cached path lies below `.com` or
  `.com.apple`, or when a top-level name continues the staging name with a character that sorts
  before the slash (`SyntheticOrder.MergeInOrderIff`).
* Ids in the file-transfer sender are 32 bits and wrap.  Every id gets the packets of a single file
  exactly when no two files that can be served share an id (`DiffCopyTheorems.IdsProperIff`); this
  holds up to 2^32 entries and fails for some walk over ten-digit names with one entry more.
* The comment on `Receiver` says that the download is skipped when the entry is cached.  The code
  skips it only when the header packet is complete (`TarStreamCached.DownloadSkippedIff`); otherwise
  the body is read to its end and dropped.  The model follows the code.
* A receive can succeed although its stream has an error: after an unexpected packet the producer goes
  on, and the receiver may see the header before the error.  This happens exactly when the stream
  begins with an unexpected packet and then a complete header (`TarStreamCached.ErrorLostIff`).  It is
  a property of `Receive` itself: the filter of the file-synchronisation stage lets only build transfers
  through, so in the shim no unexpected packet arrives.
* A read that runs past the end of a file of known size is cut at the end, but one that touches a single
  chunk gets nothing; both report the end of the file (`PrefetchTheorems.EndOfFileExactly`).
* Hard links make the order of a tar archive matter: of an archive that unpacks, all orders unpack to
  the same tree exactly when it has no hard link (`UnpackOrder.OrderIrrelevantIff`).
* A tar entry below the name of the completion marker is accepted
  (`PublishProgress.MarkerCanBeADirectory`); the implied directory then makes writing the marker fail.
  An archive that unpacks touches the marker exactly when it has such an entry
  (`PublishProgress.ArchiveMarker`), and a receiver can finish exactly when its archive unpacks
  without one and what already lies under its digest can be read
  (`PublishProgress.ReceiveCanFinishIff`).  A leftover that cannot be read, such as a plain file in
  the entry's place, stays in the way for good (`PublishProgress.UnreadableNeverWalked`).
* The header channel holds one header and is read once.  A stream is received in every undisturbed
  run exactly when it begins with a header that is not complete, has no error up to its first
  complete packet, and up to there has at most two headers and, if two, some data packet
  (`TarStreamProgress.AlwaysReceivedIff`).  With three headers the receive always gets stuck
  (`TarStreamProgress.ManyHeadersGetStuck`); two headers and nothing else are received as an empty
  archive or fail, depending on which channel the receiver looks at first
  (`TarStreamProgress.TwoHeadersRace`).
* The range search of the chunk cache returns exactly the live chunks of the range and those of its
  chunks that were evicted since the tree was last rebuilt, so it is exact exactly when no evicted
  index lies in the range (`ChunkCaches.RangeIsLiveIff`, `ChunkCaches.EvictedChunkIsFound`).  A cache
  that evicts a tenth of its size, as the default one does, never rebuilds its tree
  (`ChunkCaches.EvictingATenthNeverRebuilds`).

What an operation answers is stated on its inputs, such as offsets and sizes, packet fields, path
components or metadata keys, and where a theorem uses a function that the model of the code also calls,
another theorem says what that function gives.

## Model

| member | source | states |
|---|---|---|
| `IntervalTree.InsertRepresents` | pkg/prefetch/cache.go:111-141 | inserting keeps the tree ordered and keeps, at every node, the latest chunk of each index, for all trees |
| `IntervalTree.FoundIsInRange` | pkg/prefetch/cache.go:177-194 | the pruned search of a tree finds exactly the chunks of the represented map in the range |
| `IntervalNodes.IntervalNode.InsertInterval` | pkg/prefetch/cache.go:111-128 | the in-place insertion into linked nodes does what the insertion into the abstract tree does |
| `IntervalNodes.IntervalNode.InsertNode` | pkg/prefetch/cache.go:130-141 | linking a new child or descending into an existing one refines the abstract insertion |
| `IntervalNodes.IntervalNode.FindOverlaps` | pkg/prefetch/cache.go:177-194 | the recursive search over linked nodes adds exactly what the abstract search finds |
| `IntervalNodes.IntervalNode.CollectInRange` | pkg/prefetch/cache.go:184-188 | the loop over one node's chunks adds exactly those in the range |
| `LastUse.InsertSorted` | pkg/prefetch/cache.go:207-213 | one insertion step moves the key in place to the position that keeps the prefix sorted |
| `LastUse.SortByLastUse` | pkg/prefetch/cache.go:206-214 | the in-place sort orders by last use and permutes |
| `LastUse.SelectOldest` | pkg/prefetch/cache.go:201-223 | the chosen victims are as many as asked for, and none was used later than a survivor |
| `LastUse.NewestSurvives` | pkg/prefetch/cache.go:196-228 | a chunk used strictly later than all others is no victim unless all are |
| `ChunkCaches.RangeIsLiveIff` | pkg/prefetch/cache.go:164-194 | what the tree has in a range is what is live there exactly when no evicted index lies in the range |
| `ChunkCaches.EvictingATenthNeverRebuilds` | pkg/prefetch/cache.go:49-59 | with the limits of a new cache an eviction never leaves it sparse enough to rebuild the tree |
| `ChunkCaches.EvictedChunkIsFound` | pkg/prefetch/cache.go:143-175 | a chunk that has left the window is still found: one input at which the search is not exact |
| `ChunkCaches.AddedChunkSurvives` | pkg/prefetch/cache.go:86-109 | with a strictly increasing clock, adding a chunk never evicts that chunk |
| `ChunkCaches.ChunkCache.constructor` | pkg/prefetch/cache.go:49-59 | a new cache is valid and empty, with limits 1024 and 102 |
| `ChunkCaches.ChunkCache.GetChunk` | pkg/prefetch/cache.go:69-84 | returns the live chunk, records its use and no other, keeps the cache valid |
| `ChunkCaches.ChunkCache.AddChunk` | pkg/prefetch/cache.go:86-109 | below the window nothing changes; otherwise the new map is the old one with the chunk less exactly `evictCount` least recently used victims when it was full, the tree is rebuilt exactly when that leaves less than half, and size limit and tree invariant are kept |
| `ChunkCaches.ChunkCache.EvictBefore` | pkg/prefetch/cache.go:143-162 | the window never moves back, and exactly the live chunks inside it stay |
| `ChunkCaches.DropBefore` | pkg/prefetch/cache.go:157-161 | the loop keeps exactly the chunks from the bound on |
| `ChunkCaches.ChunkCache.FindOverlappingChunks` | pkg/prefetch/cache.go:164-175 | contains every live chunk in range, and nothing else exactly when no index evicted since the last clear or rebuild lies in the range |
| `ChunkCaches.ChunkCache.EvictOldest` | pkg/prefetch/cache.go:196-228 | removes exactly the least recently used chunks, `evictCount` of them, keeps tree and map coherent, and rebuilds the tree exactly when less than half is left |
| `ChunkCaches.ChunkCache.RebuildIntervalTree` | pkg/prefetch/cache.go:230-246 | the new tree represents exactly the live map |
| `ChunkCaches.ChunkCache.Clear` | pkg/prefetch/cache.go:248-254 | the cache is valid and empty, with nothing left in the tree |
| `Prefetch.Normalize` | pkg/prefetch/prefetch.go:88-120 | every numeric configuration becomes a usable one; each usable setting is kept whatever the others are, a window smaller than a chunk becomes one chunk, and nothing usable gives the defaults |
| `Prefetch.CopyRoundKeeps` | pkg/prefetch/prefetch.go:246-262 | one round of the copy loop extends the correct prefix, and it stops early only when nothing is left to deliver |
| `PrefetchLoops.CopyChunks` | pkg/prefetch/prefetch.go:244-264 | whatever the fetches answer, the buffer gets what the rounds make of it and the rest of it is untouched; from the right chunks these are the file's bytes, and all deliverable ones unless a fetch fails |
| `PrefetchLoops.CopyFromDelivers` | pkg/prefetch/prefetch.go:246-263 | from the right chunks the rounds deliver the file's bytes, and stop early only for a failed fetch or at the end of the data |
| `PrefetchLoops.ReadAt` | pkg/prefetch/prefetch.go:135-179 | the rest of the buffer is untouched and a failure has a failed fetch behind it; from the right chunks the delivered bytes are the file's on every outcome, and unless a fetch fails count and error are those given by offset, length, size and chunk size, for refused reads, reads inside the file, reads cut at its end and reads past it inside one chunk |
| `PrefetchLoops.ScheduleReadAhead` | pkg/prefetch/prefetch.go:211-224 | the scheduled indices are the first absent ones of the window, up to the limit |
| `PrefetchLoops.ReadAheadExactly` | pkg/prefetch/prefetch.go:181-224 | for all states of the cache, the tasks are absent chunks of the window in order, at most min(1000, window / chunk), and an absent chunk of the window without a task comes after as many as are allowed |
| `PrefetchLoops.WindowExactly` | pkg/prefetch/prefetch.go:181-195 | the window is exactly the chunks that begin within `WindowSize` bytes of its first one and inside a file of known size |
| `PrefetchLoops.WindowInsideFile` | pkg/prefetch/prefetch.go:181-195 | every index up to the end of the window starts inside the file |
| `PrefetchSteps.NextKeeps` | pkg/prefetch/prefetch.go:135-388 | every step of every goroutine keeps the invariant of the concurrent prefetcher |
| `PrefetchTheorems.ReadsReturnTheData` | pkg/prefetch/prefetch.go:135-307 | in every run, under any interleaving of readers, read-ahead, eviction, retries and shutdown, an answered read holds the file's bytes, and unless a fetch failed or the prefetcher is closed count and error are those given by offset, length, size and chunk size; the closed error comes only from a closed prefetcher |
| `PrefetchCache.AddChunkIsAStep` | pkg/prefetch/cache.go:86-109 | whatever the cache evicts, adding a chunk to it is a cache step of the concurrent model |
| `PrefetchCache.EvictBeforeIsAStep` | pkg/prefetch/cache.go:143-162 | moving the window is the window step of the concurrent model |
| `PrefetchTheorems.EndOfFileExactly` | pkg/prefetch/prefetch.go:135-163 | in every run, a read inside a file of known size without a failed fetch reports EOF exactly when offset plus length reaches the size, and delivers the file from the offset to its end or to the end of the file, nothing only when it runs past the end inside one chunk |
| `PrefetchTheorems.CachedBuffersAreSealed` | pkg/prefetch/prefetch.go:281-355 | the buffer of a cached chunk is never written again, also not by abandoned attempts |
| `PrefetchTheorems.UsedBuffersAreSealed` | pkg/prefetch/prefetch.go:244-307 | the same for a chunk in a reader's hands |
| `PrefetchTheorems.ParallelReadsBounded` | pkg/prefetch/prefetch.go:226-302 | semaphore holders, and underlying reads that were not abandoned, never exceed `MaxParallelReads` |
| `PrefetchTheorems.CloseIsFinal` | pkg/prefetch/prefetch.go:362-388 | once the first `Close` returns no registered operation runs, the cache stays empty and later reads get the closed error |
| `PrefetchTheorems.ReadAheadStaysSmall` | pkg/prefetch/prefetch.go:211-242 | in every run one read starts at most min(1000, window / chunk) read-ahead tasks, all inside a file of known size |
| `PrefetchTheorems.CopyNeverStuck` | pkg/prefetch/prefetch.go:244-264 | a reader that holds a chunk can always copy from it: the chunk's buffer exists and is long enough |
| `PrefetchTheorems.ReadsFailOnlyAfterFailures` | pkg/prefetch/prefetch.go:281-355 | a read fails only in a run with a timeout, a shutdown or a failing underlying read |
| `PrefetchRetries.FetchesRetry` | pkg/prefetch/prefetch.go:281-355 | in every run a fetch that failed made no attempt, was shut down, or made exactly `MaxRetries` + 1 attempts, and each attempt it made failed or was given up on |
| `PrefetchRetries.FailedReadsHaveACause` | pkg/prefetch/prefetch.go:244-355 | a read that failed has such a failed fetch behind it, of one of its own chunks |
| `PrefetchProgress.ReadsCanFinish` | pkg/prefetch/prefetch.go:135-355 | in every state of every run, whatever other reads, read-ahead tasks and the semaphore are up to, each read can still be answered without a failure, a timeout, a shutdown or a new read |
| `PrefetchWindow.OneFetchPerChunk` | pkg/prefetch/prefetch.go:281-307 | in every run two fetches of one chunk that have not returned are the same fetch |
| `PrefetchWindow.CachedChunksAreNotReadAgain` | pkg/prefetch/prefetch.go:273-307 | while a chunk stays cached, fetches of it that begin meanwhile never read from the underlying reader and never fail |
| `PrefetchWindow.WindowFollowsReads` | pkg/prefetch/prefetch.go:148-150 | in every run the window begins at the furthest first chunk of a read that has started, and nothing before it is cached |
| `TarPaths.AcceptedExactly` | pkg/fileutils/tarxfer.go:540-549 | a name is accepted as a path exactly when it is relative and its components simplify to that path, which must be non-empty, of plain names, and not reserved |
| `TarPaths.CleanIsNormalForm` | pkg/fileutils/tarxfer.go:541-542 | in whatever order empty and "." components and names followed by ".." are removed, a path has exactly one normal form, and cleaning gives it |
| `TarPaths.TarTargetByParts` | pkg/fileutils/tarxfer.go:540-549 | the checks on the cleaned string are checks on its components |
| `TarPaths.AcceptedNamesAreUnpackable` | pkg/fileutils/tarxfer.go:540-549 | an accepted name stays below the destination and outside the reserved names |
| `TarPaths.UnpackableNamesAreAccepted` | pkg/fileutils/tarxfer.go:540-549 | a path is accepted as itself exactly when it is unpackable |
| `UnpackTree.ApplyEntryKeeps` | pkg/fileutils/tarxfer.go:478-535 | one entry keeps every node below real directories and every name allowed, and replaces nothing |
| `UnpackTree.ApplyAllKeeps` | pkg/fileutils/tarxfer.go:452-538 | the same for whole archives |
| `UnpackTree.AddNewExactly` | pkg/fileutils/tarxfer.go:568-606 | a new node is accepted exactly when its place is free and below directories; it is put there, missing parents become directories, and nothing else changes |
| `UnpackTree.AddLinkExactly` | pkg/fileutils/tarxfer.go:512-532 | a hard link is accepted exactly when its source is a file of the tree and its place is free and below directories; the source's own node is put there |
| `UnpackTree.PermBits` | pkg/fileutils/tarxfer.go:491 | a file gets the owner, group and other permissions of its entry's mode and no other bits |
| `UnpackOrder.UnpackClosedForm` | pkg/fileutils/tarxfer.go:452-606 | without hard links an archive unpacks exactly when names are acceptable and targets compatible, and the tree is the one the entries describe |
| `UnpackOrder.DescribesUnique` | pkg/fileutils/tarxfer.go:452-538 | the entries describe at most one tree |
| `UnpackOrder.UnpackOrderIrrelevant` | pkg/fileutils/tarxfer.go:452-606 | all permutations of the entries give the same result |
| `UnpackOrder.HardLinksNeedOrder` | pkg/fileutils/tarxfer.go:512-532 | every archive with a hard link has a permutation that does not unpack |
| `UnpackOrder.OrderIrrelevantIff` | pkg/fileutils/tarxfer.go:452-606 | for every archive that unpacks: all permutations give the same tree exactly when it has no hard link |
| `UnpackLinks.LinksAreFiles` | pkg/fileutils/tarxfer.go:452-606 | replacing each hard link by the earlier file it refers to, with that file's mode and content, changes neither success nor the tree |
| `UnpackLinks.UnpackClosedFormWithLinks` | pkg/fileutils/tarxfer.go:452-606 | every archive, hard links included, unpacks to a tree exactly when its links can be so replaced and the entries are then compatible and describe that tree |
| `UnpackLinks.LinkedFilesAgree` | pkg/fileutils/tarxfer.go:512-532 | in an unpacked tree a link and what it links to are the same file, with mode and content of a regular entry before the link |
| `Unpack.EnsurePathParent` | pkg/fileutils/tarxfer.go:580-606 | the parents become real directories or the entry is refused as specified; every intermediate state is confined |
| `Unpack.EnsureNewPath` | pkg/fileutils/tarxfer.go:568-578 | succeeds only for a target that does not exist, below real directories |
| `Unpack.EnsureDirectory` | pkg/fileutils/tarxfer.go:551-566 | adds or accepts a directory exactly as specified, confined throughout |
| `Unpack.AddFile` | pkg/fileutils/tarxfer.go:487-501 | creates and fills a new file exactly as specified, confined throughout |
| `Unpack.AddHardLink` | pkg/fileutils/tarxfer.go:512-532 | links to a regular file of the tree: the new place holds the source's node, missing parents are directories, nothing else changes; refused exactly as specified, confined throughout |
| `Unpack.UnpackEntry` | pkg/fileutils/tarxfer.go:478-535 | one entry on the file system refines one entry on the tree |
| `Unpack.UnpackTar` | pkg/fileutils/tarxfer.go:452-538 | for every archive and every pattern of failing calls, every state on the way is confined to the destination, and the result is the specified tree or refusal; it succeeds only if it was not cancelled before any header, the end of the archive included, and fails otherwise only for a failing call or such a cancellation |
| `Unpack.ConfinedPathsAreReal` | pkg/fileutils/tarxfer.go:580-606 | in a confined state a path below the destination resolves to itself, so no symbolic link is followed |
| `Publish.DigestsArePlainNames` | pkg/fileutils/tarxfer.go:325-334 | a valid digest is a plain lower-case hexadecimal name and never a temporary one |
| `Publish.ValidDigestIff` | pkg/fileutils/tarxfer.go:325-334 | exactly the strings of 64 lower-case hexadecimal digits are digests |
| `PublishProofs.CheckTells` | pkg/fileutils/tarxfer.go:336-363 | the three calls of the cache check, made at different times, never report an incomplete entry as cached |
| `PublishTemps.CheckExactly` | pkg/fileutils/tarxfer.go:336-363 | what the whole check says, from what its three calls see at their own moments: cached, not cached or failed, each in both directions |
| `PublishTemps.TempsAreCleaned` | pkg/fileutils/tarxfer.go:428-450 | in every run a temporary directory that was not left over belongs to a receiver at work on it, unless its receiver died or failed to remove it |
| `PublishProofs.MarkedIsGenuine` | pkg/fileutils/tarxfer.go:439-444 | writing the marker into a whole unpacked tree makes it a genuine entry |
| `PublishProofs.NextKeeps` | pkg/fileutils/tarxfer.go:70-450 | every step of every receiver keeps the invariant and leaves complete entries alone |
| `PublishTheorems.CompleteEntriesAreGenuine` | pkg/fileutils/tarxfer.go:336-450 | in every run an entry that the check reports complete is the tree of an archive with that digest, whatever failed or crashed |
| `PublishTheorems.CompleteEntriesNeverChange` | pkg/fileutils/tarxfer.go:400-450 | once complete, an entry is never changed, replaced or removed |
| `PublishTheorems.OnePublisherPerDigest` | pkg/fileutils/tarxfer.go:400-450 | two receivers never work on the same digest at once |
| `PublishTheorems.WalksSeeCompleteEntries` | pkg/fileutils/tarxfer.go:70-144 | a receiver that saw the entry cached, with or without the lock, walks a complete entry |
| `PublishTheorems.WalksReportTheArchive` | pkg/fileutils/tarxfer.go:70-144 | a finished walk reported exactly the tree of an archive with the requested digest |
| `PublishTheorems.WalksReportTheHostsArchive` | pkg/fileutils/tarxfer.go:70-144 | without hash collisions that is the host's archive, whoever unpacked it, and it does not touch the marker |
| `PublishTheorems.WalksAgree` | pkg/fileutils/tarxfer.go:70-144 | all finished walks of one digest agree, at any two moments of a run |
| `PublishProgress.ReceiveCanFinishIff` | pkg/fileutils/tarxfer.go:400-450 | without hash collisions, in every state of every run, a receiver with a verified archive and an unlocked digest can finish its walk, alone or helped, exactly when the entry in the way, if any, is a directory with a regular marker, if any, and the archive unpacks with no entry below the marker |
| `PublishProgress.UnreadableNeverWalked` | pkg/fileutils/tarxfer.go:336-363 | what lies under an unlocked digest and is no directory, or has an irregular marker, keeps every receiver from ever walking that digest |
| `PublishProgress.ArchiveMarker` | pkg/fileutils/tarxfer.go:452-549 | the tree of an archive has the marker's path exactly when some entry lies below the marker |
| `PublishProgress.MarkerCanBeADirectory` | pkg/fileutils/tarxfer.go:540-549 | an archive that unpacks and has an entry below the marker |
| `TarStreamProofs.NextKeeps` | pkg/fileutils/tarxfer.go:169-312 | every step of the producer and of the readers keeps the invariant over the three channels |
| `TarStreamProofs.ReceiveIsExact` | pkg/fileutils/tarxfer.go:70-128 | a receive that succeeds has read packets of which none is unexpected or has an error key, the first is a build transfer with the hash that its header names, and only the last is complete; it has written exactly the data of the image transfers and of the build transfers without a hash (nothing when cached) |
| `TarStreamProofs.ReceivesAgree` | pkg/fileutils/tarxfer.go:169-312 | two successful receives of the same packets wrote the same file, whatever the interleaving |
| `TarStreamProofs.ErrorsAreNotLost` | pkg/fileutils/tarxfer.go:169-312 | a reported stream error is that of the first faulty packet, with the host's message, or a failed receive after faultless packets; a stream with a fault is neither received nor taken for an empty one, which leaves only a success with a complete header |
| `TarStreamCached.DownloadSkipped` | pkg/fileutils/tarxfer.go:70-98 | in every run, a receive that skips the download has a complete header that opens the stream, has taken no data and written nothing, and the stream has an error exactly when an unexpected packet comes before the header |
| `TarStreamCached.DownloadSkippedIff` | pkg/fileutils/tarxfer.go:70-98 | for all packets: some run, also some undisturbed one, skips the download exactly when a complete header opens the stream, alone or after one unexpected packet |
| `TarStreamCached.ErrorLostIff` | pkg/fileutils/tarxfer.go:169-252 | for all packets: some run, also some undisturbed one, succeeds although the stream has an error exactly when the packets begin with an unexpected one and then a complete header |
| `TarStreamCached.CacheDecides` | pkg/fileutils/tarxfer.go:88-125 | in every run a complete header succeeds only after the entry was found in the cache and fails as not cached only after it was not; other headers lead to a download, stored exactly when the entry was not found |
| `TarStreamProgress.AlwaysReceivedIff` | pkg/fileutils/tarxfer.go:169-312 | for all packets: no undisturbed run fails or gets stuck exactly when they begin with a whole stream that has at most two headers and, if two, some data |
| `TarStreamProgress.ManyHeadersGetStuck` | pkg/fileutils/tarxfer.go:203-252 | with three headers or more no undisturbed run succeeds or fails, and one ends where nothing can go on |
| `TarStreamProgress.RunsEnd` | pkg/fileutils/tarxfer.go:169-312 | from every reachable state an undisturbed run leads to one in which nothing can go on |
| `TarStreamProgress.TwoHeadersRace` | pkg/fileutils/tarxfer.go:254-269 | two headers, the second complete, are received as an empty archive in one undisturbed run and fail in another |
| `TarStreamProofs.RunsAreBounded` | pkg/fileutils/tarxfer.go:169-312 | no run is longer than a fixed multiple of the stream, so no select loop spins |
| `TarReceive.UncachedReceiveWalksTheStream` | pkg/fileutils/tarxfer.go:70-128 | from packets to walk: an uncached receive that finishes has walked the tree of exactly the bytes of its whole stream, whose hash is the digest in its header |
| `DiffCopyProofs.NextKeeps` | pkg/fssync/diffcopy.go:128-284 | every step of walker, receive loop and workers keeps the invariant over table, queue and wire |
| `DiffCopyTheorems.EntryPacketsAreProper` | pkg/fssync/diffcopy.go:199-230 | the data packets sent for an entry come from one worker and are a prefix, or all and then one empty packet, of the generated Dockerfile at its staging path, of the generated ignore file at its, and elsewhere or without a proxy of the walked file; other paths get none |
| `DiffCopyTheorems.IdsAreProper` | pkg/fssync/diffcopy.go:128-230 | without reused ids the same holds of the packets of each id, the position in the walk in 32 bits, as the receiver sees them |
| `DiffCopyTheorems.ReuseBreaks` | pkg/fssync/diffcopy.go:232-264 | two servable entries with one id give a run in which that id's packets are the contents of no file |
| `DiffCopyTheorems.IdsProperIff` | pkg/fssync/diffcopy.go:128-264 | all runs are proper exactly when no two servable entries share an id |
| `DiffCopyTheorems.SmallWalksAreSafe` | pkg/fssync/diffcopy.go:232-258 | up to 2^32 entries no id is reused |
| `DiffCopyTheorems.LargeWalksAreNot` | pkg/fssync/diffcopy.go:232-258 | a walk over 2^32 + 1 distinct ten-digit names in which an id is reused |
| `DiffCopyTheorems.RequestsResolve` | pkg/fssync/diffcopy.go:186-197 | a request resolves only to the path of the announcement with that id |
| `DiffCopyTheorems.AnnouncedInOrder` | pkg/fssync/diffcopy.go:232-264 | the announcements are the walk in its order, and the final empty one comes only after all of them |
| `DiffCopyTheorems.WireTellsTheEnd` | pkg/fssync/diffcopy.go:128-264 | the final empty announcement is sent exactly when the walk came to its end, an error packet exactly when it failed and could still report it, FIN exactly when the receiver was done |
| `DiffCopyTheorems.EntriesAreConserved` | pkg/fssync/diffcopy.go:186-264 | an announced regular entry is in exactly one place: table, loop, one queue slot, one worker, or served; otherwise its worker failed or its id was reused |
| `Filters.RunChain` | pkg/stream/filter.go:41-50 | accepts exactly when all filters do, else gives the first other verdict |
| `Filters.Dispatch` | pkg/stream/pipeline.go:132-146 | picks the first stage whose filter accepts, and none exactly when none does |
| `StreamDemuxProofs.NextKeeps` | pkg/stream/stage.go:70-167 | every step of reader, stages and callers keeps the invariant |
| `StreamDemuxTheorems.PacketsAreConserved` | pkg/stream/stage.go:70-123 | while a demultiplexer stays live, delivered and in-flight packets grow by exactly the arrivals meant for it, in order |
| `StreamDemuxTheorems.FreshIdGetsItsPackets` | pkg/stream/processor.go:64-87 | registered before any packet with its id, it has been delivered a prefix of exactly the arrivals meant for it, and the rest is on its way |
| `StreamDemuxTheorems.RepliesFindTheirHandler` | pkg/stream/stage.go:139-167 | if the host answers only messages on the wire, a lookup finds the caller that asked, because it registered first |
| `StreamDemuxCalls.FailedCallsAreForgotten` | pkg/stream/stage.go:139-167 | in every run whoever is registered with a stage is a caller of that stage and id that still sends or receives |
| `StreamDemuxCalls.CancelledAreForgotten` | pkg/stream/stage.go:102-120 | a stage that meets a cancelled demultiplexer is done with it only once the id is unregistered, unless the packet found room |
| `StreamDemuxCalls.LateCallersShare` | pkg/stream/stage.go:139-162 | a caller that finds its id registered receives from that handler, or fails, for the rest of the run, and never registers or sends |
| `StreamDemuxCalls.ReaderStopsThePipeline` | pkg/stream/pipeline.go:111-130 | once the reader has stopped, so has the pipeline |
| `SyntheticWalk.Advance` | pkg/fssync/walk.go:203-208 | stops at the first remaining entry that does not sort before the path |
| `SyntheticWalk.StrLessIff` | pkg/fssync/walk.go:203 | one string sorts before another exactly when they agree up to a place where the first ends or has the smaller character |
| `SyntheticWalk.Walker.constructor` | pkg/fssync/walk.go:171-200 | the entries are the staging directory and the requested files with content, or none |
| `SyntheticWalk.Walker.Walk` | pkg/fssync/walk.go:202-210 | emits the entries that sort before the path, then the path; a failing sink stops it with nothing after the failure |
| `SyntheticWalk.Walker.Finish` | pkg/fssync/walk.go:212-220 | emits the remaining entries; a failing sink stops it |
| `SyntheticWalk.Walker.WalkAll` | pkg/fssync/walk.go:139-147 | over a whole walk the sink gets the merge, or a proper part of it exactly when it fails |
| `SyntheticOrder.MergeKeepsEverything` | pkg/fssync/walk.go:202-220 | the merge holds every cached path and every entry once, each kind in its own order |
| `SyntheticOrder.MergedPathsDistinct` | pkg/fssync/walk.go:202-220 | all paths of the merge differ |
| `SyntheticOrder.UnpackedPathsAreCachedPaths` | pkg/fileutils/tarxfer.go:540-549 | no path of an unpacked tree lies in the staging subtree |
| `SyntheticOrder.EntriesForAreStaging` | pkg/fssync/walk.go:171-200 | if there are entries, the staging directory comes first and a file follows |
| `SyntheticOrder.EntriesForExactly` | pkg/fssync/walk.go:171-200 | the entries are exactly the requested generated files that are not empty, each with its own content at its own path, and the staging directory if there are any |
| `SyntheticOrder.MergeInOrderIff` | pkg/fssync/walk.go:202-220 | the merged walk is strictly increasing component by component exactly when no cached path conflicts with the staging name |
| `SyntheticOrder.SinkInOrderIff` | pkg/fssync/walk.go:171-220 | for every proxy and request the walk that reaches the sink is in order exactly when no entry is built or no cached path conflicts |
| `ContentInfo.SizeRoundTrip` | pkg/content/info.go:118-134 | a size survives printing and parsing exactly when it has 64 bits |
| `ContentInfo.ParseIntIff` | pkg/content/info.go:131-134 | a text is parsed to a number exactly when it is that number's numeral, of at most 64 bits, behind an optional sign and zeros |
| `ContentInfo.Encode` | pkg/content/info.go:115-129 | the metadata have exactly the four fixed keys and one for each label, with the values of the information, in whatever order the labels come |
| `ContentInfo.DecodeLabels` | pkg/content/info.go:152-161 | exactly the metadata under the prefix, without it |
| `ContentInfo.Decode` | pkg/content/info.go:92-113 | the fields and labels, or the first error in the order size, creation, update |
| `ContentInfo.DecodesIff` | pkg/content/info.go:92-161 | from the metadata alone: the number under the size key, the times under theirs, zero when missing or empty, and the labels; or the first of size, creation and update that cannot be read |
| `ContentInfo.DecodeReply` | pkg/content/info.go:79-87 | a reply that carries an encoded information gives it back with times truncated to the second, whatever other keys come with it; no label is taken for an error, and an error of the host is reported with its message |
| `ContentInfo.NeutralKeysDoNotMatter` | pkg/content/update.go:69-74 | keys that decoding does not look at never change its result |
| `ContentInfo.LabelsRoundTrip` | pkg/content/info.go:115-161 | arbitrary labels survive encoding and decoding |
| `ContentInfo.RoundTrip` | pkg/content/info.go:92-161 | decoding an encoded information, with or without the routing keys, gives it back with times truncated to the second |

## Left out

- Generated protobuf and gRPC code, sockets, process start and configuration files.
- The standard library and third-party packages: the filtering of `fsutil`, `errgroup`, `singleflight`
  beyond one call in flight per key, SHA-256 and the tar format (uninterpreted functions).
- `pkg/build`, `pkg/fssync/file.go`, `pkg/fssync/fs.go`, `pkg/stdio`, `pkg/exporter`, `pkg/resolver` and
  the remaining request wrappers of `pkg/content`, which would only add easy members.
- `requestedSyntheticDockerfilePaths`, `excludePatternsForWalk` and `unmarshalWalkMetadata`: plain
  functions of their input.
- ContentInfo.RoundTrip: the date format of section 5.6 of RFC 3339 is a pair of functions of which
  the round trip to the second is assumed for the two times at hand.
- Wall-clock time: timeouts, retries and sleeps are steps that may happen at any point, and the clock
  of the chunk cache is a parameter.
- Liveness under fairness: several sends in the shim block without observing cancellation.  Stated are
  only when a tar stream is received in every run, when a receiver can finish, and that a read can always
  be completed.
- Wrap-around of `off + len(b)` in a read.
- PrefetchLoops.ReadAt: one goroutine only; what the fetches answer and whether the prefetcher is closed
  are parameters.  That the chunks are the right ones, and what scheduling and eviction do meanwhile,
  is stated of every concurrent run by `PrefetchTheorems.ReadsReturnTheData`.
- PrefetchTheorems.ReadsReturnTheData: the eviction by the size limit may remove any set of chunks in
  the concurrent model, which allows for what the cache does (`PrefetchCache.AddChunkIsAStep`).
- Unpack.AddHardLink: a hard link is a second file with the same content and mode; that both share an
  inode is not modelled.
- The destination of unpacking is taken to be a real directory, and the process umask, ownership,
  times, the lock file and the temporary tar file are not part of the file system model.
- The walk of `walkCachedContext` is modelled as visits in any order; its order is the hypothesis of
  the ordering theorem.
- SyntheticWalk.Walker.WalkAll: a sink that asks to skip a directory is not modelled.
- The demultiplexer of a context walk, whose close function does nothing, is modelled like the others,
  whose close function removes the registration.
- StreamDemuxTheorems.RepliesFindTheirHandler: stated for ids that one caller of a stage uses; a
  cancelled demultiplexer removes whatever is registered under its id.

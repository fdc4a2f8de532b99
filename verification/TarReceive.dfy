/** From the packets on the stream to the tree that BuildKit walks. */
module TarReceive {
  import opened Basics
  import P = Publish
  import PublishProofs
  import PublishTheorems
  import T = TarStream
  import TarStreamProofs
  import UnpackTree

  /** A receiver that was not served from the cache walks the tree of the very bytes its stream
      carried: the stream was whole, its header named the digest, and whoever published the entry
      published those bytes. */
  lemma UncachedReceiveWalksTheStream(packets: seq<T.Packet>, stream: seq<T.State>, moves: seq<T.Step>, i: nat,
                                      w: P.World, run: seq<P.State>, steps: seq<(nat, P.Step)>, k: nat, j: nat, p: nat)
    requires T.IsRun(packets, stream, moves) && i < |stream| && stream[i].cons.Received? && !stream[i].cons.cached
    requires PublishTheorems.IsRun(w, run, steps) && k < |run| && j < |run|
    requires p in run[k].procs && run[k].procs[p] == P.Proc(stream[i].cons.header.checksum, P.Locking(stream[i].file))
    requires p in run[j].procs && run[j].procs[p].pc.Walked? && run[j].procs[p].digest == stream[i].cons.header.checksum
    requires forall other | w.hash(other) == w.hash(stream[i].file) :: other == stream[i].file
    ensures exists n: nat ::
              && n <= |packets| && TarStreamProofs.WholeStream(packets[..n], stream[i].cons.header)
              && w.hash(T.Bytes(packets[..n])) == stream[i].cons.header.checksum
              && UnpackTree.ApplyAll(map[], w.parse(T.Bytes(packets[..n]))) == Some(run[j].procs[p].pc.visited)
  {
    hide T.IsRun, PublishTheorems.IsRun, UnpackTree.ApplyAll, T.Bytes, TarStreamProofs.WholeStream;
    TarStreamProofs.ReceiveIsExact(packets, stream, moves, i);
    PublishTheorems.RunKeeps(w, run, steps, k);
    PublishProofs.Facts(w, run[k], p);
    PublishTheorems.WalksReportTheHostsArchive(w, run, steps, j, p, stream[i].file);
  }
}

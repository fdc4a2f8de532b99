/** Theorems about every run of the stream multiplexer. */
module StreamDemuxTheorems {
  import opened Basics
  import opened Filters
  import opened StreamDemux
  import opened StreamDemuxProofs

  // ---- conservation ----

  /** A packet meant for this demultiplexer: dispatched to its stage, with its id, let through by its filter. */
  ghost predicate Wants(filters: seq<Filter>, x: Demux, p: Packet) {
    Route(filters, p) == Some(x.stage) && p.buildId == x.id && x.filter(p) == Accept
  }

  ghost function Wanted(filters: seq<Filter>, x: Demux, ps: seq<Packet>): seq<Packet> {
    if ps == [] then []
    else
      Wanted(filters, x, ps[..|ps| - 1]) + if Wants(filters, x, ps[|ps| - 1]) then [ps[|ps| - 1]] else []
  }

  lemma WantedSnoc(filters: seq<Filter>, x: Demux, ps: seq<Packet>, p: Packet)
    ensures Wanted(filters, x, ps + [p]) == Wanted(filters, x, ps) + if Wants(filters, x, p) then [p] else []
  {
    assert (ps + [p])[..|ps|] == ps;
  }

  lemma {:induction false} WantedAppend(filters: seq<Filter>, x: Demux, ps: seq<Packet>, qs: seq<Packet>)
    ensures Wanted(filters, x, ps + qs) == Wanted(filters, x, ps) + Wanted(filters, x, qs)
  {
    if qs == [] {
      assert ps + qs == ps;
    } else {
      var n := |qs| - 1;
      assert ps + qs == (ps + qs[..n]) + [qs[n]];
      WantedAppend(filters, x, ps, qs[..n]);
      WantedSnoc(filters, x, ps + qs[..n], qs[n]);
    }
  }

  lemma WantedTake(filters: seq<Filter>, x: Demux, ps: seq<Packet>)
    requires ps != []
    ensures Wanted(filters, x, ps) == (if Wants(filters, x, ps[0]) then [ps[0]] else []) + Wanted(filters, x, ps[1..])
  {
    assert ps == [ps[0]] + ps[1..];
    WantedAppend(filters, x, [ps[0]], ps[1..]);
    WantedSnoc(filters, x, [], ps[0]);
    assert [] + [ps[0]] == [ps[0]];
  }

  /** The demultiplexer is the registered one, its context is live, and so is the pipeline. */
  ghost predicate Live(s: State, d: nat) {
    && d in s.demuxes && s.demuxes[d].stage < |s.stages| && !s.demuxes[d].cancelled && !s.stopped
    && s.demuxes[d].id in s.stages[s.demuxes[d].stage].table
    && s.stages[s.demuxes[d].stage].table[s.demuxes[d].id] == d
  }

  ghost function InHand(filters: seq<Filter>, x: Demux, d: nat, pc: StagePc): seq<Packet> {
    match pc
    case Taken(p) => if Wants(filters, x, p) then [p] else []
    case Loaded(p, d') => if d' == d && Wants(filters, x, p) then [p] else []
    case Accepting(p, d') => if d' == d then [p] else []
    case _ => []
  }

  ghost function InReader(filters: seq<Filter>, x: Demux, reader: Reader): seq<Packet> {
    if reader.Forwarding? && Wants(filters, x, reader.packet) then [reader.packet] else []
  }

  /** Delivered, in the demultiplexer's channel, in the stage's hand, in its channel, in the reader's hand. */
  ghost function Flow(filters: seq<Filter>, s: State, d: nat): seq<Packet>
    requires d in s.demuxes && s.demuxes[d].stage < |s.stages|
  {
    var x := s.demuxes[d];
    x.delivered + x.ch + InHand(filters, x, d, s.stages[x.stage].pc) + Wanted(filters, x, s.stages[x.stage].recvCh)
    + InReader(filters, x, s.reader)
  }

  /** The same demultiplexer, whatever it holds. */
  ghost predicate SameDemux(x: Demux, x': Demux) { x'.stage == x.stage && x'.id == x.id && x'.filter == x.filter }

  lemma {:induction false} WantedSame(filters: seq<Filter>, x: Demux, x': Demux, ps: seq<Packet>)
    requires SameDemux(x, x')
    ensures Wanted(filters, x', ps) == Wanted(filters, x, ps)
  {
    if ps != [] {
      WantedSame(filters, x, x', ps[..|ps| - 1]);
    }
  }

  lemma ReaderFlow(filters: seq<Filter>, s: State, s': State, e: Step, d: nat)
    requires Inv(filters, s) && ReaderStep(filters, s, s', e) && Live(s, d)
    ensures d in s'.demuxes && s'.demuxes[d] == s.demuxes[d] && |s'.stages| == |s.stages|
    ensures s'.arrived == s.arrived + if e.Arrive? then [e.packet] else []
    ensures Flow(filters, s', d) == Flow(filters, s, d) + Wanted(filters, s.demuxes[d], if e.Arrive? then [e.packet]
        else [])
  {
    hide Wanted, InHand, StageOk, CallerOk, DemuxOk, Route;
    var x := s.demuxes[d];
    WantedNone(filters, x);
    if e.Arrive? {
      WantedSnoc(filters, x, [], e.packet);
      assert [] + [e.packet] == [e.packet];
    } else if e.Forward? {
      WantedSnoc(filters, x, s.stages[s.reader.stage].recvCh, s.reader.packet);
    }
  }

  lemma WantedNone(filters: seq<Filter>, x: Demux)
    ensures Wanted(filters, x, []) == []
  {
  }

  lemma TakeFlow(filters: seq<Filter>, s: State, s': State, d: nat)
    requires Live(s, d) && StageStep(s, s', StageTake(s.demuxes[d].stage))
    ensures d in s'.demuxes && s'.demuxes[d] == s.demuxes[d] && |s'.stages| == |s.stages|
    ensures Flow(filters, s', d) == Flow(filters, s, d)
  {
    hide Wanted, Wants;
    var x := s.demuxes[d];
    WantedTake(filters, x, s.stages[x.stage].recvCh);
  }

  /** A stage at work moves the packets of a live demultiplexer along and loses none. */
  lemma WorkFlow(filters: seq<Filter>, s: State, s': State, e: Step, d: nat)
    requires Live(s, d) && StageStep(s, s', e) && e.stage == s.demuxes[d].stage && !e.StageTake?
    requires HandOk(filters, s, e.stage)
    ensures d in s'.demuxes && SameDemux(s.demuxes[d], s'.demuxes[d]) && |s'.stages| == |s.stages|
    ensures Flow(filters, s', d) == Flow(filters, s, d)
  {
    hide Wanted, Route;
    WantedSame(filters, s.demuxes[d], s'.demuxes[d], s.stages[e.stage].recvCh);
  }

  lemma OtherStageFlow(filters: seq<Filter>, s: State, s': State, e: Step, d: nat)
    requires Live(s, d) && StageStep(s, s', e) && e.stage < |s.stages| && e.stage != s.demuxes[d].stage
    requires HandOk(filters, s, e.stage)
    ensures d in s'.demuxes && SameDemux(s.demuxes[d], s'.demuxes[d]) && |s'.stages| == |s.stages|
    ensures Flow(filters, s', d) == Flow(filters, s, d)
  {
    hide Wanted, Route;
  }

  lemma StageFlow(filters: seq<Filter>, s: State, s': State, e: Step, d: nat)
    requires Inv(filters, s) && Live(s, d) && StageStep(s, s', e)
    ensures d in s'.demuxes && SameDemux(s.demuxes[d], s'.demuxes[d]) && |s'.stages| == |s.stages|
    ensures s'.arrived == s.arrived
    ensures Flow(filters, s', d) == Flow(filters, s, d)
  {
    hide Flow, HandOk;
    StageStepFrame(s, s', e);
    assert StageOk(filters, s, e.stage);
    if e.stage != s.demuxes[d].stage {
      OtherStageFlow(filters, s, s', e, d);
    } else if e.StageTake? {
      TakeFlow(filters, s, s', d);
    } else {
      WorkFlow(filters, s, s', e, d);
    }
  }

  lemma CallFlow(filters: seq<Filter>, s: State, s': State, e: Step, d: nat)
    requires Inv(filters, s) && Live(s, d) && CallStep(s, s', e)
    ensures d in s'.demuxes && SameDemux(s.demuxes[d], s'.demuxes[d]) && |s'.stages| == |s.stages|
    ensures s'.arrived == s.arrived
    ensures Flow(filters, s', d) == Flow(filters, s, d)
  {
    hide Wanted, InHand, InReader, StageOk, DemuxOk;
    CallStepFrame(s, s', e);
    assert e.CallRegister? ==> CallerOk(s, e.caller);
    var x, x' := s.demuxes[d], s'.demuxes[d];
    assert x'.delivered + x'.ch == x.delivered + x.ch;
    hide CallStep, CallerOk;
    FlowSame(filters, s, s', d);
  }

  lemma FlowSame(filters: seq<Filter>, s: State, s': State, d: nat)
    requires d in s.demuxes && d in s'.demuxes && SameDemux(s.demuxes[d], s'.demuxes[d])
        && s.demuxes[d].stage < |s.stages| == |s'.stages|
    requires s'.reader == s.reader && s'.stages[s.demuxes[d].stage].pc == s.stages[s.demuxes[d].stage].pc
    requires s'.stages[s.demuxes[d].stage].recvCh == s.stages[s.demuxes[d].stage].recvCh
    requires s'.demuxes[d].delivered + s'.demuxes[d].ch == s.demuxes[d].delivered + s.demuxes[d].ch
    ensures Flow(filters, s', d) == Flow(filters, s, d)
  {
    hide Wanted, Route;
    WantedSame(filters, s.demuxes[d], s'.demuxes[d], s.stages[s.demuxes[d].stage].recvCh);
  }

  /** The packets that arrived since. */
  ghost function Since(s: State, s': State): seq<Packet>
    requires |s.arrived| <= |s'.arrived|
  {
    s'.arrived[|s.arrived|..]
  }

  lemma NextFlow(filters: seq<Filter>, s: State, s': State, e: Step, d: nat)
    requires Inv(filters, s) && Live(s, d) && Next(filters, s, s', e)
    ensures d in s'.demuxes && SameDemux(s.demuxes[d], s'.demuxes[d]) && |s'.stages| == |s.stages|
    ensures |s.arrived| <= |s'.arrived| && s'.arrived[..|s.arrived|] == s.arrived
    ensures Flow(filters, s', d) == Flow(filters, s, d) + Wanted(filters, s.demuxes[d], Since(s, s'))
  {
    hide Flow, Wanted, Inv, ReaderStep, StageStep, CallStep;
    WantedNone(filters, s.demuxes[d]);
    if ReaderStep(filters, s, s', e) {
      ReaderFlow(filters, s, s', e, d);
      assert Since(s, s') == if e.Arrive? then [e.packet] else [];
    } else if StageStep(s, s', e) {
      StageFlow(filters, s, s', e, d);
      assert Since(s, s') == [];
    } else {
      CallFlow(filters, s, s', e, d);
      assert Since(s, s') == [];
    }
  }

  /** While a demultiplexer stays live, what it was delivered and what is on its way to it grow by
      exactly the packets meant for it that arrive, in order: none lost, repeated, reordered or
      taken from another. */
  lemma {:induction false} PacketsAreConserved(filters: seq<Filter>, run: seq<State>, steps: seq<Step>, a: nat, b: nat,
      d: nat)
    requires IsRun(filters, run, steps) && a <= b < |run| && Live(run[a], d) && Live(run[b], d)
    requires forall i | a <= i <= b :: Live(run[i], d)
    ensures SameDemux(run[a].demuxes[d], run[b].demuxes[d])
    ensures |run[a].arrived| <= |run[b].arrived| && run[b].arrived[..|run[a].arrived|] == run[a].arrived
    ensures Flow(filters, run[b], d) == Flow(filters, run[a], d) + Wanted(filters, run[a].demuxes[d],
        Since(run[a], run[b]))
    decreases b - a
  {
    hide Next, Flow, Wanted;
    if a == b {
      WantedNone(filters, run[a].demuxes[d]);
    } else {
      hide Inv;
      PacketsAreConserved(filters, run, steps, a, b - 1, d);
      RunKeeps(filters, run, steps, b - 1);
      NextFlow(filters, run[b - 1], run[b], steps[b - 1], d);
      WantedSame(filters, run[a].demuxes[d], run[b - 1].demuxes[d], Since(run[b - 1], run[b]));
      assert Since(run[a], run[b]) == Since(run[a], run[b - 1]) + Since(run[b - 1], run[b]);
      WantedAppend(filters, run[a].demuxes[d], Since(run[a], run[b - 1]), Since(run[b - 1], run[b]));
    }
  }

  // ---- a fresh id ----

  /** The packet is on its way to or through the stage. */
  ghost predicate InTransit(s: State, i: nat, p: Packet) {
    || s.reader == Forwarding(i, p)
    || (i < |s.stages| && (p in s.stages[i].recvCh || InPc(s.stages[i].pc, p)))
  }

  ghost predicate InPc(pc: StagePc, p: Packet) { (pc.Taken? || pc.Loaded? || pc.Accepting?) && pc.packet == p }

  /** Packets set out when they arrive, and only then. */
  lemma SetsOut(filters: seq<Filter>, s: State, s': State, e: Step, i: nat, p: Packet)
    requires Inv(filters, s) && Next(filters, s, s', e) && InTransit(s', i, p)
    ensures InTransit(s, i, p) || (e == Arrive(p) && Route(filters, p) == Some(i))
  {
    hide Route, StageOk, CallerOk, DemuxOk, StageStep, CallStep;
    if ReaderStep(filters, s, s', e) {
    } else if StageStep(s, s', e) {
      StageTransit(s, s', e, i, p);
    } else {
      CallStepFrame(s, s', e);
    }
  }

  lemma StageTransit(s: State, s': State, e: Step, i: nat, p: Packet)
    requires StageStep(s, s', e) && InTransit(s', i, p)
    ensures InTransit(s, i, p)
  {
  }

  lemma {:induction false} TransitArrived(filters: seq<Filter>, run: seq<State>, steps: seq<Step>, n: nat, i: nat,
      p: Packet)
    requires IsRun(filters, run, steps) && n < |run| && InTransit(run[n], i, p)
    ensures p in run[n].arrived
  {
    hide Next, InTransit;
    NoTransit(filters, run[0], i, p);
    if n > 0 {
      hide Inv;
      RunKeeps(filters, run, steps, n - 1);
      SetsOut(filters, run[n - 1], run[n], steps[n - 1], i, p);
      if InTransit(run[n - 1], i, p) {
        TransitArrived(filters, run, steps, n - 1, i, p);
      }
      ArrivedGrows(filters, run[n - 1], run[n], steps[n - 1]);
    }
  }

  lemma NoTransit(filters: seq<Filter>, s: State, i: nat, p: Packet)
    requires Initial(filters, s)
    ensures !InTransit(s, i, p)
  {
  }

  lemma ArrivedGrows(filters: seq<Filter>, s: State, s': State, e: Step)
    requires Inv(filters, s) && Next(filters, s, s', e)
    ensures s'.arrived == s.arrived + (if e.Arrive? then [e.packet] else [])
    ensures s.wire <= s'.wire
  {
    hide Route, StageOk, CallerOk, DemuxOk, StageStep;
    if StageStep(s, s', e) {
      StageStepFrame(s, s', e);
    } else if !ReaderStep(filters, s, s', e) {
      CallStepFrame(s, s', e);
      assert !e.Arrive?;
      hide CallStep;
    }
  }

  lemma {:induction false} NothingWanted(filters: seq<Filter>, x: Demux, ps: seq<Packet>)
    requires forall n | 0 <= n < |ps| :: ps[n].buildId != x.id
    ensures Wanted(filters, x, ps) == []
  {
    if ps != [] {
      NothingWanted(filters, x, ps[..|ps| - 1]);
    }
  }

  lemma FreshFlow(filters: seq<Filter>, s: State, d: nat)
    requires Live(s, d) && s.demuxes[d].ch == [] && s.demuxes[d].delivered == []
    requires forall i, p | InTransit(s, i, p) :: p.buildId != s.demuxes[d].id
    requires HandOk(filters, s, s.demuxes[d].stage)
    ensures Flow(filters, s, d) == []
  {
    hide Route;
    var x := s.demuxes[d];
    var stage := s.stages[x.stage];
    forall n | 0 <= n < |stage.recvCh| ensures stage.recvCh[n].buildId != x.id {
      assert InTransit(s, x.stage, stage.recvCh[n]);
    }
    NothingWanted(filters, x, stage.recvCh);
    assert stage.pc.Taken? || stage.pc.Loaded? || stage.pc.Accepting? ==> InTransit(s, x.stage, stage.pc.packet);
    assert s.reader.Forwarding? ==> InTransit(s, s.reader.stage, s.reader.packet);
  }

  lemma FreshStart(filters: seq<Filter>, run: seq<State>, steps: seq<Step>, a: nat, d: nat)
    requires IsRun(filters, run, steps) && 0 < a < |run| && steps[a - 1] == CallRegister(d) && Live(run[a], d)
    requires forall n | 0 <= n < |run[a].arrived| :: run[a].arrived[n].buildId != run[a].demuxes[d].id
    ensures Flow(filters, run[a], d) == []
  {
    RegisteredEmpty(filters, run, steps, a, d);
    hide IsRun, InTransit, HandOk, CallerOk, DemuxOk, Flow;
    RunKeeps(filters, run, steps, a);
    assert StageOk(filters, run[a], run[a].demuxes[d].stage);
    forall i, p | InTransit(run[a], i, p) ensures p.buildId != run[a].demuxes[d].id {
      TransitArrived(filters, run, steps, a, i, p);
    }
    FreshFlow(filters, run[a], d);
  }

  /** Registered before any packet with its id, a live demultiplexer gets exactly the packets meant
      for it, in order of arrival: those delivered are a prefix, the rest is on its way. */
  lemma FreshIdGetsItsPackets(filters: seq<Filter>, run: seq<State>, steps: seq<Step>, a: nat, b: nat, d: nat)
    requires IsRun(filters, run, steps) && 0 < a <= b < |run| && steps[a - 1] == CallRegister(d)
    requires Live(run[a], d) && Live(run[b], d) && forall i | a <= i <= b :: Live(run[i], d)
    requires forall n | 0 <= n < |run[a].arrived| :: run[a].arrived[n].buildId != run[a].demuxes[d].id
    ensures Flow(filters, run[b], d) == Wanted(filters, run[b].demuxes[d], run[b].arrived)
    ensures run[b].demuxes[d].delivered <= Wanted(filters, run[b].demuxes[d], run[b].arrived)
  {
    hide IsRun, Wanted, InHand, InReader;
    var x, x' := run[a].demuxes[d], run[b].demuxes[d];
    assert x'.delivered <= Flow(filters, run[b], d);
    hide Flow, Live;
    FreshStart(filters, run, steps, a, d);
    PacketsAreConserved(filters, run, steps, a, b, d);
    assert run[b].arrived == run[a].arrived + Since(run[a], run[b]);
    WantedAppend(filters, x, run[a].arrived, Since(run[a], run[b]));
    NothingWanted(filters, x, run[a].arrived);
    WantedSame(filters, x, x', run[b].arrived);
  }

  lemma RegisteredEmpty(filters: seq<Filter>, run: seq<State>, steps: seq<Step>, a: nat, d: nat)
    requires IsRun(filters, run, steps) && 0 < a < |run| && steps[a - 1] == CallRegister(d)
    ensures d in run[a].demuxes && run[a].demuxes[d].ch == [] && run[a].demuxes[d].delivered == []
  {
    assert Next(filters, run[a - 1], run[a], steps[a - 1]);
  }

  // ---- replies find their handlers ----

  /** No other caller of the stage uses the id. */
  ghost predicate Sole(s: State, r: nat)
    requires r in s.callers
  {
    forall q | q in s.callers && q != r :: s.callers[q].stage != s.callers[r].stage
        || s.callers[q].id != s.callers[r].id
  }

  ghost predicate HandlerOk(s: State, r: nat)
    requires r in s.callers
  {
    Sole(s, r) && r in s.demuxes && !s.demuxes[r].cancelled && !s.stopped && !s.callers[r].pc.CallFailed? ==> Live(s, r)
  }

  /** A stage forgets an id only for a cancelled demultiplexer of that id, or once it is stopped. */
  lemma StageForgets(filters: seq<Filter>, s: State, s': State, e: Step, id: string)
    requires StageStep(s, s', e) && e.stage < |s.stages| == |s'.stages| && StageOk(filters, s, e.stage)
    requires id in s.stages[e.stage].table && id !in s'.stages[e.stage].table && !s.stopped
    ensures s.stages[e.stage].pc.Loaded? || s.stages[e.stage].pc.Accepting?
    ensures var d := s.stages[e.stage].pc.demux;
            d in s.demuxes && s.demuxes[d].cancelled && s.demuxes[d].id == id && s.demuxes[d].stage == e.stage
  {
    hide Route;
  }

  lemma StageHandler(filters: seq<Filter>, s: State, s': State, e: Step, r: nat)
    requires Inv(filters, s) && StageStep(s, s', e) && r in s.callers && HandlerOk(s, r)
    ensures r in s'.callers && HandlerOk(s', r)
  {
    hide CallerOk, StageOk;
    StageStepFrame(s, s', e);
    hide StageStep;
    assert r in s.demuxes ==> DemuxOk(s, r);
    var i, id := s.callers[r].stage, s.callers[r].id;
    if r in s.demuxes && i == e.stage && !s.stopped && id in s.stages[i].table && id !in s'.stages[i].table {
      StageForgets(filters, s, s', e, id);
      assert DemuxOk(s, s.stages[i].pc.demux);
    }
  }

  ghost predicate ChangesTables(e: Step) { e.CallRegister? || e.CallTimeout? || e.CallCancelled? }

  lemma OtherCallHandler(s: State, s': State, e: Step, r: nat)
    requires CallStep(s, s', e) && !ChangesTables(e) && r in s'.callers && (r in s.callers ==> HandlerOk(s, r))
    requires (r in s.demuxes ==> DemuxOk(s, r)) && Grows(s, s')
    ensures HandlerOk(s', r)
  {
    SoleBefore(s, s', r);
    hide Sole;
  }

  lemma RegisterHandler(s: State, s': State, q: nat, r: nat)
    requires CallStep(s, s', CallRegister(q)) && CallerOk(s, q) && r in s.callers && HandlerOk(s, r)
    requires (r in s.demuxes ==> DemuxOk(s, r)) && Grows(s, s')
    ensures r in s'.callers && HandlerOk(s', r)
  {
    SoleBefore(s, s', r);
  }

  lemma LeavingHandler(s: State, s': State, e: Step, r: nat)
    requires CallStep(s, s', e) && (e.CallTimeout? || e.CallCancelled?)
    requires e.caller in s.callers && CallerOk(s, e.caller) && r in s.callers && HandlerOk(s, r)
    requires (r in s.demuxes ==> DemuxOk(s, r)) && Grows(s, s')
    ensures r in s'.callers && HandlerOk(s', r)
  {
    SoleBefore(s, s', r);
  }

  lemma CallHandler(filters: seq<Filter>, s: State, s': State, e: Step, r: nat)
    requires Inv(filters, s) && CallStep(s, s', e) && r in s'.callers && (r in s.callers ==> HandlerOk(s, r))
    ensures HandlerOk(s', r)
  {
    hide Route, StageOk, DemuxOk, CallerOk, HandlerOk, Grows;
    CallStepFrame(s, s', e);
    if e.CallRegister? {
      RegisterHandler(s, s', e.caller, r);
    } else if ChangesTables(e) {
      LeavingHandler(s, s', e, r);
    } else {
      OtherCallHandler(s, s', e, r);
    }
  }

  lemma SoleBefore(s: State, s': State, r: nat)
    requires Grows(s, s') && r in s'.callers
    ensures r in s.callers && Sole(s', r) ==> Sole(s, r)
  {
  }

  lemma HandlerKept(filters: seq<Filter>, s: State, s': State, e: Step, r: nat)
    requires Inv(filters, s) && Next(filters, s, s', e) && r in s'.callers && (r in s.callers ==> HandlerOk(s, r))
    ensures HandlerOk(s', r)
  {
    hide StageStep, CallStep, Inv, HandlerOk;
    if ReaderStep(filters, s, s', e) {
      ReaderHandler(filters, s, s', e, r);
    } else if StageStep(s, s', e) {
      StageStepFrame(s, s', e);
      StageHandler(filters, s, s', e, r);
    } else {
      CallHandler(filters, s, s', e, r);
    }
  }

  lemma ReaderHandler(filters: seq<Filter>, s: State, s': State, e: Step, r: nat)
    requires ReaderStep(filters, s, s', e) && r in s.callers && HandlerOk(s, r)
    ensures r in s'.callers && HandlerOk(s', r)
  {
    hide Route;
  }

  lemma {:induction false} RunHandlers(filters: seq<Filter>, run: seq<State>, steps: seq<Step>, i: nat, r: nat)
    requires IsRun(filters, run, steps) && i < |run| && r in run[i].callers
    ensures HandlerOk(run[i], r)
  {
    hide Next;
    if i > 0 {
      hide Inv, HandlerOk;
      if r in run[i - 1].callers {
        RunHandlers(filters, run, steps, i - 1, r);
      }
      RunKeeps(filters, run, steps, i - 1);
      HandlerKept(filters, run[i - 1], run[i], steps[i - 1], r);
    }
  }

  /** A message leaves only after its caller has registered, and then the caller gives up only when cancelled. */
  ghost predicate MessageOk(s: State, m: Message) {
    && m.caller in s.callers && s.callers[m.caller].stage == m.stage && s.callers[m.caller].id == m.id
    && m.caller in s.demuxes
    && (s.callers[m.caller].pc == Receiving(m.caller)
        || (s.callers[m.caller].pc.CallFailed? && s.demuxes[m.caller].cancelled))
  }

  ghost predicate OnItsWay(s: State, m: Message) { m in s.sendCh || m in s.wire }

  lemma MessageKept(filters: seq<Filter>, s: State, s': State, e: Step, m: Message)
    requires Inv(filters, s) && Next(filters, s, s', e) && MessageOk(s, m)
    ensures MessageOk(s', m)
  {
    hide Route, StageOk, DemuxOk, CallerOk, StageStep, CallStep;
    if StageStep(s, s', e) {
      StageStepFrame(s, s', e);
    } else if !ReaderStep(filters, s, s', e) {
      CallMessageKept(s, s', e, m);
    }
  }

  lemma CallMessageKept(s: State, s': State, e: Step, m: Message)
    requires CallStep(s, s', e) && MessageOk(s, m)
    ensures MessageOk(s', m)
  {
  }

  lemma CallMessageSent(s: State, s': State, e: Step, m: Message)
    requires CallStep(s, s', e) && OnItsWay(s', m) && !OnItsWay(s, m)
    requires forall r | r in s.callers :: CallerOk(s, r)
    ensures MessageOk(s', m)
  {
    assert e.CallSend?;
    assert CallerOk(s, e.caller);
  }

  lemma MessageSent(filters: seq<Filter>, s: State, s': State, e: Step, m: Message)
    requires Inv(filters, s) && Next(filters, s, s', e) && OnItsWay(s', m) && !OnItsWay(s, m)
    ensures MessageOk(s', m)
  {
    hide Route, StageOk, DemuxOk, CallerOk, StageStep, CallStep, MessageOk;
    if StageStep(s, s', e) {
      StageStepFrame(s, s', e);
    } else if CallStep(s, s', e) {
      CallMessageSent(s, s', e, m);
    }
  }

  lemma {:induction false} RunMessages(filters: seq<Filter>, run: seq<State>, steps: seq<Step>, i: nat, m: Message)
    requires IsRun(filters, run, steps) && i < |run| && OnItsWay(run[i], m)
    ensures MessageOk(run[i], m)
  {
    hide Next;
    if i > 0 {
      hide Inv, MessageOk, OnItsWay;
      RunKeeps(filters, run, steps, i - 1);
      if OnItsWay(run[i - 1], m) {
        RunMessages(filters, run, steps, i - 1, m);
        MessageKept(filters, run[i - 1], run[i], steps[i - 1], m);
      } else {
        MessageSent(filters, run[i - 1], run[i], steps[i - 1], m);
      }
    }
  }

  /** A message of that stage and id is on the wire. */
  ghost predicate Asked(s: State, i: nat, id: string) {
    exists m :: m in s.wire && m.stage == i && m.id == id
  }

  /** The host sends a stage only answers to messages it can have seen. */
  ghost predicate PoliteHost(filters: seq<Filter>, run: seq<State>, steps: seq<Step>)
    requires |run| == |steps| + 1
  {
    forall n | 0 <= n < |steps| && steps[n].Arrive? && Route(filters, steps[n].packet).Some? ::
      Asked(run[n], Route(filters, steps[n].packet).value, steps[n].packet.buildId)
  }

  lemma {:induction false} TransitAsked(filters: seq<Filter>, run: seq<State>, steps: seq<Step>, n: nat, i: nat,
      p: Packet)
    requires IsRun(filters, run, steps) && PoliteHost(filters, run, steps) && n < |run| && InTransit(run[n], i, p)
    ensures Asked(run[n], i, p.buildId)
  {
    hide Next, InTransit, Route;
    NoTransit(filters, run[0], i, p);
    if n > 0 {
      hide Inv;
      RunKeeps(filters, run, steps, n - 1);
      SetsOut(filters, run[n - 1], run[n], steps[n - 1], i, p);
      if InTransit(run[n - 1], i, p) {
        TransitAsked(filters, run, steps, n - 1, i, p);
      }
      ArrivedGrows(filters, run[n - 1], run[n], steps[n - 1]);
    }
  }

  /** Whenever a stage looks up a reply, the caller it answers is found: unless another caller used
      the same id, or that call or the pipeline has been cancelled. */
  lemma RepliesFindTheirHandler(filters: seq<Filter>, run: seq<State>, steps: seq<Step>, n: nat, i: nat)
    requires IsRun(filters, run, steps) && PoliteHost(filters, run, steps) && n < |run|
    requires i < |run[n].stages| && run[n].stages[i].pc.Taken? && !run[n].stopped
    ensures exists r | r in run[n].callers && r in run[n].demuxes ::
              && run[n].callers[r].stage == i && run[n].callers[r].id == run[n].stages[i].pc.packet.buildId
              && (Sole(run[n], r) && !run[n].demuxes[r].cancelled ==>
                    && run[n].stages[i].pc.packet.buildId in run[n].stages[i].table
                    && run[n].stages[i].table[run[n].stages[i].pc.packet.buildId] == r)
  {
    var s, p := run[n], run[n].stages[i].pc.packet;
    assert InTransit(s, i, p);
    hide IsRun, InTransit;
    TransitAsked(filters, run, steps, n, i, p);
    var m :| m in s.wire && m.stage == i && m.id == p.buildId;
    RunMessages(filters, run, steps, n, m);
    RunHandlers(filters, run, steps, n, m.caller);
    RunKeeps(filters, run, steps, n);
    assert DemuxOk(s, m.caller);
  }
}

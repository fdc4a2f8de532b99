/** What every run of the stream multiplexer keeps. */
module StreamDemuxProofs {
  import opened Basics
  import opened Filters
  import opened StreamDemux

  // ---- well-formedness ----

  /** What a stage holds for a demultiplexer matches it. */
  ghost predicate HandOk(filters: seq<Filter>, s: State, i: nat)
    requires i < |s.stages|
  {
    match s.stages[i].pc
    case Taken(p) => Route(filters, p) == Some(i)
    case Loaded(p, d) =>
      Route(filters, p) == Some(i) && d in s.demuxes && s.demuxes[d].stage == i && s.demuxes[d].id == p.buildId
    case Accepting(p, d) =>
      && Route(filters, p) == Some(i) && d in s.demuxes && s.demuxes[d].stage == i && s.demuxes[d].id == p.buildId
      && s.demuxes[d].filter(p) == Accept
    case Stopped => s.stopped
    case Waiting => true
  }

  ghost predicate StageOk(filters: seq<Filter>, s: State, i: nat)
    requires i < |s.stages|
  {
    && (forall n | 0 <= n < |s.stages[i].recvCh| :: Route(filters, s.stages[i].recvCh[n]) == Some(i))
    && (forall id | id in s.stages[i].table :: s.stages[i].table[id] in s.demuxes
                                                && s.demuxes[s.stages[i].table[id]].stage == i
                                                && s.demuxes[s.stages[i].table[id]].id == id)
    && HandOk(filters, s, i)
  }

  /** A demultiplexer belongs to the caller that made it, and a receiver's id is its demultiplexer's. */
  ghost predicate CallerOk(s: State, r: nat)
    requires r in s.callers
  {
    && s.callers[r].stage < |s.stages|
    && (s.callers[r].pc.Starting? || s.callers[r].pc.Registering? ==> r !in s.demuxes)
    && (s.callers[r].pc.Sending? ==> r in s.demuxes)
    && (s.callers[r].pc.Receiving? ==>
          && s.callers[r].pc.demux in s.demuxes
          && s.demuxes[s.callers[r].pc.demux].stage == s.callers[r].stage
          && s.demuxes[s.callers[r].pc.demux].id == s.callers[r].id)
  }

  ghost predicate DemuxOk(s: State, d: nat)
    requires d in s.demuxes
  {
    && d in s.callers && s.demuxes[d].stage == s.callers[d].stage && s.demuxes[d].id == s.callers[d].id
    && s.demuxes[d].filter == s.callers[d].filter && s.demuxes[d].stage < |s.stages|
  }

  ghost predicate Inv(filters: seq<Filter>, s: State) {
    && |s.stages| == |filters|
    && (forall i | 0 <= i < |s.stages| :: StageOk(filters, s, i))
    && (forall r | r in s.callers :: CallerOk(s, r))
    && (forall d | d in s.demuxes :: DemuxOk(s, d))
    && (s.reader.Forwarding? ==> Route(filters, s.reader.packet) == Some(s.reader.stage))
  }

  /** Demultiplexers and callers stay, with the same identity. */
  ghost predicate Grows(s: State, s': State) {
    && |s'.stages| == |s.stages| && (s.stopped ==> s'.stopped)
    && (forall d | d in s.demuxes :: d in s'.demuxes && s'.demuxes[d].stage == s.demuxes[d].stage
                                     && s'.demuxes[d].id == s.demuxes[d].id
                                         && s'.demuxes[d].filter == s.demuxes[d].filter)
    && (forall r | r in s.callers :: r in s'.callers && s'.callers[r] == s.callers[r].(pc := s'.callers[r].pc))
  }

  lemma StageKept(filters: seq<Filter>, s: State, s': State, i: nat)
    requires i < |s.stages| && StageOk(filters, s, i) && Grows(s, s')
    requires s'.stages[i].recvCh == s.stages[i].recvCh && s'.stages[i].pc == s.stages[i].pc
    requires forall id | id in s'.stages[i].table ::
          id in s.stages[i].table && s'.stages[i].table[id] == s.stages[i].table[id]
    ensures StageOk(filters, s', i)
  {
    hide Route;
  }

  lemma CallersKept(s: State, s': State)
    requires forall r | r in s.callers :: CallerOk(s, r)
    requires forall d | d in s.demuxes :: DemuxOk(s, d)
    requires Grows(s, s') && s'.callers == s.callers && s'.demuxes.Keys == s.demuxes.Keys
    ensures forall r | r in s'.callers :: CallerOk(s', r)
    ensures forall d | d in s'.demuxes :: DemuxOk(s', d)
  {
    forall r | r in s'.callers ensures CallerOk(s', r) {
      assert CallerOk(s, r);
    }
    forall d | d in s'.demuxes ensures DemuxOk(s', d) {
      assert DemuxOk(s, d);
    }
  }

  lemma ReaderKeeps(filters: seq<Filter>, s: State, s': State, e: Step)
    requires Inv(filters, s) && ReaderStep(filters, s, s', e)
    ensures Inv(filters, s') && Grows(s, s')
  {
    hide Route, HandOk;
    CallersKept(s, s');
    forall i | 0 <= i < |s'.stages| ensures StageOk(filters, s', i) {
      assert StageOk(filters, s, i);
      if !(e.Forward? && s.reader.stage == i) {
        StageKept(filters, s, s', i);
      } else {
        HandKept(filters, s, s', i);
      }
    }
  }

  lemma HandKept(filters: seq<Filter>, s: State, s': State, i: nat)
    requires i < |s.stages| && HandOk(filters, s, i) && Grows(s, s') && s'.stages[i].pc == s.stages[i].pc
    ensures HandOk(filters, s', i)
  {
    hide Route;
  }

  /** A stage changes only itself and the channel of one demultiplexer. */
  lemma StageStepFrame(s: State, s': State, e: Step)
    requires StageStep(s, s', e)
    ensures e.StageTake? || e.StageLookup? || e.StageCheck? || e.StagePut? || e.StageGiveUp? || e.StageStop?
        || e.StageDrop?
    ensures Grows(s, s') && s'.callers == s.callers && s'.demuxes.Keys == s.demuxes.Keys && s'.reader == s.reader
    ensures e.stage < |s.stages| && s'.stages == s.stages[e.stage := s'.stages[e.stage]]
    ensures forall id | id in s'.stages[e.stage].table ::
              id in s.stages[e.stage].table && s'.stages[e.stage].table[id] == s.stages[e.stage].table[id]
    ensures s'.arrived == s.arrived && s'.sendCh == s.sendCh && s'.wire == s.wire && s'.stopped == s.stopped
    ensures forall d | d in s.demuxes :: s'.demuxes[d].cancelled == s.demuxes[d].cancelled
  {
  }

  lemma OwnHandKept(filters: seq<Filter>, s: State, s': State, e: Step)
    requires StageStep(s, s', e) && e.stage < |s.stages| && StageOk(filters, s, e.stage)
    ensures e.stage < |s'.stages| && HandOk(filters, s', e.stage)
    ensures s'.stages[e.stage].recvCh == s.stages[e.stage].recvCh
            || (s.stages[e.stage].recvCh != [] && s'.stages[e.stage].recvCh == s.stages[e.stage].recvCh[1..])
  {
    hide Route;
  }

  lemma OwnStageKept(filters: seq<Filter>, s: State, s': State, e: Step)
    requires StageStep(s, s', e) && e.stage < |s.stages| && StageOk(filters, s, e.stage)
    ensures e.stage < |s'.stages| && StageOk(filters, s', e.stage)
  {
    hide Route, HandOk;
    StageStepFrame(s, s', e);
    OwnHandKept(filters, s, s', e);
    hide StageStep;
  }

  lemma StageKeeps(filters: seq<Filter>, s: State, s': State, e: Step)
    requires Inv(filters, s) && StageStep(s, s', e)
    ensures Inv(filters, s') && Grows(s, s')
  {
    hide Route, StageOk, CallerOk, DemuxOk;
    StageStepFrame(s, s', e);
    hide StageStep;
    CallersKept(s, s');
    forall i | 0 <= i < |s'.stages| ensures StageOk(filters, s', i) {
      if i == e.stage {
        OwnStageKept(filters, s, s', e);
      } else {
        StageKept(filters, s, s', i);
      }
    }
  }

  lemma CallStepFrame(s: State, s': State, e: Step)
    requires CallStep(s, s', e) && forall r | r in s.callers :: CallerOk(s, r)
    ensures Grows(s, s') && s'.reader == s.reader && s'.arrived == s.arrived && s.wire <= s'.wire
    ensures forall i | 0 <= i < |s.stages| :: s'.stages[i] == s.stages[i].(table := s'.stages[i].table)
  {
    assert e.CallRegister? && e.caller in s.callers ==> CallerOk(s, e.caller);
  }

  /** A table only loses ids, except for the id a caller registers. */
  lemma TableChanges(s: State, s': State, e: Step, i: nat, id: string)
    requires CallStep(s, s', e) && i < |s'.stages| == |s.stages| && id in s'.stages[i].table
    ensures || (id in s.stages[i].table && s'.stages[i].table[id] == s.stages[i].table[id])
            || (e.CallRegister? && e.caller in s'.demuxes && s'.stages[i].table[id] == e.caller
                && s'.demuxes[e.caller].stage == i && s'.demuxes[e.caller].id == id)
  {
  }

  lemma TablesKept(filters: seq<Filter>, s: State, s': State, e: Step, i: nat)
    requires i < |s'.stages| == |s.stages| && StageOk(filters, s, i) && CallStep(s, s', e) && Grows(s, s')
    requires s'.stages[i] == s.stages[i].(table := s'.stages[i].table)
    ensures StageOk(filters, s', i)
  {
    hide Route, CallStep;
    HandKept(filters, s, s', i);
    hide HandOk;
    forall id | id in s'.stages[i].table
      ensures s'.stages[i].table[id] in s'.demuxes && s'.demuxes[s'.stages[i].table[id]].stage == i
              && s'.demuxes[s'.stages[i].table[id]].id == id
    {
      TableChanges(s, s', e, i, id);
    }
  }

  /** A caller that shares a demultiplexer finds the one of its own id. */
  lemma LoadKept(s: State, s': State, q: nat, r: nat)
    requires CallStep(s, s', CallLoad(q)) && CallerOk(s, q) && r in s.callers && CallerOk(s, r)
    requires var i, id := s.callers[q].stage, s.callers[q].id;
             id in s.stages[i].table ==>
               var d := s.stages[i].table[id];
               d in s.demuxes && s.demuxes[d].stage == i && s.demuxes[d].id == id
    ensures r in s'.callers && CallerOk(s', r)
  {
  }

  lemma OtherCallKept(s: State, s': State, e: Step, r: nat)
    requires CallStep(s, s', e) && !e.CallLoad? && !e.CallRegister? && Grows(s, s') && r in s'.callers
    requires r in s.callers ==> CallerOk(s, r)
    requires r in s.demuxes ==> DemuxOk(s, r)
    ensures CallerOk(s', r)
  {
  }

  lemma RegisterKept(s: State, s': State, q: nat, r: nat)
    requires CallStep(s, s', CallRegister(q)) && CallerOk(s, q) && Grows(s, s') && r in s.callers && CallerOk(s, r)
    ensures r in s'.callers && CallerOk(s', r)
  {
  }

  lemma DemuxStepKept(s: State, s': State, e: Step, d: nat)
    requires CallStep(s, s', e) && Grows(s, s') && d in s'.demuxes
    requires d in s.demuxes ==> DemuxOk(s, d)
    requires d in s.callers ==> CallerOk(s, d)
    ensures DemuxOk(s', d)
  {
  }

  lemma CallerStepKept(s: State, s': State, e: Step)
    requires CallStep(s, s', e) && Grows(s, s')
    requires forall r | r in s.callers :: CallerOk(s, r)
    requires forall d | d in s.demuxes :: DemuxOk(s, d)
    requires forall i, id | 0 <= i < |s.stages| && id in s.stages[i].table ::
               s.stages[i].table[id] in s.demuxes && s.demuxes[s.stages[i].table[id]].stage == i
               && s.demuxes[s.stages[i].table[id]].id == id
    ensures forall r | r in s'.callers :: CallerOk(s', r)
    ensures forall d | d in s'.demuxes :: DemuxOk(s', d)
  {
    forall r | r in s'.callers ensures CallerOk(s', r) {
      if e.CallLoad? {
        assert CallerOk(s, e.caller);
        hide DemuxOk;
        LoadKept(s, s', e.caller, r);
      } else if e.CallRegister? {
        hide CallerOk, DemuxOk;
        RegisterKept(s, s', e.caller, r);
      } else {
        hide CallStep, CallerOk, DemuxOk;
        OtherCallKept(s, s', e, r);
      }
    }
    hide CallStep, CallerOk, DemuxOk;
    forall d | d in s'.demuxes ensures DemuxOk(s', d) {
      DemuxStepKept(s, s', e, d);
    }
  }

  lemma CallKeeps(filters: seq<Filter>, s: State, s': State, e: Step)
    requires Inv(filters, s) && CallStep(s, s', e)
    ensures Inv(filters, s') && Grows(s, s')
  {
    hide Route, HandOk, CallerOk, DemuxOk;
    CallStepFrame(s, s', e);
    hide CallStep;
    forall i | 0 <= i < |s'.stages| ensures StageOk(filters, s', i) {
      TablesKept(filters, s, s', e, i);
    }
    forall i, id | 0 <= i < |s.stages| && id in s.stages[i].table
      ensures s.stages[i].table[id] in s.demuxes && s.demuxes[s.stages[i].table[id]].stage == i
              && s.demuxes[s.stages[i].table[id]].id == id
    {
      assert StageOk(filters, s, i);
    }
    CallerStepKept(s, s', e);
  }

  lemma NextKeeps(filters: seq<Filter>, s: State, s': State, e: Step)
    requires Inv(filters, s) && Next(filters, s, s', e)
    ensures Inv(filters, s') && Grows(s, s')
  {
    hide Inv, Grows, ReaderStep, StageStep, CallStep;
    if ReaderStep(filters, s, s', e) {
      ReaderKeeps(filters, s, s', e);
    } else if StageStep(s, s', e) {
      StageKeeps(filters, s, s', e);
    } else {
      CallKeeps(filters, s, s', e);
    }
  }

  lemma {:induction false} RunKeeps(filters: seq<Filter>, run: seq<State>, steps: seq<Step>, i: nat)
    requires IsRun(filters, run, steps) && i < |run|
    ensures Inv(filters, run[i])
  {
    hide Next;
    if i > 0 {
      hide Inv;
      RunKeeps(filters, run, steps, i - 1);
      NextKeeps(filters, run[i - 1], run[i], steps[i - 1]);
    }
  }
}

/** What becomes of calls in every run of the stream multiplexer: registration, sharing, failure. */
module StreamDemuxCalls {
  import opened Basics
  import opened Filters
  import opened StreamDemux
  import opened StreamDemuxProofs
  import opened StreamDemuxTheorems

  // ---- failed calls are forgotten ----

  /** The caller is registered under its own id only while it sends or waits for its own demultiplexer. */
  ghost predicate OwnEntryOk(s: State, r: nat)
    requires r in s.callers
  {
    var c := s.callers[r];
    c.stage < |s.stages| && c.id in s.stages[c.stage].table && s.stages[c.stage].table[c.id] == r ==>
      c.pc.Sending? || c.pc == Receiving(r)
  }

  lemma StageLeavesEntries(s: State, s': State, e: Step, r: nat)
    requires StageStep(s, s', e) && r in s.callers && OwnEntryOk(s, r)
    ensures r in s'.callers && OwnEntryOk(s', r)
  {
    StageStepFrame(s, s', e);
    hide StageStep;
  }

  lemma CallKeepsEntry(s: State, s': State, e: Step, r: nat)
    requires CallStep(s, s', e) && r in s'.callers && (r in s.callers ==> OwnEntryOk(s, r) && CallerOk(s, r))
    requires r !in s.callers ==> forall i, id | 0 <= i < |s.stages| && id in s.stages[i].table ::
               s.stages[i].table[id] != r
    ensures OwnEntryOk(s', r)
  {
  }

  lemma EntryKept(filters: seq<Filter>, s: State, s': State, e: Step, r: nat)
    requires Inv(filters, s) && Next(filters, s, s', e) && r in s'.callers && (r in s.callers ==> OwnEntryOk(s, r))
    ensures OwnEntryOk(s', r)
  {
    hide StageStep, CallStep, Inv, OwnEntryOk;
    if ReaderStep(filters, s, s', e) {
      ReaderLeavesEntries(filters, s, s', e, r);
    } else if StageStep(s, s', e) {
      StageStepFrame(s, s', e);
      StageLeavesEntries(s, s', e, r);
    } else {
      RegisteredAreCallers(filters, s, r);
      CallKeepsEntry(s, s', e, r);
    }
  }

  lemma ReaderLeavesEntries(filters: seq<Filter>, s: State, s': State, e: Step, r: nat)
    requires ReaderStep(filters, s, s', e) && r in s.callers && OwnEntryOk(s, r)
    ensures r in s'.callers && OwnEntryOk(s', r)
  {
    hide Route;
    assert s'.callers == s.callers && |s'.stages| == |s.stages|;
    var i := s.callers[r].stage;
    assert i < |s.stages| ==> s'.stages[i].table == s.stages[i].table;
  }

  lemma RegisteredAreCallers(filters: seq<Filter>, s: State, r: nat)
    requires Inv(filters, s)
    ensures r in s.callers ==> CallerOk(s, r)
    ensures forall i, id | 0 <= i < |s.stages| && id in s.stages[i].table && s.stages[i].table[id] == r ::
              r in s.callers && s.callers[r].stage == i && s.callers[r].id == id
  {
    hide HandOk, CallerOk, Route;
    forall i, id | 0 <= i < |s.stages| && id in s.stages[i].table && s.stages[i].table[id] == r
      ensures r in s.callers && s.callers[r].stage == i && s.callers[r].id == id
    {
      assert StageOk(filters, s, i);
      assert DemuxOk(s, r);
    }
  }

  lemma {:induction false} RunEntries(filters: seq<Filter>, run: seq<State>, steps: seq<Step>, i: nat, r: nat)
    requires IsRun(filters, run, steps) && i < |run| && r in run[i].callers
    ensures OwnEntryOk(run[i], r)
  {
    hide Next;
    if i > 0 {
      hide Inv, OwnEntryOk;
      if r in run[i - 1].callers {
        RunEntries(filters, run, steps, i - 1, r);
      }
      RunKeeps(filters, run, steps, i - 1);
      EntryKept(filters, run[i - 1], run[i], steps[i - 1], r);
    }
  }

  /** In every state of every run, no stage has a call registered that has failed: whoever is registered is
      a caller of that stage with that id, and still sends or receives. */
  lemma FailedCallsAreForgotten(filters: seq<Filter>, run: seq<State>, steps: seq<Step>, n: nat, i: nat, id: string)
    requires IsRun(filters, run, steps) && n < |run| && i < |run[n].stages| && id in run[n].stages[i].table
    ensures var r := run[n].stages[i].table[id];
            && r in run[n].callers && run[n].callers[r].stage == i && run[n].callers[r].id == id
            && (run[n].callers[r].pc.Sending? || run[n].callers[r].pc == Receiving(r))
  {
    hide IsRun;
    RunKeeps(filters, run, steps, n);
    hide Inv;
    var r := run[n].stages[i].table[id];
    RegisteredAreCallers(filters, run[n], r);
    RunEntries(filters, run, steps, n, r);
  }

  /** A stage that meets a cancelled demultiplexer is done with it only once the id is no longer registered,
      unless the packet still found room in its channel. */
  lemma CancelledAreForgotten(filters: seq<Filter>, run: seq<State>, steps: seq<Step>, n: nat, i: nat)
    requires IsRun(filters, run, steps) && n + 1 < |run| && i < |run[n].stages| == |run[n + 1].stages|
    requires run[n].stages[i].pc.Loaded? || run[n].stages[i].pc.Accepting?
    requires run[n].stages[i].pc.demux in run[n].demuxes && run[n].demuxes[run[n].stages[i].pc.demux].cancelled
    requires run[n + 1].stages[i].pc.Waiting?
    ensures steps[n] == StagePut(i) || run[n].stages[i].pc.packet.buildId !in run[n + 1].stages[i].table
  {
    RunKeeps(filters, run, steps, n);
    var s, s', e := run[n], run[n + 1], steps[n];
    assert Next(filters, s, s', e);
    hide IsRun, Route, CallerOk, DemuxOk;
    assert StageOk(filters, s, i);
    if CallStep(s, s', e) {
      CallLeavesPc(s, s', e, i);
    } else if ReaderStep(filters, s, s', e) {
      ReaderLeavesPc(filters, s, s', e, i);
    }
  }

  lemma CallLeavesPc(s: State, s': State, e: Step, i: nat)
    requires CallStep(s, s', e) && i < |s.stages| == |s'.stages|
    ensures s'.stages[i].pc == s.stages[i].pc
  {
  }

  lemma ReaderLeavesPc(filters: seq<Filter>, s: State, s': State, e: Step, i: nat)
    requires ReaderStep(filters, s, s', e) && i < |s.stages| == |s'.stages|
    ensures s'.stages[i].pc == s.stages[i].pc
  {
    hide Route;
  }

  // ---- callers of one id share its handler ----

  /** The caller waits for the handler of another, and has made none itself. */
  ghost predicate Shares(s: State, q: nat, d: nat) {
    && q in s.callers && q !in s.demuxes && (s.callers[q].pc == Receiving(d) || s.callers[q].pc.CallFailed?)
  }

  lemma SharesOn(filters: seq<Filter>, s: State, s': State, e: Step, q: nat, d: nat)
    requires Inv(filters, s) && Next(filters, s, s', e) && Shares(s, q, d)
    ensures Shares(s', q, d)
  {
    hide Route, StageOk, DemuxOk, CallerOk, StageStep, CallStep;
    if StageStep(s, s', e) {
      StageStepFrame(s, s', e);
    } else if CallStep(s, s', e) {
      CallSharesOn(s, s', e, q, d);
    }
  }

  lemma CallSharesOn(s: State, s': State, e: Step, q: nat, d: nat)
    requires CallStep(s, s', e) && Shares(s, q, d)
    ensures Shares(s', q, d)
  {
  }

  lemma LoadShares(s: State, s': State, q: nat)
    requires CallStep(s, s', CallLoad(q)) && CallerOk(s, q)
    requires s.callers[q].id in s.stages[s.callers[q].stage].table
    ensures Shares(s', q, s.stages[s.callers[q].stage].table[s.callers[q].id])
  {
  }

  lemma {:induction false} ShareRun(filters: seq<Filter>, run: seq<State>, steps: seq<Step>, n: nat, m: nat, q: nat,
      d: nat)
    requires IsRun(filters, run, steps) && n <= m < |run| && Shares(run[n], q, d)
    ensures Shares(run[m], q, d)
    decreases m
  {
    hide Next, Inv, Shares;
    if n < m {
      RunKeeps(filters, run, steps, m - 1);
      ShareRun(filters, run, steps, n, m - 1, q, d);
      SharesOn(filters, run[m - 1], run[m], steps[m - 1], q, d);
    }
  }

  lemma SharersSendNothing(filters: seq<Filter>, run: seq<State>, steps: seq<Step>, m: nat, q: nat, d: nat,
      message: Message)
    requires IsRun(filters, run, steps) && m < |run| && Shares(run[m], q, d) && OnItsWay(run[m], message)
    ensures message.caller != q
  {
    hide IsRun, OnItsWay;
    RunMessages(filters, run, steps, m, message);
  }

  /** A caller that finds its id registered receives from that handler, or fails, for the rest of the run: it
      never registers and never sends. */
  lemma LateCallersShare(filters: seq<Filter>, run: seq<State>, steps: seq<Step>, n: nat, m: nat, q: nat)
    requires IsRun(filters, run, steps) && n < m < |run| && steps[n] == CallLoad(q)
    requires q in run[n].callers && run[n].callers[q].stage < |run[n].stages|
    requires run[n].callers[q].id in run[n].stages[run[n].callers[q].stage].table
    ensures Shares(run[m], q, run[n].stages[run[n].callers[q].stage].table[run[n].callers[q].id])
    ensures forall message | OnItsWay(run[m], message) :: message.caller != q
  {
    var d := run[n].stages[run[n].callers[q].stage].table[run[n].callers[q].id];
    hide Inv, Next, Shares, OnItsWay;
    RunKeeps(filters, run, steps, n);
    LoadKnown(filters, run[n], run[n + 1], q);
    ShareRun(filters, run, steps, n + 1, m, q, d);
    forall message | OnItsWay(run[m], message) ensures message.caller != q {
      SharersSendNothing(filters, run, steps, m, q, d, message);
    }
  }

  lemma LoadKnown(filters: seq<Filter>, s: State, s': State, q: nat)
    requires Inv(filters, s) && Next(filters, s, s', CallLoad(q)) && q in s.callers
    requires s.callers[q].stage < |s.stages| && s.callers[q].id in s.stages[s.callers[q].stage].table
    ensures Shares(s', q, s.stages[s.callers[q].stage].table[s.callers[q].id])
  {
    hide Next, StageOk, DemuxOk, Route;
    LoadOnly(filters, s, s', q);
    assert CallerOk(s, q);
    LoadShares(s, s', q);
  }

  lemma LoadOnly(filters: seq<Filter>, s: State, s': State, q: nat)
    requires Next(filters, s, s', CallLoad(q))
    ensures CallStep(s, s', CallLoad(q))
  {
    hide Route;
  }

  /** Once the reader has stopped, so has the pipeline. */
  lemma {:induction false} ReaderStopsThePipeline(filters: seq<Filter>, run: seq<State>, steps: seq<Step>, n: nat)
    requires IsRun(filters, run, steps) && n < |run| && run[n].reader.ReaderDone?
    ensures run[n].stopped
  {
    if n > 0 {
      assert Next(filters, run[n - 1], run[n], steps[n - 1]);
      RunKeeps(filters, run, steps, n - 1);
      var s, s', e := run[n - 1], run[n], steps[n - 1];
      if s.reader.ReaderDone? {
        ReaderStopsThePipeline(filters, run, steps, n - 1);
      }
      hide IsRun, Route, StageOk, DemuxOk, CallerOk, StageStep, CallStep;
      if StageStep(s, s', e) {
        StageStepFrame(s, s', e);
      } else if CallStep(s, s', e) {
        CallStepFrame(s, s', e);
      }
    }
  }
}

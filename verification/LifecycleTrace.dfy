/** What a bridge publishes, and why waiting for its worker ends. */
module LifecycleTrace {
  import opened Basics
  import opened SpiTransaction
  import opened Lifecycle
  import opened LifecycleSafety

  // ---- the trace of one runtime -----------------------------------------------------------------

  /** The index after `i` in a list of `m`, going round. */
  function Next(i: nat, m: nat): nat {
    if i + 1 >= m then 0 else i + 1
  }

  /** Where the next execution comes. */
  function NextIndex(txns: seq<Txn>, execs: seq<Exec>): nat {
    if execs == [] then 0 else Next(execs[|execs| - 1].index, |txns|)
  }

  /** The executions went through the list from first to last, over and over. */
  predicate InOrder(txns: seq<Txn>, execs: seq<Exec>) {
    execs == [] ||
    (var n := |execs| - 1;
      InOrder(txns, execs[..n]) && execs[n].index == NextIndex(txns, execs[..n]) && execs[n].index < |txns|)
  }

  function Outcome(txns: seq<Txn>, e: Exec): Option<seq<byte>> {
    if e.index < |txns| then Delivered(txns[e.index], e.io) else None
  }

  /** The buffers that the executions handed to the callback. */
  function DeliveredBy(txns: seq<Txn>, execs: seq<Exec>): seq<seq<byte>> {
    if execs == [] then []
    else DeliveredBy(txns, execs[..|execs| - 1]) + Optional(Outcome(txns, execs[|execs| - 1]))
  }

  function Payloads(calls: seq<Call>): seq<seq<byte>> {
    seq(|calls|, k requires 0 <= k < |calls| => calls[k].payload)
  }

  /** The index the executor of `sp` comes to next: the worker's, else the initial pass's. */
  function At(s: State, sp: nat): nat {
    if sp in s.workers then
      (match s.workers[sp] case RunTxn(i) => i case OnRx(i, _) => i + 1 case _ => 0)
    else if SourceReady(s, s.count) && SourceOf(s, s.count) == sp then
      (match s.pc case InitTxn(_, k) => k case InitRx(_, k, _) => k + 1 case _ => 0)
    else 0
  }

  /** The buffer that was read but whose callback has not returned yet. */
  function Pending(s: State, sp: nat): seq<seq<byte>> {
    if sp in s.workers then
      (match s.workers[sp] case OnRx(_, payload) => [payload] case _ => [])
    else if SourceReady(s, s.count) && SourceOf(s, s.count) == sp then
      (match s.pc case InitRx(_, _, payload) => [payload] case _ => [])
    else []
  }

  /** The callbacks of a runtime, in order, carried exactly what its executions delivered. */
  predicate Traced(spi: Spi, at: nat, pending: seq<seq<byte>>) {
    && InOrder(spi.transactions, spi.execs)
    && at <= |spi.transactions|
    && NextIndex(spi.transactions, spi.execs) == (if at == |spi.transactions| then 0 else at)
    && Payloads(spi.calls) + pending == DeliveredBy(spi.transactions, spi.execs)
  }

  /** No message was refused by the sender, and every one went out under the prefix. */
  predicate WellSent(calls: seq<Call>) {
    forall k :: 0 <= k < |calls| ==> calls[k].Dropped? || (calls[k].Sent? && calls[k].topic == PREFIX)
  }

  predicate TraceOk(s: State) {
    forall sp :: sp in s.heap.spis && s.heap.spis[sp].user.Some? ==>
      Traced(s.heap.spis[sp], At(s, sp), Pending(s, sp)) && WellSent(s.heap.spis[sp].calls)
  }

  /** One more execution, of the transaction that is next. */
  lemma TracedExec(spi: Spi, at: nat, io: Io)
    requires Traced(spi, at, []) && at < |spi.transactions|
    ensures var spi' := spi.(execs := spi.execs + [Exec(at, io)]);
      Traced(spi', at + 1, Optional(Delivered(spi.transactions[at], io)))
  {
    var e := Exec(at, io);
    InOrderNext(spi.transactions, spi.execs, e);
    DeliveredByNext(spi.transactions, spi.execs, e);
    NothingPending(Payloads(spi.calls));
  }

  lemma InOrderNext(txns: seq<Txn>, execs: seq<Exec>, e: Exec)
    requires InOrder(txns, execs) && e.index == NextIndex(txns, execs) < |txns|
    ensures InOrder(txns, execs + [e]) && NextIndex(txns, execs + [e]) == Next(e.index, |txns|)
  {
    var all := execs + [e];
    assert all[..|all| - 1] == execs;
  }

  lemma NothingPending(payloads: seq<seq<byte>>)
    ensures payloads + [] == payloads
  {
  }

  /** The callback for the buffer that was read. */
  lemma TracedCall(spi: Spi, at: nat, call: Call)
    requires Traced(spi, at, [call.payload])
    ensures Traced(spi.(calls := spi.calls + [call]), at, [])
  {
    assert Payloads(spi.calls + [call]) == Payloads(spi.calls) + [call.payload];
    assert Payloads(spi.calls + [call]) + [] == Payloads(spi.calls + [call]);
  }

  lemma CallbackIsSent(s: State, sp: nat, payload: seq<byte>, net: Net)
    requires CallbackSafe(s, sp)
    requires var slot := s.slots[s.heap.spis[sp].user.value.index]; slot.transform && slot.topicPrefix == PREFIX
    requires WellSent(s.heap.spis[sp].calls)
    ensures var spi' := RecordCall(s, sp, payload, net).heap.spis[sp];
      && WellSent(spi'.calls) && |spi'.calls| == |s.heap.spis[sp].calls| + 1
      && spi'.calls[|spi'.calls| - 1].payload == payload
      && spi' == s.heap.spis[sp].(calls := s.heap.spis[sp].calls + [spi'.calls[|spi'.calls| - 1]])
  {
  }

  // ---- every step keeps the trace ---------------------------------------------------------------

  /** Runtimes other than `sp` look the same to their executors. */
  predicate SameElsewhere(s: State, s': State, sp: nat) {
    forall x :: x in s'.heap.spis && x != sp && s'.heap.spis[x].user.Some? ==>
      && x in s.heap.spis && s.heap.spis[x].user.Some?
      && s'.heap.spis[x].transactions == s.heap.spis[x].transactions
      && s'.heap.spis[x].execs == s.heap.spis[x].execs && s'.heap.spis[x].calls == s.heap.spis[x].calls
      && At(s', x) == At(s, x) && Pending(s', x) == Pending(s, x)
  }

  /** A step on runtime `sp`: of its worker, or of the main thread while `sp` is in the slot it builds. */
  predicate StepOn(s: State, s': State, sp: nat) {
    && s'.slots == s.slots && s'.count == s.count && s'.config == s.config
    && sp in s'.heap.spis && s'.heap.spis == s.heap.spis[sp := s'.heap.spis[sp]]
    && (s'.workers == s.workers || (sp in s'.workers && s'.workers == s.workers[sp := s'.workers[sp]]))
    && (s'.pc == s.pc || (SourceReady(s, s.count) && SourceOf(s, s.count) == sp))
  }

  lemma StepOnIsLocal(s: State, s': State, sp: nat)
    requires StepOn(s, s', sp)
    ensures SameElsewhere(s, s', sp)
  {
  }

  lemma TraceFrame(s: State, s': State, sp: nat)
    requires TraceOk(s) && SameElsewhere(s, s', sp)
    requires sp in s'.heap.spis && s'.heap.spis[sp].user.Some? ==>
      Traced(s'.heap.spis[sp], At(s', sp), Pending(s', sp)) && WellSent(s'.heap.spis[sp].calls)
    ensures TraceOk(s')
  {
    forall x | x in s'.heap.spis && s'.heap.spis[x].user.Some?
      ensures Traced(s'.heap.spis[x], At(s', x), Pending(s', x)) && WellSent(s'.heap.spis[x].calls)
    {
      if x != sp {
        assert Traced(s.heap.spis[x], At(s, x), Pending(s, x));
      }
    }
  }

  lemma ExecTrace(s: State, s': State, sp: nat, at: nat, io: Io)
    requires TraceOk(s) && sp in s.heap.spis && s.heap.spis[sp].user.Some?
    requires At(s, sp) == at < |s.heap.spis[sp].transactions| && Pending(s, sp) == []
    requires s'.heap.spis == RecordExec(s, sp, at, io).heap.spis && StepOn(s, s', sp)
    requires At(s', sp) == at + 1 && Pending(s', sp) == Optional(Delivered(s.heap.spis[sp].transactions[at], io))
    ensures TraceOk(s')
  {
    TracedExec(s.heap.spis[sp], at, io);
    StepOnIsLocal(s, s', sp);
    TraceFrame(s, s', sp);
  }

  lemma CallTrace(s: State, s': State, sp: nat, payload: seq<byte>, net: Net)
    requires TraceOk(s) && CallbackSafe(s, sp)
    requires var slot := s.slots[s.heap.spis[sp].user.value.index]; slot.transform && slot.topicPrefix == PREFIX
    requires Pending(s, sp) == [payload]
    requires s'.heap.spis == RecordCall(s, sp, payload, net).heap.spis && StepOn(s, s', sp)
    requires At(s', sp) == At(s, sp) && Pending(s', sp) == []
    ensures TraceOk(s')
  {
    CallbackIsSent(s, sp, payload, net);
    var spi' := s'.heap.spis[sp];
    TracedCall(s.heap.spis[sp], At(s, sp), spi'.calls[|spi'.calls| - 1]);
    StepOnIsLocal(s, s', sp);
    TraceFrame(s, s', sp);
  }

  /** A step that leaves the histories alone and moves no executor, save that one may go from the end of
      a pass to the start of the next. */
  lemma MoveTrace(s: State, s': State, sp: nat)
    requires TraceOk(s) && SameElsewhere(s, s', sp)
    requires sp in s'.heap.spis && s'.heap.spis[sp].user.Some? ==>
      && sp in s.heap.spis && s.heap.spis[sp].user.Some?
      && s'.heap.spis[sp].transactions == s.heap.spis[sp].transactions
      && s'.heap.spis[sp].execs == s.heap.spis[sp].execs && s'.heap.spis[sp].calls == s.heap.spis[sp].calls
      && Pending(s', sp) == Pending(s, sp)
      && (At(s', sp) == At(s, sp) || (At(s', sp) == 0 && At(s, sp) == |s.heap.spis[sp].transactions|))
    ensures TraceOk(s')
  {
    TraceFrame(s, s', sp);
  }

  // ---- the two executors ------------------------------------------------------------------------

  lemma InitTxnTrace(s: State, s': State, sp: nat, i: nat, k: nat, e: Env)
    requires TraceOk(s) && s.pc == InitTxn(i, k) && SourceReady(s, s.count) && SourceOf(s, s.count) == sp
    requires sp !in s.workers && s.heap.spis[sp].user.Some? && InitTxnStep(s, i, k, e) == Some(s')
    ensures TraceOk(s')
  {
    assert Traced(s.heap.spis[sp], At(s, sp), Pending(s, sp));
    if k < |s.heap.spis[sp].transactions| {
      ExecTrace(s, s', sp, k, e.io);
    } else {
      StepOnIsLocal(s, s', sp);
      MoveTrace(s, s', sp);
    }
  }

  lemma InitRxTrace(s: State, s': State, sp: nat, i: nat, k: nat, payload: seq<byte>, e: Env)
    requires TraceOk(s) && s.pc == InitRx(i, k, payload) && SourceReady(s, s.count) && SourceOf(s, s.count) == sp
    requires sp !in s.workers && s.heap.spis[sp].user == Some(SlotRef(s.arrays, s.count))
    requires s.slots[s.count].transform && s.slots[s.count].topicPrefix == PREFIX
    requires InitRxStep(s, i, k, payload, e) == Some(s')
    ensures TraceOk(s')
  {
    CallTrace(s, s', sp, payload, e.net);
  }

  lemma WorkTxnTrace(s: State, s': State, sp: nat, i: nat, io: Io)
    requires TraceOk(s) && sp in s.workers && s.workers[sp] == RunTxn(i)
    requires sp in s.heap.spis && s.heap.spis[sp].user.Some? && s' == WorkerTxnStep(s, sp, i, io)
    ensures TraceOk(s')
  {
    assert Traced(s.heap.spis[sp], At(s, sp), Pending(s, sp));
    if i < |s.heap.spis[sp].transactions| {
      ExecTrace(s, s', sp, i, io);
    } else {
      StepOnIsLocal(s, s', sp);
      MoveTrace(s, s', sp);
    }
  }

  lemma WorkRxTrace(s: State, s': State, sp: nat, i: nat, payload: seq<byte>, net: Net)
    requires TraceOk(s) && sp in s.workers && s.workers[sp] == OnRx(i, payload) && CallbackSafe(s, sp)
    requires var slot := s.slots[s.heap.spis[sp].user.value.index]; slot.transform && slot.topicPrefix == PREFIX
    requires s' == SetPc(RecordCall(s, sp, payload, net), sp, RunTxn(i + 1))
    ensures TraceOk(s')
  {
    CallTrace(s, s', sp, payload, net);
  }

  // ---- every other step -------------------------------------------------------------------------

  predicate Between(pc: Pc) {
    !pc.InitRx? && (pc.InitTxn? ==> pc.k == 0)
  }

  /** A main-thread step outside the initial pass that touches at most the runtime `sp` and its worker. */
  lemma RuntimeTrace(s: State, s': State, sp: nat)
    requires TraceOk(s) && Between(s.pc) && Between(s'.pc)
    requires forall x :: x in s'.heap.spis && x != sp ==> x in s.heap.spis && s'.heap.spis[x] == s.heap.spis[x]
    requires forall x :: x in s'.workers && x != sp ==> x in s.workers && s'.workers[x] == s.workers[x]
    requires forall x :: x in s.workers && x != sp ==> x in s'.workers
    requires sp in s'.heap.spis && s'.heap.spis[sp].user.Some? ==>
      Traced(s'.heap.spis[sp], At(s', sp), Pending(s', sp)) && WellSent(s'.heap.spis[sp].calls)
    ensures TraceOk(s')
  {
    assert SameElsewhere(s, s', sp);
    TraceFrame(s, s', sp);
  }

  /** The runtime `sp` keeps its history, its worker gone or at rest before and after. */
  lemma KeptTrace(s: State, s': State, sp: nat)
    requires TraceOk(s) && sp in s.heap.spis && sp in s'.heap.spis
    requires s'.heap.spis[sp].user == s.heap.spis[sp].user
             && s'.heap.spis[sp].transactions == s.heap.spis[sp].transactions
    requires s'.heap.spis[sp].execs == s.heap.spis[sp].execs && s'.heap.spis[sp].calls == s.heap.spis[sp].calls
    requires At(s', sp) == At(s, sp) && Pending(s', sp) == Pending(s, sp)
    ensures s'.heap.spis[sp].user.Some? ==>
      Traced(s'.heap.spis[sp], At(s', sp), Pending(s', sp)) && WellSent(s'.heap.spis[sp].calls)
  {
    assert s.heap.spis[sp].user.Some? ==> Traced(s.heap.spis[sp], At(s, sp), Pending(s, sp));
  }

  lemma StartSourceTrace(s: State, s': State, i: nat, e: Env)
    requires TraceOk(s) && s.pc == StartSource(i) && SlotReady(s, s.count) && StartSourceStep(s, i, e) == Some(s')
    requires (IsSpi(s.slots[s.count].from) && s.slots[s.count].source.Some?) ==>
      s.slots[s.count].source.value !in s.workers
    ensures TraceOk(s')
  {
    StartSourceForm(s, s', i, e);
    if s'.heap == s.heap {
      SameHeapTrace(s, s');
    } else {
      RuntimeTrace(s, s', s.slots[s.count].source.value);
    }
  }

  /** Opening a source touches nothing, or gives one runtime an empty history. */
  lemma StartSourceForm(s: State, s': State, i: nat, e: Env)
    requires s.pc == StartSource(i) && SlotReady(s, s.count) && StartSourceStep(s, i, e) == Some(s')
    ensures Between(s.pc) && Between(s'.pc) && s'.workers == s.workers && s'.slots == s.slots && s'.count == s.count
    ensures s'.heap == s.heap ||
      (IsSpi(s.slots[s.count].from) && s.slots[s.count].source.Some? &&
       var sp := s.slots[s.count].source.value;
       && sp in s'.heap.spis && s'.heap.spis == s.heap.spis[sp := s'.heap.spis[sp]]
       && s'.heap.spis[sp].execs == [] && s'.heap.spis[sp].calls == [])
  {
  }

  lemma StartPollingTrace(s: State, s': State, i: nat, e: Env)
    requires TraceOk(s) && s.pc == StartPolling(i) && SourceReady(s, s.count) && SourceOf(s, s.count) !in s.workers
    requires !s.heap.spis[SourceOf(s, s.count)].polling && StartPollingStep(s, i, e) == Some(s')
    ensures TraceOk(s')
  {
    KeptTrace(s, s', SourceOf(s, s.count));
    RuntimeTrace(s, s', SourceOf(s, s.count));
  }

  lemma StopSourceTrace(s: State, s': State, j: nat, again: bool)
    requires TraceOk(s) && s.pc == StopSource(j, again) && StopSourceStep(s, j, again) == Some(s')
    ensures TraceOk(s')
  {
    StopSourceForm(s, s', j, again);
    if s'.pc.Join? {
      RaiseStopTrace(s, s', j, s.slots[j].source.value);
    } else {
      SameHeapTrace(s, s');
    }
  }

  lemma StopSourceForm(s: State, s': State, j: nat, again: bool)
    requires s.pc == StopSource(j, again) && StopSourceStep(s, j, again) == Some(s')
    ensures Between(s.pc) && Between(s'.pc) && s'.workers == s.workers
    ensures if s'.pc.Join? then
        j < |s.slots| && s.slots[j].source.Some? && s.slots[j].source.value in s.heap.spis &&
        var sp := s.slots[j].source.value;
        s' == Goto(SetSpi(s, sp, s.heap.spis[sp].(stopFlag := true)), s'.pc)
      else s'.heap == s.heap
  {
  }

  lemma RaiseStopTrace(s: State, s': State, j: nat, sp: nat)
    requires TraceOk(s) && Between(s.pc) && Between(s'.pc) && sp in s.heap.spis
    requires s' == Goto(SetSpi(s, sp, s.heap.spis[sp].(stopFlag := true)), s'.pc)
    ensures TraceOk(s')
  {
    KeptTrace(s, s', sp);
    RuntimeTrace(s, s', sp);
  }

  lemma JoinTrace(s: State, s': State, j: nat, again: bool)
    requires TraceOk(s) && s.pc == Join(j, again) && SourceReady(s, j) && JoinStep(s, j, again) == Some(s')
    ensures TraceOk(s')
  {
    KeptTrace(s, s', SourceOf(s, j));
    RuntimeTrace(s, s', SourceOf(s, j));
  }

  lemma SameHeapTrace(s: State, s': State)
    requires TraceOk(s) && Between(s.pc) && Between(s'.pc)
    requires s'.workers == s.workers
    requires forall x :: x in s'.heap.spis ==>
      (x in s.heap.spis && s'.heap.spis[x] == s.heap.spis[x]) || s'.heap.spis[x].user.None?
    ensures TraceOk(s')
  {
    forall x | x in s'.heap.spis && s'.heap.spis[x].user.Some?
      ensures Traced(s'.heap.spis[x], At(s', x), Pending(s', x)) && WellSent(s'.heap.spis[x].calls)
    {
      assert Traced(s.heap.spis[x], At(s, x), Pending(s, x));
    }
  }

  /** What the invariant says about the runtime in the slot under construction. */
  lemma UnderConstruction(s: State)
    requires Inv(s) && Progress(s.pc) >= 4 && SlotReady(s, s.count) && s.slots[s.count].source.Some?
    ensures IsSpi(s.slots[s.count].from) ==> s.slots[s.count].source.value !in s.workers
    ensures Progress(s.pc) == 5 ==>
      && IsSpi(s.slots[s.count].from) && SourceReady(s, s.count)
      && s.heap.spis[SourceOf(s, s.count)].user == Some(SlotRef(s.arrays, s.count))
      && !s.heap.spis[SourceOf(s, s.count)].polling
      && s.slots[s.count].transform && s.slots[s.count].topicPrefix == PREFIX
  {
    var sp := s.slots[s.count].source.value;
    assert sp in s.workers ==> AtHome(s, sp);
    assert BuildSlot(s.heap, s.slots[s.count], SlotRef(s.arrays, s.count), Progress(s.pc));
  }

  lemma StartingTrace(s: State, s': State, e: Env)
    requires Inv(s) && TraceOk(s) && StartIndex(s.pc).Some? && MainStep(s, e) == Some(s')
    ensures TraceOk(s')
  {
    if Progress(s.pc) < 4 {
      BuildingTrace(s, s', e);
    } else {
      assert SlotReady(s, s.count);
      if s.slots[s.count].source.Some? {
        UnderConstruction(s);
      }
      match s.pc
      case StartSource(i) => StartSourceTrace(s, s', i, e);
      case InitTxn(i, k) => InitTxnTrace(s, s', SourceOf(s, s.count), i, k, e);
      case InitRx(i, k, payload) => InitRxTrace(s, s', SourceOf(s, s.count), i, k, payload, e);
      case StartPolling(i) => StartPollingTrace(s, s', i, e);
      case _ =>
    }
  }

  lemma BuildingTrace(s: State, s': State, e: Env)
    requires TraceOk(s) && StartIndex(s.pc).Some? && Progress(s.pc) < 4 && MainStep(s, e) == Some(s')
    ensures TraceOk(s')
  {
    BuildingIsQuiet(s, s', e);
    SameHeapTrace(s, s');
  }

  lemma BuildingIsQuiet(s: State, s': State, e: Env)
    requires StartIndex(s.pc).Some? && Progress(s.pc) < 4 && MainStep(s, e) == Some(s')
    ensures s'.workers == s.workers && Between(s.pc) && Between(s'.pc)
    ensures s'.heap.spis == s.heap.spis || s'.heap.spis == s.heap.spis[s.next := ZERO_SPI]
  {
    if s.pc.Prepare? {
      LookingUpIsQuiet(s, s', e);
    } else if s.pc.AllocDest? {
      PreparingIsQuiet(s, s', e);
    } else if s.pc.StartDest? {
      ConnectingIsQuiet(s, s', e);
    }
  }

  lemma LookingUpIsQuiet(s: State, s': State, e: Env)
    requires s.pc.Prepare? && MainStep(s, e) == Some(s')
    ensures s'.workers == s.workers && Between(s.pc) && Between(s'.pc) && s'.heap.spis == s.heap.spis
  {
  }

  lemma ConnectingIsQuiet(s: State, s': State, e: Env)
    requires s.pc.StartDest? && MainStep(s, e) == Some(s')
    ensures s'.workers == s.workers && Between(s.pc) && Between(s'.pc) && s'.heap.spis == s.heap.spis
  {
  }

  lemma PreparingIsQuiet(s: State, s': State, e: Env)
    requires s.pc.AllocDest? && MainStep(s, e) == Some(s')
    ensures s'.workers == s.workers && Between(s.pc) && Between(s'.pc) && s'.heap.spis == s.heap.spis
  {
  }

  lemma StoppingTrace(s: State, s': State, e: Env)
    requires TraceOk(s) && StopIndex(s.pc).Some? && MainStep(s, e) == Some(s')
    ensures TraceOk(s')
  {
    if s.pc.StopSource? {
      StopSourceTrace(s, s', s.pc.j, s.pc.again);
    } else if s.pc.Join? {
      JoinTrace(s, s', s.pc.j, s.pc.again);
    } else {
      ReleasingTrace(s, s', e);
    }
  }

  lemma ReleasingTrace(s: State, s': State, e: Env)
    requires TraceOk(s) && StopIndex(s.pc).Some? && !s.pc.StopSource? && !s.pc.Join? && MainStep(s, e) == Some(s')
    ensures TraceOk(s')
  {
    ReleasingIsQuiet(s, s', e);
    SameHeapTrace(s, s');
  }

  lemma ReleasingIsQuiet(s: State, s': State, e: Env)
    requires StopIndex(s.pc).Some? && !s.pc.StopSource? && !s.pc.Join? && MainStep(s, e) == Some(s')
    ensures s'.workers == s.workers && Between(s.pc) && Between(s'.pc)
    ensures forall x :: x in s'.heap.spis ==>
      x in s.heap.spis && (s'.heap.spis[x] == s.heap.spis[x] || s'.heap.spis[x].user.None?)
  {
    if s.pc.StopDest? || s.pc.FreeDest? {
      DestIsQuiet(s, s', e);
    } else if s.pc.CloseSource? {
      ClosingIsQuiet(s, s', e);
    }
  }

  lemma ClosingIsQuiet(s: State, s': State, e: Env)
    requires s.pc.CloseSource? && MainStep(s, e) == Some(s')
    ensures s'.workers == s.workers && Between(s.pc) && Between(s'.pc)
    ensures forall x :: x in s'.heap.spis ==>
      x in s.heap.spis && (s'.heap.spis[x] == s.heap.spis[x] || s'.heap.spis[x].user.None?)
  {
  }

  lemma DestIsQuiet(s: State, s': State, e: Env)
    requires (s.pc.StopDest? || s.pc.FreeDest?) && MainStep(s, e) == Some(s')
    ensures s'.workers == s.workers && Between(s.pc) && Between(s'.pc) && s'.heap.spis == s.heap.spis
  {
  }

  lemma RestOfMainTrace(s: State, s': State, e: Env)
    requires TraceOk(s) && StartIndex(s.pc).None? && StopIndex(s.pc).None? && MainStep(s, e) == Some(s')
    ensures TraceOk(s')
  {
    RestIsQuiet(s, s', e);
    SameHeapTrace(s, s');
  }

  lemma RestIsQuiet(s: State, s': State, e: Env)
    requires StartIndex(s.pc).None? && StopIndex(s.pc).None? && MainStep(s, e) == Some(s')
    ensures s'.workers == s.workers && Between(s.pc) && Between(s'.pc) && s'.heap == s.heap
  {
    if s.pc.AllocArray? || s.pc.FreeArray? || s.pc.FreeConfig? {
      ArrayIsQuiet(s, s', e);
    }
  }

  lemma ArrayIsQuiet(s: State, s': State, e: Env)
    requires (s.pc.AllocArray? || s.pc.FreeArray? || s.pc.FreeConfig?) && MainStep(s, e) == Some(s')
    ensures s'.workers == s.workers && Between(s'.pc) && s'.heap == s.heap
  {
  }

  lemma {:induction false} RunTrace(s: State, s': State, es: seq<Event>)
    requires Inv(s) && TraceOk(s) && Run(s, es) == Some(s')
    ensures Inv(s') && TraceOk(s')
    decreases |es|
  {
    if es != [] {
      var s1 := Step(s, es[0]).value;
      StepKeeps(s, s1, es[0]);
      StepTrace(s, s1, es[0]);
      RunTrace(s1, s', es[1..]);
    }
  }

  lemma StepTrace(s: State, s': State, e: Event)
    requires Inv(s) && TraceOk(s) && Step(s, e) == Some(s')
    ensures TraceOk(s')
  {
    match e
    case SignalStop => SignalTrace(s, s');
    case SignalReload => SignalTrace(s, s');
    case Main(env) => MainTrace(s, s', env);
    case Work(sp, io, net) =>
      HomeFacts(s, sp);
      WorkTrace(s, s', sp, io, net);
  }

  lemma MainTrace(s: State, s': State, e: Env)
    requires Inv(s) && TraceOk(s) && MainStep(s, e) == Some(s')
    ensures TraceOk(s')
  {
    if StartIndex(s.pc).Some? {
      StartingTrace(s, s', e);
    } else if StopIndex(s.pc).Some? {
      StoppingTrace(s, s', e);
    } else {
      RestOfMainTrace(s, s', e);
    }
  }

  lemma SignalTrace(s: State, s': State)
    requires TraceOk(s) && s' == s.(stop := s'.stop, reload := s'.reload)
    ensures TraceOk(s')
  {
    assert forall x :: At(s', x) == At(s, x) && Pending(s', x) == Pending(s, x);
  }

  lemma WorkTrace(s: State, s': State, sp: nat, io: Io, net: Net)
    requires TraceOk(s) && sp in s.workers && WorkerStep(s, sp, io, net) == Some(s') && AtWork(s, sp)
    ensures TraceOk(s')
  {
    if s.workers[sp].RunTxn? {
      WorkTxnTrace(s, s', sp, s.workers[sp].i, io);
    } else if s.workers[sp].OnRx? {
      WorkRxTrace(s, s', sp, s.workers[sp].i, s.workers[sp].payload, net);
    } else {
      RestTrace(s, s', sp, s'.workers[sp]);
    }
  }

  /** The runtime `sp` calls back into a fully wired slot. */
  predicate AtWork(s: State, sp: nat) {
    && sp in s.heap.spis && SlotAlive(s, s.heap.spis[sp].user)
    && var slot := s.slots[s.heap.spis[sp].user.value.index]; slot.transform && slot.topicPrefix == PREFIX
  }

  lemma HomeFacts(s: State, sp: nat)
    requires Inv(s) && sp in s.workers
    ensures AtWork(s, sp)
  {
    assert AtHome(s, sp);
    var j := s.heap.spis[sp].user.value.index;
    assert Live(s.heap, s.slots[j], SlotRef(s.arrays, j), s.pc.Join? && s.pc.j == j);
  }

  /** A worker that tests the flag or wakes up stays between two passes. */
  lemma RestTrace(s: State, s': State, sp: nat, pc: WorkerPc)
    requires TraceOk(s) && sp in s.workers && (s.workers[sp].Test? || s.workers[sp].Sleep?)
    requires sp in s.heap.spis && s' == SetPc(s, sp, pc) && (pc == RunTxn(0) || pc.Exited? || pc.Test?)
    ensures TraceOk(s')
  {
    assert s'.heap.spis == s.heap.spis[sp := s'.heap.spis[sp]];
    StepOnIsLocal(s, s', sp);
    KeptTrace(s, s', sp);
    TraceFrame(s, s', sp);
  }

  // ---- what a bridge publishes ------------------------------------------------------------------

  lemma ReachableTrace(s: State)
    requires Reachable(s)
    ensures TraceOk(s)
  {
    var es :| Run(START, es) == Some(s);
    StartInv();
    assert TraceOk(START);
    RunTrace(START, s, es);
  }

  /** In every reachable state, for every opened SPI runtime: its executions (the initial pass of the main
      thread, then the worker's passes) went through the transaction list in order, round and round; its
      callbacks carried, byte for byte and in order, what the successful reading transactions delivered,
      at most the last one being still under way; and none was refused or sent under another topic. */
  lemma CallbacksFollowExecutions(s: State, sp: nat)
    requires Reachable(s) && sp in s.heap.spis && s.heap.spis[sp].user.Some?
    ensures var spi := s.heap.spis[sp];
      && InOrder(spi.transactions, spi.execs)
      && Payloads(spi.calls) + Pending(s, sp) == DeliveredBy(spi.transactions, spi.execs)
      && |Pending(s, sp)| <= 1
      && WellSent(spi.calls)
  {
    ReachableTrace(s);
    assert Traced(s.heap.spis[sp], At(s, sp), Pending(s, sp));
  }

  /** The payloads the broker accepted. */
  function Published(calls: seq<Call>): seq<seq<byte>> {
    if calls == [] then []
    else
      var last := calls[|calls| - 1];
      Published(calls[..|calls| - 1]) + (if last.Sent? && last.accepted then [last.payload] else [])
  }

  lemma {:induction false} PublishedAll(calls: seq<Call>)
    requires forall k :: 0 <= k < |calls| ==> calls[k].Sent? && calls[k].accepted
    ensures Published(calls) == Payloads(calls)
  {
    if calls != [] {
      PublishedAll(calls[..|calls| - 1]);
    }
  }

  /** While memory lasts and the broker accepts, what is published is what was read, except for a buffer
      whose callback is still under way. */
  lemma PublishesWhatWasRead(s: State, sp: nat)
    requires Reachable(s) && sp in s.heap.spis && s.heap.spis[sp].user.Some?
    requires forall c :: c in s.heap.spis[sp].calls ==> c.Sent? && c.accepted
    ensures InOrder(s.heap.spis[sp].transactions, s.heap.spis[sp].execs)
    ensures Published(s.heap.spis[sp].calls) + Pending(s, sp) ==
            DeliveredBy(s.heap.spis[sp].transactions, s.heap.spis[sp].execs)
  {
    CallbacksFollowExecutions(s, sp);
    PublishedAll(s.heap.spis[sp].calls);
  }

  function Ios(execs: seq<Exec>): seq<Io> {
    seq(|execs|, k requires 0 <= k < |execs| => execs[k].io)
  }

  /** The executions of one pass, as far as it has come: indices 0, 1, 2 and so on. */
  predicate IsPass(pass: seq<Exec>) {
    forall k :: 0 <= k < |pass| ==> pass[k].index == k
  }

  /** A history in order splits into one that ended at the end of a pass, and the pass since then. */
  lemma {:induction false} LastPass(txns: seq<Txn>, execs: seq<Exec>) returns (before: seq<Exec>, pass: seq<Exec>)
    requires InOrder(txns, execs) && execs != []
    ensures execs == before + pass && IsPass(pass) && InOrder(txns, before) && NextIndex(txns, before) == 0
    ensures 1 <= |pass| <= |txns| && execs[|execs| - 1].index + 1 == |pass|
  {
    var n := |execs| - 1;
    if execs[n].index == 0 {
      before, pass := execs[..n], execs[n..];
    } else {
      before, pass := LastPass(txns, execs[..n]);
      assert execs == before + (pass + [execs[n]]);
      pass := pass + [execs[n]];
    }
  }

  lemma DeliveredByNext(txns: seq<Txn>, execs: seq<Exec>, e: Exec)
    ensures DeliveredBy(txns, execs + [e]) == DeliveredBy(txns, execs) + Optional(Outcome(txns, e))
  {
    var all := execs + [e];
    assert all[..|all| - 1] == execs;
  }

  lemma PassDeliversNext(txns: seq<Txn>, pass: seq<Exec>, e: Exec)
    requires |pass| < |txns| && e.index == |pass|
    ensures PassDelivers(txns[..|pass| + 1], Ios(pass + [e])) ==
            PassDelivers(txns[..|pass|], Ios(pass)) + Optional(Delivered(txns[e.index], e.io))
  {
    var n := |pass|;
    assert txns[..n + 1][..n] == txns[..n] && Ios(pass + [e])[..n] == Ios(pass);
  }

  /** A pass after a history delivers what the list delivers up to there. */
  lemma {:induction false} PassAfter(txns: seq<Txn>, before: seq<Exec>, pass: seq<Exec>)
    requires IsPass(pass) && |pass| <= |txns|
    ensures DeliveredBy(txns, before + pass) == DeliveredBy(txns, before) + PassDelivers(txns[..|pass|], Ios(pass))
    decreases |pass|
  {
    if pass == [] {
      NoPass(txns, before, pass);
    } else {
      var n := |pass| - 1;
      PassAfter(txns, before, pass[..n]);
      PassGrows(txns, before, pass[..n], pass[n], pass);
    }
  }

  lemma NoPass(txns: seq<Txn>, before: seq<Exec>, pass: seq<Exec>)
    requires pass == []
    ensures DeliveredBy(txns, before + pass) == DeliveredBy(txns, before) + PassDelivers(txns[..|pass|], Ios(pass))
  {
    assert before + pass == before && DeliveredBy(txns, before) + [] == DeliveredBy(txns, before);
  }

  lemma PassGrows(txns: seq<Txn>, before: seq<Exec>, p: seq<Exec>, e: Exec, pass: seq<Exec>)
    requires |p| < |txns| && e.index == |p| && pass == p + [e]
    requires DeliveredBy(txns, before + p) == DeliveredBy(txns, before) + PassDelivers(txns[..|p|], Ios(p))
    ensures DeliveredBy(txns, before + pass) == DeliveredBy(txns, before) + PassDelivers(txns[..|pass|], Ios(pass))
  {
    ConcatAssoc(before, p, [e]);
    DeliveredByNext(txns, before + p, e);
    PassDeliversNext(txns, p, e);
    ConcatAssoc(DeliveredBy(txns, before), PassDelivers(txns[..|p|], Ios(p)), Optional(Delivered(txns[e.index], e.io)));
  }

  /** So a history that stands at the end of a pass is a shorter such history followed by one more pass
      over the whole list, and delivers just that: the initial pass first, then the later ones. */
  lemma HistoryIsPasses(txns: seq<Txn>, execs: seq<Exec>) returns (before: seq<Exec>, pass: seq<Exec>)
    requires InOrder(txns, execs) && execs != [] && NextIndex(txns, execs) == 0
    ensures execs == before + pass && |pass| == |txns| && InOrder(txns, before) && NextIndex(txns, before) == 0
    ensures DeliveredBy(txns, execs) == DeliveredBy(txns, before) + PassDelivers(txns, Ios(pass))
  {
    before, pass := LastPass(txns, execs);
    PassAfter(txns, before, pass);
    assert txns[..|pass|] == txns;
  }

  // ---- waiting for a worker ends ----------------------------------------------------------------

  /** Steps a worker with a raised stop flag still takes, for a list of `m` transactions. */
  function Rank(pc: WorkerPc, m: nat): nat {
    match pc
    case Exited => 0
    case Test => 1
    case Sleep => 2
    case RunTxn(i) => 3 + 2 * (if i < m then m - i else 0)
    case OnRx(i, _) => 4 + 2 * (if i + 1 < m then m - i - 1 else 0)
  }

  /** Transactions among them. */
  function TxnsLeft(pc: WorkerPc, m: nat): nat {
    match pc
    case RunTxn(i) => if i < m then m - i else 0
    case OnRx(i, _) => if i + 1 < m then m - i - 1 else 0
    case _ => 0
  }

  /** 1 when the event is a transaction run by the worker of `sp`. */
  function TxnStep(s: State, e: Event, sp: nat): nat {
    if e.Work? && e.spi == sp && sp in s.workers && sp in s.heap.spis && s.workers[sp].RunTxn?
       && s.workers[sp].i < |s.heap.spis[sp].transactions|
    then 1 else 0
  }

  function TxnSteps(s: State, es: seq<Event>, sp: nat): nat
    decreases |es|
  {
    if es == [] || Step(s, es[0]).None? then 0
    else TxnStep(s, es[0], sp) + TxnSteps(Step(s, es[0]).value, es[1..], sp)
  }

  function WorkSteps(es: seq<Event>, sp: nat): nat {
    if es == [] then 0
    else (if es[0].Work? && es[0].spi == sp then 1 else 0) + WorkSteps(es[1..], sp)
  }

  /** The worker of `sp` has been told to stop and is not joined yet. */
  predicate Told(s: State, sp: nat) {
    sp in s.workers && sp in s.heap.spis && s.heap.spis[sp].stopFlag
  }

  function M(s: State, sp: nat): nat
    requires sp in s.heap.spis
  {
    |s.heap.spis[sp].transactions|
  }

  lemma WorkerIsCloser(s: State, s': State, sp: nat, io: Io, net: Net)
    requires Told(s, sp) && WorkerStep(s, sp, io, net) == Some(s')
    ensures Told(s', sp) && M(s', sp) == M(s, sp)
    ensures Rank(s'.workers[sp], M(s, sp)) < Rank(s.workers[sp], M(s, sp))
    ensures TxnsLeft(s'.workers[sp], M(s, sp)) + TxnStep(s, Work(sp, io, net), sp) <= TxnsLeft(s.workers[sp], M(s, sp))
  {
    if s.workers[sp].RunTxn? {
      TxnIsCloser(s, s', sp, io, net);
    }
  }

  lemma TxnIsCloser(s: State, s': State, sp: nat, io: Io, net: Net)
    requires Told(s, sp) && WorkerStep(s, sp, io, net) == Some(s') && s.workers[sp].RunTxn?
    ensures Told(s', sp) && M(s', sp) == M(s, sp)
    ensures Rank(s'.workers[sp], M(s, sp)) < Rank(s.workers[sp], M(s, sp))
    ensures TxnsLeft(s'.workers[sp], M(s, sp)) + TxnStep(s, Work(sp, io, net), sp) <= TxnsLeft(s.workers[sp], M(s, sp))
  {
  }

  lemma OneStepCloser(s: State, s': State, e: Event, sp: nat)
    requires Told(s, sp) && !e.Main? && Step(s, e) == Some(s')
    ensures Told(s', sp) && M(s', sp) == M(s, sp)
    ensures Rank(s'.workers[sp], M(s, sp)) + (if e.Work? && e.spi == sp then 1 else 0) <= Rank(s.workers[sp], M(s, sp))
    ensures TxnsLeft(s'.workers[sp], M(s, sp)) + TxnStep(s, e, sp) <= TxnsLeft(s.workers[sp], M(s, sp))
  {
    if e.Work? {
      if e.spi == sp {
        WorkerIsCloser(s, s', sp, e.io, e.net);
      } else {
        OtherWorkerStays(s, s', e.spi, e.io, e.net, sp);
      }
    }
  }

  lemma OtherWorkerStays(s: State, s': State, other: nat, io: Io, net: Net, sp: nat)
    requires Told(s, sp) && other in s.workers && other != sp && WorkerStep(s, other, io, net) == Some(s')
    ensures Told(s', sp) && s'.workers[sp] == s.workers[sp] && s'.heap.spis[sp] == s.heap.spis[sp]
  {
  }

  /** Once the stop flag of a worker is raised, then in every interleaving with the other workers and with
      signals, for as long as the main thread waits, that worker takes at most `2m + 4` more steps and
      runs at most `m` more transactions, `m` being the length of its list. */
  lemma {:induction false} JoinIsBounded(s: State, s': State, es: seq<Event>, sp: nat)
    requires Told(s, sp) && Run(s, es) == Some(s') && forall k :: 0 <= k < |es| ==> !es[k].Main?
    ensures Told(s', sp) && M(s', sp) == M(s, sp)
    ensures Rank(s'.workers[sp], M(s, sp)) + WorkSteps(es, sp) <= Rank(s.workers[sp], M(s, sp)) <= 2 * M(s, sp) + 4
    ensures TxnsLeft(s'.workers[sp], M(s, sp)) + TxnSteps(s, es, sp) <= TxnsLeft(s.workers[sp], M(s, sp)) <= M(s, sp)
    decreases |es|
  {
    if es != [] {
      var s1 := Step(s, es[0]).value;
      OneStepCloser(s, s1, es[0], sp);
      JoinIsBounded(s1, s', es[1..], sp);
    }
  }

  /** While the main thread waits for slot `j`: the flag is up, the worker can always take a step until it
      exits, and the wait is over as soon as it has. So the wait ends after finitely many worker steps,
      for every start, since a start lowers the flag before it creates the worker. */
  lemma JoinMakesProgress(s: State, e: Env, io: Io, net: Net)
    requires Reachable(s) && s.pc.Join?
    ensures SourceReady(s, s.pc.j) && Told(s, SourceOf(s, s.pc.j))
    ensures var sp := SourceOf(s, s.pc.j);
      && (MainStep(s, e).Some? <==> s.workers[sp].Exited?)
      && (WorkerStep(s, sp, io, net).Some? <==> !s.workers[sp].Exited?)
      && (s.workers[sp].Exited? <==> Rank(s.workers[sp], M(s, sp)) == 0)
  {
    ReachableInv(s);
    WaitsForTold(s);
    JoinWhenExited(s, e);
    WorkersNeverFault(s, SourceOf(s, s.pc.j), io, net);
    NothingLeft(s.workers[SourceOf(s, s.pc.j)], M(s, SourceOf(s, s.pc.j)));
  }

  lemma NothingLeft(pc: WorkerPc, m: nat)
    ensures pc.Exited? <==> Rank(pc, m) == 0
  {
  }

  lemma JoinWhenExited(s: State, e: Env)
    requires s.pc.Join? && SourceReady(s, s.pc.j) && Told(s, SourceOf(s, s.pc.j))
    ensures MainStep(s, e).Some? <==> s.workers[SourceOf(s, s.pc.j)].Exited?
  {
  }

  lemma WaitsForTold(s: State)
    requires PcOk(s) && LiveOk(s) && PollersOk(s) && s.pc.Join?
    ensures SourceReady(s, s.pc.j) && Told(s, SourceOf(s, s.pc.j))
  {
    assert Live(s.heap, s.slots[s.pc.j], SlotRef(s.arrays, s.pc.j), true);
  }
}

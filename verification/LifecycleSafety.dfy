/** What every step of every thread keeps, and what follows for every reachable state. */
module LifecycleSafety {
  import opened Basics
  import opened SpiTransaction
  import opened Lifecycle

  predicate HasArray(pc: Pc) {
    !(pc.Load? || pc.AllocArray? || pc.FreeConfig? || pc.Done?)
  }

  predicate HasConfig(pc: Pc) {
    !(pc.Load? || pc.Done?)
  }

  /** The bridge being started, or about to be. */
  function StartIndex(pc: Pc): Option<nat> {
    match pc
    case Prepare(i) => Some(i)
    case AllocDest(i) => Some(i)
    case AllocSource(i) => Some(i)
    case StartDest(i) => Some(i)
    case StartSource(i) => Some(i)
    case InitTxn(i, _) => Some(i)
    case InitRx(i, _, _) => Some(i)
    case StartPolling(i) => Some(i)
    case _ => None
  }

  /** The slot being stopped, or about to be. */
  function StopIndex(pc: Pc): Option<nat> {
    match pc
    case StopSource(j, _) => Some(j)
    case Join(j, _) => Some(j)
    case CloseSource(j, _) => Some(j)
    case FreeSource(j, _) => Some(j)
    case StopDest(j, _) => Some(j)
    case FreeDest(j, _) => Some(j)
    case _ => None
  }

  /** The first slot that still runs; the running ones are [Lo, count). */
  function Lo(s: State): nat {
    if StopIndex(s.pc).Some? then
      StopIndex(s.pc).value + (if s.pc.StopSource? || s.pc.Join? then 0 else 1)
    else if s.pc.FreeArray? || !HasArray(s.pc) then s.count
    else 0
  }

  predicate PcOk(s: State) {
    && (s.slots != [] <==> HasArray(s.pc))
    && (s.config.Some? <==> HasConfig(s.pc))
    && (s.slots == [] && !s.pc.FreeConfig? ==> s.count == 0)
    && (s.slots != [] ==> |s.slots| == Max(1, |s.config.value|) && s.count <= |s.config.value|)
    && (StartIndex(s.pc).Some? ==>
          s.count <= StartIndex(s.pc).value <= |s.config.value|
          && (s.pc.Prepare? || StartIndex(s.pc).value < |s.config.value|))
    && (StopIndex(s.pc).Some? ==>
          StopIndex(s.pc).value <= s.count && (s.pc.StopSource? || StopIndex(s.pc).value < s.count))
  }

  /** Numbers handed out so far are below `next`. */
  predicate IdsOk(s: State) {
    && (forall x :: x in s.heap.spis ==> x < s.next)
    && (forall x :: x in s.heap.mqtts ==> x < s.next)
  }

  /** The destination side of the slot `r`: an MQTT runtime of its own, with its sender wired. */
  predicate DestOk(h: Heap, slot: Slot, r: SlotRef) {
    && IsMqtt(slot.to) && slot.dest.Some? && slot.sendFn && slot.sendCtx == slot.dest
    && slot.topicPrefix == PREFIX
    && slot.dest.value in h.mqtts && h.mqtts[slot.dest.value].owner == r
  }

  predicate DestOpen(h: Heap, slot: Slot, r: SlotRef) {
    DestOk(h, slot, r) && h.mqtts[slot.dest.value].open
  }

  /** The source side: an opened SPI runtime that calls back into this slot, with a descriptor of its own. */
  predicate SourceOpen(h: Heap, slot: Slot, r: SlotRef) {
    && IsSpi(slot.from) && slot.source.Some? && slot.transform
    && slot.source.value in h.spis
    && var spi := h.spis[slot.source.value];
      && spi.user == Some(r) && spi.transactions == slot.from.value.transactions
      && spi.fd >= 0 && spi.fd in h.fds && h.fds[spi.fd] == slot.source.value
  }

  /** A running bridge: both ends open and a worker polling, told to stop only when `stopping`. */
  predicate Live(h: Heap, slot: Slot, r: SlotRef, stopping: bool) {
    && SourceOpen(h, slot, r) && DestOpen(h, slot, r)
    && h.spis[slot.source.value].polling && h.spis[slot.source.value].stopFlag == stopping
  }

  predicate LiveOk(s: State) {
    s.count <= |s.slots| ==>
      forall j :: Lo(s) <= j < s.count ==>
        Live(s.heap, s.slots[j], SlotRef(s.arrays, j), s.pc.Join? && s.pc.j == j)
  }

  /** How far slot `count` has come: 1 looked up, 2 destination allocated, 3 source allocated,
      4 destination connected, 5 source open. */
  function Progress(pc: Pc): nat {
    match pc
    case AllocDest(_) => 1
    case AllocSource(_) => 2
    case StartDest(_) => 3
    case StartSource(_) => 4
    case InitTxn(_, _) => 5
    case InitRx(_, _, _) => 5
    case StartPolling(_) => 5
    case _ => 0
  }

  predicate BuildSlot(h: Heap, slot: Slot, r: SlotRef, progress: nat) {
    && slot.from.Some? && slot.to.Some? && slot.topicPrefix == PREFIX
    && (progress >= 2 && IsMqtt(slot.to) ==> DestOk(h, slot, r))
    && (progress >= 3 && IsSpi(slot.from) ==>
          slot.source.Some? && slot.source.value in h.spis && !h.spis[slot.source.value].polling
          && slot.transform == IsMqtt(slot.to)
          && (progress <= 4 ==> h.spis[slot.source.value].user.None?))
    && (progress >= 4 ==> DestOpen(h, slot, r))
    && (progress >= 5 ==> SourceOpen(h, slot, r))
  }

  predicate BuildOk(s: State) {
    Progress(s.pc) > 0 && s.count < |s.slots| ==>
      BuildSlot(s.heap, s.slots[s.count], SlotRef(s.arrays, s.count), Progress(s.pc))
  }

  /** The slot being taken down. */
  predicate TeardownOk(s: State) {
    StopIndex(s.pc).Some? && !s.pc.StopSource? && !s.pc.Join? && StopIndex(s.pc).value < |s.slots| ==>
      var slot := s.slots[StopIndex(s.pc).value];
      var r := SlotRef(s.arrays, StopIndex(s.pc).value);
      && DestOk(s.heap, slot, r)
      && (s.pc.CloseSource? ==> SourceOpen(s.heap, slot, r))
      && (s.pc.CloseSource? || s.pc.FreeSource? ==>
            slot.source.Some? && slot.source.value in s.heap.spis && !s.heap.spis[slot.source.value].polling)
      && (s.pc.FreeSource? ==> s.heap.spis[slot.source.value].user.None?)
  }

  /** The runtime `sp` is that of a running slot. */
  predicate AtHome(s: State, sp: nat) {
    && sp in s.heap.spis && s.heap.spis[sp].polling
    && SlotAlive(s, s.heap.spis[sp].user)
    && Lo(s) <= s.heap.spis[sp].user.value.index < s.count
    && s.slots[s.heap.spis[sp].user.value.index].source == Some(sp)
  }

  predicate HomesOk(s: State) {
    forall sp :: sp in s.workers ==> AtHome(s, sp)
  }

  predicate PollersOk(s: State) {
    forall sp :: sp in s.heap.spis && s.heap.spis[sp].polling ==> sp in s.workers
  }

  /** Every worker belongs to a running slot, and every runtime that polls has its worker. */
  predicate WorkersOk(s: State) {
    HomesOk(s) && PollersOk(s)
  }

  predicate Serves(slot: Slot, b: Bridge) {
    slot.from == b.from && slot.to == b.to
  }

  /** The started bridges, in configuration order, are the ones in the slots. */
  predicate StartedOk(s: State) {
    && |s.started| == s.count
    && (forall j, k :: 0 <= j < k < |s.started| ==> s.started[j] < s.started[k])
    && (s.config.Some? && s.count <= |s.slots| ==>
      forall j :: 0 <= j < s.count ==>
        && s.started[j] < |s.config.value|
        && (StartIndex(s.pc).Some? ==> s.started[j] < StartIndex(s.pc).value)
        && Serves(s.slots[j], s.config.value[s.started[j]]))
    && (s.config.Some? && Progress(s.pc) > 0 && s.count < |s.slots| && StartIndex(s.pc).value < |s.config.value| ==>
      Serves(s.slots[s.count], s.config.value[StartIndex(s.pc).value]))
  }

  predicate StaticOk(s: State) {
    PcOk(s) && StartedOk(s)
  }

  predicate EndsOk(s: State) {
    IdsOk(s) && LiveOk(s) && BuildOk(s) && TeardownOk(s)
  }

  predicate Inv(s: State) {
    StaticOk(s) && EndsOk(s) && WorkersOk(s)
  }

  lemma StartInv()
    ensures Inv(START)
  {
  }

  // ---- steps that change no object -------------------------------------------------------------

  lemma FlagsKeeps(s: State, s': State, stop: bool, reload: bool)
    requires Inv(s)
    requires s' == s.(stop := stop, reload := reload)
    ensures Inv(s')
  {
    FlagsStatic(s, s', stop, reload);
    FlagsEnds(s, s', stop, reload);
    FlagsWorkers(s, s', stop, reload);
  }

  lemma FlagsStatic(s: State, s': State, stop: bool, reload: bool)
    requires Inv(s)
    requires s' == s.(stop := stop, reload := reload)
    ensures StaticOk(s')
  {
  }

  lemma FlagsEnds(s: State, s': State, stop: bool, reload: bool)
    requires Inv(s)
    requires s' == s.(stop := stop, reload := reload)
    ensures EndsOk(s')
  {
  }

  lemma FlagsWorkers(s: State, s': State, stop: bool, reload: bool)
    requires Inv(s)
    requires s' == s.(stop := stop, reload := reload)
    ensures WorkersOk(s')
  {
  }

  lemma LeaveSlotKeeps(s: State, s': State, i: nat)
    requires Inv(s) && Progress(s.pc) > 0 && StartIndex(s.pc) == Some(i)
    requires s' == Goto(s, Prepare(i + 1))
    ensures Inv(s')
  {
    LeaveSlotStatic(s, s', i);
    LeaveSlotEnds(s, s', i);
    LeaveSlotWorkers(s, s', i);
  }

  lemma LeaveSlotStatic(s: State, s': State, i: nat)
    requires Inv(s) && Progress(s.pc) > 0 && StartIndex(s.pc) == Some(i)
    requires s' == Goto(s, Prepare(i + 1))
    ensures StaticOk(s')
  {
  }

  lemma LeaveSlotEnds(s: State, s': State, i: nat)
    requires Inv(s) && Progress(s.pc) > 0 && StartIndex(s.pc) == Some(i)
    requires s' == Goto(s, Prepare(i + 1))
    ensures EndsOk(s')
  {
  }

  lemma LeaveSlotWorkers(s: State, s': State, i: nat)
    requires Inv(s) && Progress(s.pc) > 0 && StartIndex(s.pc) == Some(i)
    requires s' == Goto(s, Prepare(i + 1))
    ensures WorkersOk(s')
  {
    LeaveSlotHomes(s, s', i);
    LeaveSlotPollers(s, s', i);
  }

  lemma LeaveSlotHomes(s: State, s': State, i: nat)
    requires HomesOk(s) && Progress(s.pc) > 0 && s' == Goto(s, Prepare(i + 1))
    ensures HomesOk(s')
  {
    forall x | x in s'.workers ensures AtHome(s', x) {
      assert AtHome(s, x);
      StaysHome(s, s', x);
    }
  }

  lemma LeaveSlotPollers(s: State, s': State, i: nat)
    requires Inv(s) && Progress(s.pc) > 0 && StartIndex(s.pc) == Some(i)
    requires s' == Goto(s, Prepare(i + 1))
    ensures PollersOk(s')
  {
  }

  lemma MoveSlots(s: State, s': State, pc: Pc)
    requires StaticOk(s) && EndsOk(s) && Progress(s.pc) == Progress(pc) == 5 && StartIndex(pc) == StartIndex(s.pc)
    requires s' == Goto(s, pc)
    ensures StaticOk(s') && EndsOk(s')
  {
  }

  lemma MoveWorkers(s: State, s': State, pc: Pc)
    requires PcOk(s) && WorkersOk(s) && Progress(s.pc) == Progress(pc) == 5 && StartIndex(pc) == StartIndex(s.pc)
    requires s' == Goto(s, pc)
    ensures WorkersOk(s')
  {
  }

  lemma SkipDestSlots(s: State, s': State, i: nat)
    requires StaticOk(s) && EndsOk(s) && s.pc == AllocDest(i) && SlotReady(s, s.count) && !IsMqtt(s.slots[s.count].to)
    requires s' == Goto(s, AllocSource(i))
    ensures StaticOk(s') && EndsOk(s')
  {
  }

  lemma SkipDestWorkers(s: State, s': State, i: nat)
    requires PcOk(s) && WorkersOk(s) && s.pc == AllocDest(i) && SlotReady(s, s.count) && !IsMqtt(s.slots[s.count].to)
    requires s' == Goto(s, AllocSource(i))
    ensures WorkersOk(s')
  {
  }

  lemma SkipSourceSlots(s: State, s': State, i: nat)
    requires StaticOk(s) && EndsOk(s) && s.pc == AllocSource(i) && SlotReady(s, s.count)
             && !IsSpi(s.slots[s.count].from)
    requires s' == Goto(s, StartDest(i))
    ensures StaticOk(s') && EndsOk(s')
  {
  }

  lemma SkipSourceWorkers(s: State, s': State, i: nat)
    requires PcOk(s) && WorkersOk(s) && s.pc == AllocSource(i) && SlotReady(s, s.count) && !IsSpi(s.slots[s.count].from)
    requires s' == Goto(s, StartDest(i))
    ensures WorkersOk(s')
  {
  }

  lemma SetPcSlots(s: State, s': State, sp: nat, pc: WorkerPc)
    requires StaticOk(s) && EndsOk(s) && sp in s.workers
    requires s' == SetPc(s, sp, pc)
    ensures StaticOk(s') && EndsOk(s')
  {
  }

  lemma SetPcWorkers(s: State, s': State, sp: nat, pc: WorkerPc)
    requires PcOk(s) && WorkersOk(s) && sp in s.workers
    requires s' == SetPc(s, sp, pc)
    ensures WorkersOk(s')
  {
  }

  lemma PrepareEndSlots(s: State, s': State, i: nat)
    requires StaticOk(s) && EndsOk(s) && s.pc == Prepare(i) && s.config.Some? && i >= |s.config.value|
    requires s' == Goto(s, Service)
    ensures StaticOk(s') && EndsOk(s')
  {
  }

  lemma PrepareEndWorkers(s: State, s': State, i: nat)
    requires PcOk(s) && WorkersOk(s) && s.pc == Prepare(i) && s.config.Some? && i >= |s.config.value|
    requires s' == Goto(s, Service)
    ensures WorkersOk(s')
  {
  }

  lemma BeginStopSlots(s: State, s': State, again: bool)
    requires StaticOk(s) && EndsOk(s) && s.pc.Service?
    requires s' == Goto(s, StopSource(0, again))
    ensures StaticOk(s') && EndsOk(s')
  {
  }

  lemma BeginStopWorkers(s: State, s': State, again: bool)
    requires PcOk(s) && WorkersOk(s) && s.pc.Service?
    requires s' == Goto(s, StopSource(0, again))
    ensures WorkersOk(s')
  {
  }

  lemma StopEndKeeps(s: State, s': State, j: nat, again: bool)
    requires Inv(s) && s.pc == StopSource(j, again) && j >= s.count
    requires s' == Goto(s, FreeArray(again))
    ensures Inv(s')
  {
  }

  lemma HistoryStatic(s: State, s': State, sp: nat, execs: seq<Exec>, calls: seq<Call>)
    requires StaticOk(s) && sp in s.heap.spis
    requires s' == SetSpi(s, sp, s.heap.spis[sp].(execs := execs, calls := calls))
    ensures StaticOk(s')
  {
  }

  lemma HistoryEnds(s: State, s': State, sp: nat, execs: seq<Exec>, calls: seq<Call>)
    requires PcOk(s) && EndsOk(s) && sp in s.heap.spis
    requires s' == SetSpi(s, sp, s.heap.spis[sp].(execs := execs, calls := calls))
    ensures EndsOk(s')
  {
    HistoryLive(s, s', sp, execs, calls);
    HistoryRest(s, s', sp, execs, calls);
  }

  lemma HistoryLive(s: State, s': State, sp: nat, execs: seq<Exec>, calls: seq<Call>)
    requires PcOk(s) && EndsOk(s) && sp in s.heap.spis
    requires s' == SetSpi(s, sp, s.heap.spis[sp].(execs := execs, calls := calls))
    ensures LiveOk(s')
  {
  }

  lemma HistoryRest(s: State, s': State, sp: nat, execs: seq<Exec>, calls: seq<Call>)
    requires PcOk(s) && EndsOk(s) && sp in s.heap.spis
    requires s' == SetSpi(s, sp, s.heap.spis[sp].(execs := execs, calls := calls))
    ensures IdsOk(s') && BuildOk(s') && TeardownOk(s')
  {
  }

  lemma HistoryWorkers(s: State, s': State, sp: nat, execs: seq<Exec>, calls: seq<Call>)
    requires PcOk(s) && WorkersOk(s) && sp in s.heap.spis
    requires s' == SetSpi(s, sp, s.heap.spis[sp].(execs := execs, calls := calls))
    ensures WorkersOk(s')
  {
  }

  // ---- loading and starting --------------------------------------------------------------------

  lemma LoadKeeps(s: State, s': State, e: Env)
    requires Inv(s) && s.pc.Load?
    requires s' == LoadStep(s, e)
    ensures Inv(s')
  {
  }

  lemma AllocArrayKeeps(s: State, s': State, e: Env)
    requires Inv(s) && s.pc.AllocArray? && s.config.Some?
    requires s' == AllocArrayStep(s, e)
    ensures Inv(s')
  {
  }

  lemma SkipBridgeSlots(s: State, s': State, i: nat, slot: Slot)
    requires StaticOk(s) && EndsOk(s) && s.pc == Prepare(i) && SlotReady(s, s.count) && i < |s.config.value|
    requires s' == Goto(SetSlot(s, s.count, slot), Prepare(i + 1))
    ensures StaticOk(s') && EndsOk(s')
  {
  }

  lemma SkipBridgeWorkers(s: State, s': State, i: nat, slot: Slot)
    requires PcOk(s) && WorkersOk(s) && s.pc == Prepare(i) && SlotReady(s, s.count) && i < |s.config.value|
    requires s' == Goto(SetSlot(s, s.count, slot), Prepare(i + 1))
    ensures WorkersOk(s')
  {
  }

  lemma LookUpStatic(s: State, s': State, i: nat, slot: Slot)
    requires StaticOk(s) && s.pc == Prepare(i) && SlotReady(s, s.count) && i < |s.config.value|
    requires slot.from.Some? && slot.to.Some? && slot.topicPrefix == PREFIX && Serves(slot, s.config.value[i])
    requires s' == Goto(SetSlot(s, s.count, slot), AllocDest(i))
    ensures StaticOk(s')
  {
  }

  lemma LookUpEnds(s: State, s': State, i: nat, slot: Slot)
    requires PcOk(s) && EndsOk(s) && s.pc == Prepare(i) && SlotReady(s, s.count) && i < |s.config.value|
    requires slot.from.Some? && slot.to.Some? && slot.topicPrefix == PREFIX && Serves(slot, s.config.value[i])
    requires s' == Goto(SetSlot(s, s.count, slot), AllocDest(i))
    ensures EndsOk(s')
  {
  }

  lemma LookUpWorkers(s: State, s': State, i: nat, slot: Slot)
    requires PcOk(s) && WorkersOk(s) && s.pc == Prepare(i) && SlotReady(s, s.count) && i < |s.config.value|
    requires slot.from.Some? && slot.to.Some? && slot.topicPrefix == PREFIX && Serves(slot, s.config.value[i])
    requires s' == Goto(SetSlot(s, s.count, slot), AllocDest(i))
    ensures WorkersOk(s')
  {
  }

  lemma WireDestSlots(s: State, s': State, i: nat)
    requires StaticOk(s) && EndsOk(s) && s.pc == AllocDest(i) && SlotReady(s, s.count) && IsMqtt(s.slots[s.count].to)
    requires s' == Goto(WireDest(s), AllocSource(i))
    ensures StaticOk(s') && EndsOk(s')
  {
    WireDestStatic(s, s', i);
    WireDestEnds(s, s', i);
  }

  lemma WireDestStatic(s: State, s': State, i: nat)
    requires StaticOk(s) && EndsOk(s) && s.pc == AllocDest(i) && SlotReady(s, s.count) && IsMqtt(s.slots[s.count].to)
    requires s' == Goto(WireDest(s), AllocSource(i))
    ensures StaticOk(s')
  {
  }

  lemma WireDestEnds(s: State, s': State, i: nat)
    requires StaticOk(s) && EndsOk(s) && s.pc == AllocDest(i) && SlotReady(s, s.count) && IsMqtt(s.slots[s.count].to)
    requires s' == Goto(WireDest(s), AllocSource(i))
    ensures EndsOk(s')
  {
  }

  lemma WireDestWorkers(s: State, s': State, i: nat)
    requires PcOk(s) && WorkersOk(s) && s.pc == AllocDest(i) && SlotReady(s, s.count) && IsMqtt(s.slots[s.count].to)
    requires s' == Goto(WireDest(s), AllocSource(i))
    ensures WorkersOk(s')
  {
  }

  lemma WireSourceSlots(s: State, s': State, i: nat)
    requires StaticOk(s) && EndsOk(s) && s.pc == AllocSource(i) && SlotReady(s, s.count) && IsSpi(s.slots[s.count].from)
    requires s' == Goto(WireSource(s), StartDest(i))
    ensures StaticOk(s') && EndsOk(s')
  {
    WireSourceStatic(s, s', i);
    WireSourceEnds(s, s', i);
  }

  lemma WireSourceStatic(s: State, s': State, i: nat)
    requires StaticOk(s) && EndsOk(s) && s.pc == AllocSource(i) && SlotReady(s, s.count) && IsSpi(s.slots[s.count].from)
    requires s' == Goto(WireSource(s), StartDest(i))
    ensures StaticOk(s')
  {
  }

  lemma WireSourceEnds(s: State, s': State, i: nat)
    requires StaticOk(s) && EndsOk(s) && s.pc == AllocSource(i) && SlotReady(s, s.count) && IsSpi(s.slots[s.count].from)
    requires s' == Goto(WireSource(s), StartDest(i))
    ensures EndsOk(s')
  {
  }

  lemma WireSourceWorkers(s: State, s': State, i: nat)
    requires PcOk(s) && IdsOk(s) && WorkersOk(s) && s.pc == AllocSource(i) && SlotReady(s, s.count)
             && IsSpi(s.slots[s.count].from)
    requires s' == Goto(WireSource(s), StartDest(i))
    ensures WorkersOk(s')
  {
  }

  lemma ConnectSlots(s: State, s': State, i: nat, m: nat)
    requires StaticOk(s) && EndsOk(s) && s.pc == StartDest(i) && SlotReady(s, s.count)
             && s.slots[s.count].dest == Some(m) && IsMqtt(s.slots[s.count].to)
    requires s' == Goto(SetMqtt(s, m, Mqtt(true, SlotRef(s.arrays, s.count))), StartSource(i))
    ensures StaticOk(s') && EndsOk(s')
  {
  }

  lemma ConnectWorkers(s: State, s': State, i: nat, m: nat)
    requires PcOk(s) && WorkersOk(s) && s.pc == StartDest(i) && SlotReady(s, s.count)
             && s.slots[s.count].dest == Some(m) && IsMqtt(s.slots[s.count].to)
    requires s' == Goto(SetMqtt(s, m, Mqtt(true, SlotRef(s.arrays, s.count))), StartSource(i))
    ensures WorkersOk(s')
  {
  }

  lemma OpenFailsSlots(s: State, s': State, i: nat, sp: nat)
    requires StaticOk(s) && EndsOk(s) && s.pc == StartSource(i) && SourceReady(s, s.count)
             && sp == SourceOf(s, s.count) && IsSpi(s.slots[s.count].from)
    requires s' == Goto(SetSpi(s, sp, ZERO_SPI.(fd := -1)), Prepare(i + 1))
    ensures StaticOk(s') && EndsOk(s')
  {
  }

  lemma OpenFailsWorkers(s: State, s': State, i: nat, sp: nat)
    requires PcOk(s) && BuildOk(s) && WorkersOk(s) && s.pc == StartSource(i) && SourceReady(s, s.count)
             && sp == SourceOf(s, s.count) && IsSpi(s.slots[s.count].from)
    requires s' == Goto(SetSpi(s, sp, ZERO_SPI.(fd := -1)), Prepare(i + 1))
    ensures WorkersOk(s')
  {
  }

  lemma OpenSlots(s: State, s': State, i: nat, sp: nat, fd: nat, txns: seq<Txn>)
    requires StaticOk(s) && EndsOk(s) && s.pc == StartSource(i) && SourceReady(s, s.count)
             && sp == SourceOf(s, s.count) && fd !in s.heap.fds
    requires IsSpi(s.slots[s.count].from) && txns == s.slots[s.count].from.value.transactions
    requires s' == Goto(OpenSpi(s, sp, fd, txns), InitTxn(i, 0))
    ensures StaticOk(s') && EndsOk(s')
  {
    OpenStatic(s, s', i, sp, fd, txns);
    OpenEnds(s, s', i, sp, fd, txns);
  }

  lemma OpenStatic(s: State, s': State, i: nat, sp: nat, fd: nat, txns: seq<Txn>)
    requires StaticOk(s) && EndsOk(s) && s.pc == StartSource(i) && SourceReady(s, s.count)
             && sp == SourceOf(s, s.count) && fd !in s.heap.fds
    requires IsSpi(s.slots[s.count].from) && txns == s.slots[s.count].from.value.transactions
    requires s' == Goto(OpenSpi(s, sp, fd, txns), InitTxn(i, 0))
    ensures StaticOk(s')
  {
  }

  lemma OpenEnds(s: State, s': State, i: nat, sp: nat, fd: nat, txns: seq<Txn>)
    requires StaticOk(s) && EndsOk(s) && s.pc == StartSource(i) && SourceReady(s, s.count)
             && sp == SourceOf(s, s.count) && fd !in s.heap.fds
    requires IsSpi(s.slots[s.count].from) && txns == s.slots[s.count].from.value.transactions
    requires s' == Goto(OpenSpi(s, sp, fd, txns), InitTxn(i, 0))
    ensures EndsOk(s')
  {
  }

  lemma OpenWorkers(s: State, s': State, i: nat, sp: nat, fd: nat, txns: seq<Txn>)
    requires PcOk(s) && BuildOk(s) && WorkersOk(s) && s.pc == StartSource(i) && SourceReady(s, s.count)
             && sp == SourceOf(s, s.count) && fd !in s.heap.fds
    requires IsSpi(s.slots[s.count].from) && txns == s.slots[s.count].from.value.transactions
    requires s' == Goto(OpenSpi(s, sp, fd, txns), InitTxn(i, 0))
    ensures WorkersOk(s')
  {
    OpenHomes(s, s', i, sp, fd, txns);
    OpenPollers(s, s', i, sp, fd, txns);
  }

  lemma OpenHomes(s: State, s': State, i: nat, sp: nat, fd: nat, txns: seq<Txn>)
    requires PcOk(s) && BuildOk(s) && WorkersOk(s) && s.pc == StartSource(i) && SourceReady(s, s.count)
             && sp == SourceOf(s, s.count) && fd !in s.heap.fds
    requires IsSpi(s.slots[s.count].from) && txns == s.slots[s.count].from.value.transactions
    requires s' == Goto(OpenSpi(s, sp, fd, txns), InitTxn(i, 0))
    ensures HomesOk(s')
  {
  }

  lemma OpenPollers(s: State, s': State, i: nat, sp: nat, fd: nat, txns: seq<Txn>)
    requires PcOk(s) && BuildOk(s) && WorkersOk(s) && s.pc == StartSource(i) && SourceReady(s, s.count)
             && sp == SourceOf(s, s.count) && fd !in s.heap.fds
    requires IsSpi(s.slots[s.count].from) && txns == s.slots[s.count].from.value.transactions
    requires s' == Goto(OpenSpi(s, sp, fd, txns), InitTxn(i, 0))
    ensures PollersOk(s')
  {
  }

  lemma LaunchStatic(s: State, s': State, i: nat, sp: nat)
    requires StaticOk(s) && s.pc == StartPolling(i) && SourceReady(s, s.count) && sp == SourceOf(s, s.count)
    requires s' == Goto(Launch(s, sp, i), Prepare(i + 1))
    ensures StaticOk(s')
  {
  }

  lemma LaunchEnds(s: State, s': State, i: nat, sp: nat)
    requires PcOk(s) && EndsOk(s) && s.pc == StartPolling(i) && SourceReady(s, s.count) && sp == SourceOf(s, s.count)
    requires s' == Goto(Launch(s, sp, i), Prepare(i + 1))
    ensures EndsOk(s')
  {
  }

  lemma LaunchWorkers(s: State, s': State, i: nat, sp: nat)
    requires PcOk(s) && BuildOk(s) && WorkersOk(s) && s.pc == StartPolling(i) && SourceReady(s, s.count)
             && sp == SourceOf(s, s.count)
    requires s' == Goto(Launch(s, sp, i), Prepare(i + 1))
    ensures WorkersOk(s')
  {
  }

  lemma LaunchFailsSlots(s: State, s': State, i: nat, sp: nat)
    requires StaticOk(s) && EndsOk(s) && s.pc == StartPolling(i) && SourceReady(s, s.count)
             && sp == SourceOf(s, s.count)
    requires s' == SetSpi(s, sp, s.heap.spis[sp].(stopFlag := false))
    ensures StaticOk(s') && EndsOk(s')
  {
  }

  lemma LaunchFailsWorkers(s: State, s': State, i: nat, sp: nat)
    requires PcOk(s) && WorkersOk(s) && s.pc == StartPolling(i) && SourceReady(s, s.count) && sp == SourceOf(s, s.count)
    requires s' == SetSpi(s, sp, s.heap.spis[sp].(stopFlag := false))
    ensures WorkersOk(s')
  {
  }

  // ---- stopping and freeing --------------------------------------------------------------------

  lemma RaiseStopSlots(s: State, s': State, j: nat, again: bool, sp: nat)
    requires StaticOk(s) && EndsOk(s) && s.pc == StopSource(j, again) && j < s.count && SourceReady(s, j)
             && sp == SourceOf(s, j)
    requires s' == Goto(SetSpi(s, sp, s.heap.spis[sp].(stopFlag := true)), Join(j, again))
    ensures StaticOk(s') && EndsOk(s')
  {
    RaiseStopStatic(s, s', j, again, sp);
    RaiseStopEnds(s, s', j, again, sp);
  }

  lemma RaiseStopStatic(s: State, s': State, j: nat, again: bool, sp: nat)
    requires StaticOk(s) && EndsOk(s) && s.pc == StopSource(j, again) && j < s.count && SourceReady(s, j)
             && sp == SourceOf(s, j)
    requires s' == Goto(SetSpi(s, sp, s.heap.spis[sp].(stopFlag := true)), Join(j, again))
    ensures StaticOk(s')
  {
  }

  lemma RaiseStopEnds(s: State, s': State, j: nat, again: bool, sp: nat)
    requires StaticOk(s) && EndsOk(s) && s.pc == StopSource(j, again) && j < s.count && SourceReady(s, j)
             && sp == SourceOf(s, j)
    requires s' == Goto(SetSpi(s, sp, s.heap.spis[sp].(stopFlag := true)), Join(j, again))
    ensures EndsOk(s')
  {
  }

  lemma RaiseStopWorkers(s: State, s': State, j: nat, again: bool, sp: nat)
    requires PcOk(s) && WorkersOk(s) && s.pc == StopSource(j, again) && j < s.count && SourceReady(s, j)
             && sp == SourceOf(s, j)
    requires s' == Goto(SetSpi(s, sp, s.heap.spis[sp].(stopFlag := true)), Join(j, again))
    ensures WorkersOk(s')
  {
    RaiseStopHomes(s, s', j, again, sp);
    RaiseStopPollers(s, s', j, again, sp);
  }

  lemma RaiseStopHomes(s: State, s': State, j: nat, again: bool, sp: nat)
    requires PcOk(s) && WorkersOk(s) && s.pc == StopSource(j, again) && j < s.count && SourceReady(s, j)
             && sp == SourceOf(s, j)
    requires s' == Goto(SetSpi(s, sp, s.heap.spis[sp].(stopFlag := true)), Join(j, again))
    ensures HomesOk(s')
  {
  }

  lemma RaiseStopPollers(s: State, s': State, j: nat, again: bool, sp: nat)
    requires PcOk(s) && WorkersOk(s) && s.pc == StopSource(j, again) && j < s.count && SourceReady(s, j)
             && sp == SourceOf(s, j)
    requires s' == Goto(SetSpi(s, sp, s.heap.spis[sp].(stopFlag := true)), Join(j, again))
    ensures PollersOk(s')
  {
  }

  lemma JoinSlots(s: State, s': State, j: nat, again: bool)
    requires StaticOk(s) && EndsOk(s) && s.pc == Join(j, again) && SourceReady(s, j)
    requires JoinStep(s, j, again) == Some(s')
    ensures StaticOk(s') && EndsOk(s')
  {
    JoinStatic(s, s', j, again);
    JoinEnds(s, s', j, again);
  }

  lemma JoinStatic(s: State, s': State, j: nat, again: bool)
    requires StaticOk(s) && EndsOk(s) && s.pc == Join(j, again) && SourceReady(s, j)
    requires JoinStep(s, j, again) == Some(s')
    ensures StaticOk(s')
  {
  }

  lemma JoinEnds(s: State, s': State, j: nat, again: bool)
    requires StaticOk(s) && EndsOk(s) && s.pc == Join(j, again) && SourceReady(s, j)
    requires JoinStep(s, j, again) == Some(s')
    ensures EndsOk(s')
  {
    JoinLive(s, s', j, again);
    JoinRest(s, s', j, again);
  }

  lemma JoinLive(s: State, s': State, j: nat, again: bool)
    requires StaticOk(s) && EndsOk(s) && s.pc == Join(j, again) && SourceReady(s, j)
    requires JoinStep(s, j, again) == Some(s')
    ensures LiveOk(s')
  {
  }

  lemma JoinRest(s: State, s': State, j: nat, again: bool)
    requires StaticOk(s) && EndsOk(s) && s.pc == Join(j, again) && SourceReady(s, j)
    requires JoinStep(s, j, again) == Some(s')
    ensures IdsOk(s') && BuildOk(s') && TeardownOk(s')
  {
  }

  /** A step that changes one runtime, which then has no worker, leaves the other workers at home. */
  lemma HomesWithout(s: State, s': State, sp: nat)
    requires HomesOk(s) && Lo(s) <= Lo(s') <= Lo(s) + 1 && Lo(s) <= |s.slots|
    requires s'.slots == s.slots && s'.arrays == s.arrays && s'.count == s.count
    requires sp !in s'.workers && s'.workers == s.workers - {sp}
    requires sp in s'.heap.spis && s'.heap.spis == s.heap.spis[sp := s'.heap.spis[sp]]
    requires Lo(s') > Lo(s) ==> Lo(s) < |s.slots| && s.slots[Lo(s)].source == Some(sp)
    ensures HomesOk(s')
  {
    forall x | x in s'.workers ensures AtHome(s', x) {
      assert AtHome(s, x);
      StaysHome(s, s', x);
    }
  }

  lemma StaysElsewhere(s: State, s': State, x: nat, j: nat)
    requires AtHome(s, x) && j < |s.slots| && s.heap.spis[x].user.value.index != j
    requires |s'.slots| == |s.slots| && s'.slots == s.slots[j := s'.slots[j]]
    requires s'.arrays == s.arrays && s'.count == s.count && Lo(s') == Lo(s)
    requires x in s'.heap.spis && s'.heap.spis[x] == s.heap.spis[x]
    ensures AtHome(s', x)
  {
  }

  lemma StaysHome(s: State, s': State, x: nat)
    requires AtHome(s, x) && s'.slots == s.slots && s'.arrays == s.arrays && s'.count == s.count
    requires x in s'.heap.spis && s'.heap.spis[x] == s.heap.spis[x]
    requires Lo(s') <= s.heap.spis[x].user.value.index
    ensures AtHome(s', x)
  {
  }

  lemma JoinWorkers(s: State, s': State, j: nat, again: bool)
    requires PcOk(s) && WorkersOk(s) && s.pc == Join(j, again) && SourceReady(s, j)
    requires JoinStep(s, j, again) == Some(s')
    ensures WorkersOk(s')
  {
    JoinHomes(s, s', j, again);
    JoinPollers(s, s', j, again);
  }

  lemma JoinHomes(s: State, s': State, j: nat, again: bool)
    requires PcOk(s) && WorkersOk(s) && s.pc == Join(j, again) && SourceReady(s, j)
    requires JoinStep(s, j, again) == Some(s')
    ensures HomesOk(s')
  {
    HomesWithout(s, s', SourceOf(s, j));
  }

  lemma JoinPollers(s: State, s': State, j: nat, again: bool)
    requires PcOk(s) && WorkersOk(s) && s.pc == Join(j, again) && SourceReady(s, j)
    requires JoinStep(s, j, again) == Some(s')
    ensures PollersOk(s')
  {
  }

  lemma CloseSourceStatic(s: State, s': State, j: nat, again: bool)
    requires StaticOk(s) && s.pc == CloseSource(j, again) && SourceReady(s, j)
    requires CloseSourceStep(s, j, again) == Some(s')
    ensures StaticOk(s')
  {
    CloseSourcePc(s, s', j, again);
    CloseSourceStarted(s, s', j, again);
  }

  lemma CloseSourcePc(s: State, s': State, j: nat, again: bool)
    requires StaticOk(s) && s.pc == CloseSource(j, again) && SourceReady(s, j)
    requires CloseSourceStep(s, j, again) == Some(s')
    ensures PcOk(s')
  {
  }

  lemma CloseSourceStarted(s: State, s': State, j: nat, again: bool)
    requires StaticOk(s) && s.pc == CloseSource(j, again) && SourceReady(s, j)
    requires CloseSourceStep(s, j, again) == Some(s')
    ensures StartedOk(s')
  {
    StartedStays(s, s');
  }

  lemma StartedStays(s: State, s': State)
    requires StartedOk(s) && StartIndex(s'.pc).None? && Progress(s'.pc) == 0
    requires s'.started == s.started && s'.count == s.count && s'.config == s.config && s'.slots == s.slots
    ensures StartedOk(s')
  {
  }

  lemma CloseSourceEnds(s: State, s': State, j: nat, again: bool)
    requires PcOk(s) && EndsOk(s) && s.pc == CloseSource(j, again) && SourceReady(s, j)
    requires CloseSourceStep(s, j, again) == Some(s')
    ensures EndsOk(s')
  {
    CloseSourceLive(s, s', j, again);
    CloseSourceRest(s, s', j, again);
  }

  lemma CloseSourceLive(s: State, s': State, j: nat, again: bool)
    requires PcOk(s) && EndsOk(s) && s.pc == CloseSource(j, again) && SourceReady(s, j)
    requires CloseSourceStep(s, j, again) == Some(s')
    ensures LiveOk(s')
  {
  }

  lemma CloseSourceRest(s: State, s': State, j: nat, again: bool)
    requires PcOk(s) && EndsOk(s) && s.pc == CloseSource(j, again) && SourceReady(s, j)
    requires CloseSourceStep(s, j, again) == Some(s')
    ensures IdsOk(s') && BuildOk(s') && TeardownOk(s')
  {
  }

  lemma CloseSourceWorkers(s: State, s': State, j: nat, again: bool)
    requires PcOk(s) && TeardownOk(s) && WorkersOk(s) && s.pc == CloseSource(j, again) && SourceReady(s, j)
    requires CloseSourceStep(s, j, again) == Some(s')
    ensures WorkersOk(s')
  {
    CloseSourceHomes(s, s', j, again);
    CloseSourcePollers(s, s', j, again);
  }

  lemma CloseSourceHomes(s: State, s': State, j: nat, again: bool)
    requires PcOk(s) && TeardownOk(s) && WorkersOk(s) && s.pc == CloseSource(j, again) && SourceReady(s, j)
    requires CloseSourceStep(s, j, again) == Some(s')
    ensures HomesOk(s')
  {
    HomesWithout(s, s', SourceOf(s, j));
  }

  lemma CloseSourcePollers(s: State, s': State, j: nat, again: bool)
    requires PcOk(s) && TeardownOk(s) && WorkersOk(s) && s.pc == CloseSource(j, again) && SourceReady(s, j)
    requires CloseSourceStep(s, j, again) == Some(s')
    ensures PollersOk(s')
  {
  }

  lemma FreeSourceStatic(s: State, s': State, j: nat, again: bool)
    requires StaticOk(s) && s.pc == FreeSource(j, again) && SourceReady(s, j)
    requires s' == FreeSourceStep(s, j, again)
    ensures StaticOk(s')
  {
  }

  lemma FreeSourceEnds(s: State, s': State, j: nat, again: bool)
    requires PcOk(s) && EndsOk(s) && s.pc == FreeSource(j, again) && SourceReady(s, j)
    requires s' == FreeSourceStep(s, j, again)
    ensures EndsOk(s')
  {
  }

  lemma FreeSourceWorkers(s: State, s': State, j: nat, again: bool)
    requires PcOk(s) && TeardownOk(s) && WorkersOk(s) && s.pc == FreeSource(j, again) && SourceReady(s, j)
    requires s' == FreeSourceStep(s, j, again)
    ensures WorkersOk(s')
  {
    FreeSourceHomes(s, s', j, again);
    FreeSourcePollers(s, s', j, again);
  }

  lemma FreeSourceHomes(s: State, s': State, j: nat, again: bool)
    requires PcOk(s) && TeardownOk(s) && WorkersOk(s) && s.pc == FreeSource(j, again) && SourceReady(s, j)
    requires s' == FreeSourceStep(s, j, again)
    ensures HomesOk(s')
  {
    var sp := SourceOf(s, j);
    forall x | x in s'.workers ensures AtHome(s', x) {
      assert AtHome(s, x);
      assert x != sp;
      StaysElsewhere(s, s', x, j);
    }
  }

  lemma FreeSourcePollers(s: State, s': State, j: nat, again: bool)
    requires PcOk(s) && TeardownOk(s) && WorkersOk(s) && s.pc == FreeSource(j, again) && SourceReady(s, j)
    requires s' == FreeSourceStep(s, j, again)
    ensures PollersOk(s')
  {
  }

  lemma DisconnectSlots(s: State, s': State, j: nat, again: bool, m: nat)
    requires StaticOk(s) && EndsOk(s) && s.pc == StopDest(j, again) && SlotReady(s, j)
             && s.slots[j].dest == Some(m) && m in s.heap.mqtts
    requires s' == Goto(SetMqtt(s, m, s.heap.mqtts[m].(open := false)), FreeDest(j, again))
    ensures StaticOk(s') && EndsOk(s')
  {
    DisconnectStatic(s, s', j, again, m);
    DisconnectEnds(s, s', j, again, m);
  }

  lemma DisconnectStatic(s: State, s': State, j: nat, again: bool, m: nat)
    requires StaticOk(s) && EndsOk(s) && s.pc == StopDest(j, again) && SlotReady(s, j)
             && s.slots[j].dest == Some(m) && m in s.heap.mqtts
    requires s' == Goto(SetMqtt(s, m, s.heap.mqtts[m].(open := false)), FreeDest(j, again))
    ensures StaticOk(s')
  {
  }

  lemma DisconnectEnds(s: State, s': State, j: nat, again: bool, m: nat)
    requires StaticOk(s) && EndsOk(s) && s.pc == StopDest(j, again) && SlotReady(s, j)
             && s.slots[j].dest == Some(m) && m in s.heap.mqtts
    requires s' == Goto(SetMqtt(s, m, s.heap.mqtts[m].(open := false)), FreeDest(j, again))
    ensures EndsOk(s')
  {
  }

  lemma DisconnectWorkers(s: State, s': State, j: nat, again: bool, m: nat)
    requires PcOk(s) && WorkersOk(s) && s.pc == StopDest(j, again) && SlotReady(s, j)
             && s.slots[j].dest == Some(m) && m in s.heap.mqtts
    requires s' == Goto(SetMqtt(s, m, s.heap.mqtts[m].(open := false)), FreeDest(j, again))
    ensures WorkersOk(s')
  {
  }

  lemma FreeDestSlots(s: State, s': State, j: nat, again: bool)
    requires StaticOk(s) && EndsOk(s) && s.pc == FreeDest(j, again) && SlotReady(s, j)
    requires FreeDestStep(s, j, again) == Some(s')
    ensures StaticOk(s') && EndsOk(s')
  {
    FreeDestStatic(s, s', j, again);
    FreeDestEnds(s, s', j, again);
  }

  lemma FreeDestStatic(s: State, s': State, j: nat, again: bool)
    requires StaticOk(s) && EndsOk(s) && s.pc == FreeDest(j, again) && SlotReady(s, j)
    requires FreeDestStep(s, j, again) == Some(s')
    ensures StaticOk(s')
  {
  }

  lemma FreeDestEnds(s: State, s': State, j: nat, again: bool)
    requires StaticOk(s) && EndsOk(s) && s.pc == FreeDest(j, again) && SlotReady(s, j)
    requires FreeDestStep(s, j, again) == Some(s')
    ensures EndsOk(s')
  {
  }

  lemma FreeDestWorkers(s: State, s': State, j: nat, again: bool)
    requires PcOk(s) && WorkersOk(s) && s.pc == FreeDest(j, again) && SlotReady(s, j)
    requires FreeDestStep(s, j, again) == Some(s')
    ensures WorkersOk(s')
  {
    FreeDestHomes(s, s', j, again);
    FreeDestPollers(s, s', j, again);
  }

  lemma FreeDestHomes(s: State, s': State, j: nat, again: bool)
    requires PcOk(s) && WorkersOk(s) && s.pc == FreeDest(j, again) && SlotReady(s, j)
    requires FreeDestStep(s, j, again) == Some(s')
    ensures HomesOk(s')
  {
  }

  lemma FreeDestPollers(s: State, s': State, j: nat, again: bool)
    requires PcOk(s) && WorkersOk(s) && s.pc == FreeDest(j, again) && SlotReady(s, j)
    requires FreeDestStep(s, j, again) == Some(s')
    ensures PollersOk(s')
  {
  }

  lemma FreeArrayKeeps(s: State, s': State, again: bool)
    requires Inv(s) && s.pc == FreeArray(again)
    requires s' == FreeArrayStep(s, again)
    ensures Inv(s')
  {
    FreeArrayStatic(s, s', again);
    FreeArrayEnds(s, s', again);
    FreeArrayWorkers(s, s', again);
  }

  lemma FreeArrayStatic(s: State, s': State, again: bool)
    requires Inv(s) && s.pc == FreeArray(again)
    requires s' == FreeArrayStep(s, again)
    ensures StaticOk(s')
  {
  }

  lemma FreeArrayEnds(s: State, s': State, again: bool)
    requires Inv(s) && s.pc == FreeArray(again)
    requires s' == FreeArrayStep(s, again)
    ensures EndsOk(s')
  {
  }

  lemma FreeArrayWorkers(s: State, s': State, again: bool)
    requires Inv(s) && s.pc == FreeArray(again)
    requires s' == FreeArrayStep(s, again)
    ensures WorkersOk(s')
  {
  }

  lemma FreeConfigKeeps(s: State, s': State, again: bool)
    requires Inv(s) && s.pc == FreeConfig(again)
    requires s' == FreeConfigStep(s, again)
    ensures Inv(s')
  {
  }

  // ---- whole steps ------------------------------------------------------------------------------

  lemma PrepareKeeps(s: State, i: nat)
    requires Inv(s) && s.pc == Prepare(i) && SlotReady(s, s.count) && i < |s.config.value|
    ensures Inv(PrepareStep(s, i))
  {
    var s' := PrepareStep(s, i);
    if s'.pc.Prepare? {
      SkipBridgeSlots(s, s', i, s'.slots[s.count]);
      SkipBridgeWorkers(s, s', i, s'.slots[s.count]);
    } else {
      LookUpStatic(s, s', i, s'.slots[s.count]);
      LookUpEnds(s, s', i, s'.slots[s.count]);
      LookUpWorkers(s, s', i, s'.slots[s.count]);
    }
  }

  lemma AllocStepsKeep(s: State, i: nat, e: Env)
    requires Inv(s) && SlotReady(s, s.count)
    ensures s.pc == AllocDest(i) ==> Inv(AllocDestStep(s, i, e))
    ensures s.pc == AllocSource(i) ==> Inv(AllocSourceStep(s, i, e))
  {
    if s.pc == AllocDest(i) {
      var s' := AllocDestStep(s, i, e);
      if !IsMqtt(s.slots[s.count].to) {
        SkipDestSlots(s, s', i);
        SkipDestWorkers(s, s', i);
      } else if e.ok {
        WireDestSlots(s, s', i);
        WireDestWorkers(s, s', i);
      } else {
        LeaveSlotKeeps(s, s', i);
      }
    }
    if s.pc == AllocSource(i) {
      var s' := AllocSourceStep(s, i, e);
      if !IsSpi(s.slots[s.count].from) {
        SkipSourceSlots(s, s', i);
        SkipSourceWorkers(s, s', i);
      } else if e.ok {
        WireSourceSlots(s, s', i);
        WireSourceWorkers(s, s', i);
      } else {
        LeaveSlotKeeps(s, s', i);
      }
    }
  }

  lemma StartDestKeeps(s: State, s': State, i: nat, e: Env)
    requires Inv(s) && s.pc == StartDest(i) && SlotReady(s, s.count) && StartDestStep(s, i, e) == Some(s')
    ensures Inv(s')
  {
    if s'.pc.Prepare? {
      LeaveSlotKeeps(s, s', i);
    } else {
      ConnectSlots(s, s', i, s.slots[s.count].dest.value);
      ConnectWorkers(s, s', i, s.slots[s.count].dest.value);
    }
  }

  lemma StartSourceKeeps(s: State, s': State, i: nat, e: Env)
    requires Inv(s) && s.pc == StartSource(i) && SlotReady(s, s.count) && StartSourceStep(s, i, e) == Some(s')
    ensures Inv(s')
  {
    var slot := s.slots[s.count];
    if !IsSpi(slot.from) || slot.source.None? {
      LeaveSlotKeeps(s, s', i);
    } else if !e.ok {
      OpenFailsSlots(s, s', i, slot.source.value);
      OpenFailsWorkers(s, s', i, slot.source.value);
    } else {
      var txns := slot.from.value.transactions;
      var s1 := Goto(OpenSpi(s, slot.source.value, e.fd, txns), InitTxn(i, 0));
      OpenSlots(s, s1, i, slot.source.value, e.fd, txns);
      OpenWorkers(s, s1, i, slot.source.value, e.fd, txns);
      if !e.setupOk {
        LeaveSlotKeeps(s1, s', i);
      }
    }
  }

  lemma RecordKeeps(s: State, s1: State, sp: nat)
    requires Inv(s) && sp in s.heap.spis && sp in s1.heap.spis
    requires s1 == SetSpi(s, sp, s.heap.spis[sp].(execs := s1.heap.spis[sp].execs, calls := s1.heap.spis[sp].calls))
    ensures Inv(s1)
  {
    HistoryStatic(s, s1, sp, s1.heap.spis[sp].execs, s1.heap.spis[sp].calls);
    HistoryEnds(s, s1, sp, s1.heap.spis[sp].execs, s1.heap.spis[sp].calls);
    HistoryWorkers(s, s1, sp, s1.heap.spis[sp].execs, s1.heap.spis[sp].calls);
  }

  lemma MoveKeeps(s: State, pc: Pc)
    requires Inv(s) && Progress(s.pc) == Progress(pc) == 5 && StartIndex(pc) == StartIndex(s.pc)
    ensures Inv(Goto(s, pc))
  {
    MoveSlots(s, Goto(s, pc), pc);
    MoveWorkers(s, Goto(s, pc), pc);
  }

  lemma InitTxnKeeps(s: State, s': State, i: nat, k: nat, e: Env)
    requires Inv(s) && s.pc == InitTxn(i, k) && SourceReady(s, s.count) && InitTxnStep(s, i, k, e) == Some(s')
    ensures Inv(s')
  {
    var sp := SourceOf(s, s.count);
    if k >= |s.heap.spis[sp].transactions| {
      MoveKeeps(s, s'.pc);
    } else {
      var s1 := RecordExec(s, sp, k, e.io);
      RecordKeeps(s, s1, sp);
      MoveKeeps(s1, s'.pc);
    }
  }

  lemma InitRxKeeps(s: State, s': State, i: nat, k: nat, payload: seq<byte>, e: Env)
    requires Inv(s) && s.pc == InitRx(i, k, payload) && SourceReady(s, s.count)
    requires InitRxStep(s, i, k, payload, e) == Some(s')
    ensures Inv(s')
  {
    var sp := SourceOf(s, s.count);
    var s1 := RecordCall(s, sp, payload, e.net);
    RecordKeeps(s, s1, sp);
    MoveKeeps(s1, s'.pc);
  }

  lemma StartPollingKeeps(s: State, s': State, i: nat, e: Env)
    requires Inv(s) && s.pc == StartPolling(i) && SourceReady(s, s.count) && StartPollingStep(s, i, e) == Some(s')
    ensures Inv(s')
  {
    var sp := SourceOf(s, s.count);
    if e.ok {
      LaunchStatic(s, s', i, sp);
      LaunchEnds(s, s', i, sp);
      LaunchWorkers(s, s', i, sp);
    } else {
      var s1 := SetSpi(s, sp, s.heap.spis[sp].(stopFlag := false));
      LaunchFailsSlots(s, s1, i, sp);
      LaunchFailsWorkers(s, s1, i, sp);
      LeaveSlotKeeps(s1, s', i);
    }
  }

  lemma StartingKeeps(s: State, s': State, e: Env)
    requires Inv(s) && StartIndex(s.pc).Some? && MainStep(s, e) == Some(s')
    ensures Inv(s')
  {
    match s.pc
    case Prepare(i) =>
      if i >= |s.config.value| {
        PrepareEndSlots(s, s', i);
        PrepareEndWorkers(s, s', i);
      } else {
        PrepareKeeps(s, i);
      }
    case AllocDest(i) => AllocStepsKeep(s, i, e);
    case AllocSource(i) => AllocStepsKeep(s, i, e);
    case StartDest(i) => StartDestKeeps(s, s', i, e);
    case StartSource(i) => StartSourceKeeps(s, s', i, e);
    case InitTxn(i, k) => InitTxnKeeps(s, s', i, k, e);
    case InitRx(i, k, payload) => InitRxKeeps(s, s', i, k, payload, e);
    case StartPolling(i) => StartPollingKeeps(s, s', i, e);
    case _ =>
  }

  lemma StopSourceKeeps(s: State, s': State, j: nat, again: bool)
    requires Inv(s) && s.pc == StopSource(j, again) && StopSourceStep(s, j, again) == Some(s')
    ensures Inv(s')
  {
    if j >= s.count {
      StopEndKeeps(s, s', j, again);
    } else {
      assert Live(s.heap, s.slots[j], SlotRef(s.arrays, j), false);
      RaiseStopSlots(s, s', j, again, SourceOf(s, j));
      RaiseStopWorkers(s, s', j, again, SourceOf(s, j));
    }
  }

  lemma StopDestKeeps(s: State, s': State, j: nat, again: bool)
    requires Inv(s) && s.pc == StopDest(j, again) && SlotReady(s, j) && StopDestStep(s, j, again) == Some(s')
    ensures Inv(s')
  {
    assert DestOk(s.heap, s.slots[j], SlotRef(s.arrays, j));
    DisconnectSlots(s, s', j, again, s.slots[j].dest.value);
    DisconnectWorkers(s, s', j, again, s.slots[j].dest.value);
  }

  lemma StoppingKeeps(s: State, s': State, e: Env)
    requires Inv(s) && StopIndex(s.pc).Some? && MainStep(s, e) == Some(s')
    ensures Inv(s')
  {
    if s.pc.Join? || s.pc.CloseSource? || s.pc.FreeSource? {
      SourceStopKeeps(s, s', e);
    } else if s.pc.StopSource? {
      StopSourceKeeps(s, s', s.pc.j, s.pc.again);
    } else {
      DestStopKeeps(s, s', e);
    }
  }

  lemma SourceStopKeeps(s: State, s': State, e: Env)
    requires Inv(s) && (s.pc.Join? || s.pc.CloseSource? || s.pc.FreeSource?) && MainStep(s, e) == Some(s')
    ensures Inv(s')
  {
    match s.pc
    case Join(j, again) =>
      JoinSlots(s, s', j, again);
      JoinWorkers(s, s', j, again);
    case CloseSource(j, again) =>
      CloseSourceStatic(s, s', j, again);
      CloseSourceEnds(s, s', j, again);
      CloseSourceWorkers(s, s', j, again);
    case FreeSource(j, again) =>
      FreeSourceStatic(s, s', j, again);
      FreeSourceEnds(s, s', j, again);
      FreeSourceWorkers(s, s', j, again);
  }

  lemma DestStopKeeps(s: State, s': State, e: Env)
    requires Inv(s) && (s.pc.StopDest? || s.pc.FreeDest?) && MainStep(s, e) == Some(s')
    ensures Inv(s')
  {
    if s.pc.StopDest? {
      StopDestKeeps(s, s', s.pc.j, s.pc.again);
    } else {
      FreeDestSlots(s, s', s.pc.j, s.pc.again);
      FreeDestWorkers(s, s', s.pc.j, s.pc.again);
    }
  }

  lemma ServiceKeeps(s: State, s': State)
    requires Inv(s) && s.pc.Service? && s' == ServiceStep(s)
    ensures Inv(s')
  {
    var s1 := s.(reload := s'.reload);
    FlagsKeeps(s, s1, s.stop, s'.reload);
    if s.stop || s.reload {
      BeginStopSlots(s1, s', !s.stop);
      BeginStopWorkers(s1, s', !s.stop);
    }
  }

  lemma MainKeeps(s: State, s': State, e: Env)
    requires Inv(s) && MainStep(s, e) == Some(s')
    ensures Inv(s')
  {
    if StartIndex(s.pc).Some? {
      StartingKeeps(s, s', e);
    } else if StopIndex(s.pc).Some? {
      StoppingKeeps(s, s', e);
    } else {
      match s.pc
      case Load => LoadKeeps(s, s', e);
      case AllocArray => AllocArrayKeeps(s, s', e);
      case Service => ServiceKeeps(s, s');
      case FreeArray(again) => FreeArrayKeeps(s, s', again);
      case FreeConfig(again) => FreeConfigKeeps(s, s', again);
      case _ =>
    }
  }

  lemma SetPcKeeps(s: State, s': State, sp: nat, pc: WorkerPc)
    requires Inv(s) && sp in s.workers && s' == SetPc(s, sp, pc)
    ensures Inv(s')
  {
    SetPcSlots(s, s', sp, pc);
    SetPcWorkers(s, s', sp, pc);
  }

  lemma WorkTxnKeeps(s: State, s': State, sp: nat, i: nat, io: Io)
    requires Inv(s) && sp in s.workers && sp in s.heap.spis && s' == WorkerTxnStep(s, sp, i, io)
    ensures Inv(s')
  {
    if i >= |s.heap.spis[sp].transactions| {
      SetPcKeeps(s, s', sp, Sleep);
    } else {
      RecordKeeps(s, RecordExec(s, sp, i, io), sp);
      SetPcKeeps(RecordExec(s, sp, i, io), s', sp, s'.workers[sp]);
    }
  }

  lemma WorkRxKeeps(s: State, s': State, sp: nat, payload: seq<byte>, net: Net, pc: WorkerPc)
    requires Inv(s) && sp in s.workers && CallbackSafe(s, sp)
    requires s' == SetPc(RecordCall(s, sp, payload, net), sp, pc)
    ensures Inv(s')
  {
    RecordKeeps(s, RecordCall(s, sp, payload, net), sp);
    SetPcKeeps(RecordCall(s, sp, payload, net), s', sp, pc);
  }

  lemma WorkKeeps(s: State, s': State, sp: nat, io: Io, net: Net)
    requires Inv(s) && sp in s.workers && WorkerStep(s, sp, io, net) == Some(s')
    ensures Inv(s')
  {
    WorkForm(s, s', sp, io, net);
    if s.workers[sp].RunTxn? {
      WorkTxnKeeps(s, s', sp, s.workers[sp].i, io);
    } else if s.workers[sp].OnRx? {
      WorkRxKeeps(s, s', sp, s.workers[sp].payload, net, RunTxn(s.workers[sp].i + 1));
    } else {
      SetPcKeeps(s, s', sp, s'.workers[sp]);
    }
  }

  /** The forms a worker's step can take. */
  lemma WorkForm(s: State, s': State, sp: nat, io: Io, net: Net)
    requires sp in s.workers && WorkerStep(s, sp, io, net) == Some(s')
    ensures sp in s'.workers && WorkerSafe(s, sp)
    ensures match s.workers[sp]
      case RunTxn(i) => s' == WorkerTxnStep(s, sp, i, io)
      case OnRx(i, payload) => s' == SetPc(RecordCall(s, sp, payload, net), sp, RunTxn(i + 1))
      case _ => s' == SetPc(s, sp, s'.workers[sp])
  {
  }

  /** Every step of every thread, and every signal, keeps the invariant. */
  lemma StepKeeps(s: State, s': State, e: Event)
    requires Inv(s) && Step(s, e) == Some(s')
    ensures Inv(s')
  {
    match e
    case SignalStop => FlagsKeeps(s, s', true, s.reload);
    case SignalReload => FlagsKeeps(s, s', s.stop, true);
    case Main(env) => MainKeeps(s, s', env);
    case Work(sp, io, net) => WorkKeeps(s, s', sp, io, net);
  }

  lemma {:induction false} RunKeeps(s: State, s': State, es: seq<Event>)
    requires Inv(s) && Run(s, es) == Some(s')
    ensures Inv(s')
    decreases |es|
  {
    if es != [] {
      var s1 := Step(s, es[0]).value;
      StepKeeps(s, s1, es[0]);
      RunKeeps(s1, s', es[1..]);
    }
  }

  lemma ReachableInv(s: State)
    requires Reachable(s)
    ensures Inv(s)
  {
    var es :| Run(START, es) == Some(s);
    StartInv();
    RunKeeps(START, s, es);
  }

  // ---- what holds in every reachable state ------------------------------------------------------

  /** Whatever the interleaving, a poll worker can run a transaction and deliver a callback at any time:
      its runtime, its descriptor, the configuration behind the transaction list, its slot and the MQTT
      runtime are all allocated, and the MQTT handle is open. The same holds for the initial pass. */
  lemma CallbacksAreSafe(s: State)
    requires Reachable(s)
    ensures forall sp :: sp in s.workers ==> TransactionSafe(s, sp) && CallbackSafe(s, sp)
    ensures s.pc.InitTxn? || s.pc.InitRx? ==>
      SourceReady(s, s.count) && TransactionSafe(s, SourceOf(s, s.count)) && CallbackSafe(s, SourceOf(s, s.count))
  {
    ReachableInv(s);
    forall sp | sp in s.workers
      ensures TransactionSafe(s, sp) && CallbackSafe(s, sp)
    {
      assert AtHome(s, sp);
      var j := s.heap.spis[sp].user.value.index;
      assert Live(s.heap, s.slots[j], SlotRef(s.arrays, j), s.pc.Join? && s.pc.j == j);
    }
  }

  predicate Unfinished(s: State, sp: nat) {
    sp in s.workers && !s.workers[sp].Exited?
  }

  /** Why a main-thread step may not be possible: the thread returned, it waits for a worker that has not
      exited, or the kernel would hand out a descriptor that is still open. */
  predicate MainWaits(s: State, e: Env) {
    || s.pc.Done?
    || (s.pc.Join? && SourceReady(s, s.pc.j) && Unfinished(s, SourceOf(s, s.pc.j)))
    || (s.pc.StartSource? && s.count < |s.slots| && IsSpi(s.slots[s.count].from) && e.ok && e.fd in s.heap.fds)
  }

  /** No thread ever faults: those are the only reasons. */
  lemma MainNeverFaults(s: State, e: Env)
    requires Reachable(s)
    ensures MainStep(s, e).None? <==> MainWaits(s, e)
  {
    ReachableInv(s);
    if StopIndex(s.pc).Some? {
      StoppingNeverFaults(s, e);
    } else if Progress(s.pc) > 0 {
      BuildingNeverFaults(s, e);
    }
  }

  lemma BuildingNeverFaults(s: State, e: Env)
    requires PcOk(s) && EndsOk(s) && WorkersOk(s) && Progress(s.pc) > 0
    ensures MainStep(s, e).None? <==> MainWaits(s, e)
  {
  }

  lemma StoppingNeverFaults(s: State, e: Env)
    requires PcOk(s) && EndsOk(s) && WorkersOk(s) && StopIndex(s.pc).Some?
    ensures MainStep(s, e).None? <==> MainWaits(s, e)
  {
    var j := StopIndex(s.pc).value;
    if j < s.count {
      assert Lo(s) <= j ==> Live(s.heap, s.slots[j], SlotRef(s.arrays, j), s.pc.Join? && s.pc.j == j);
    }
  }

  lemma WorkersNeverFault(s: State, sp: nat, io: Io, net: Net)
    requires Reachable(s) && sp in s.workers
    ensures WorkerStep(s, sp, io, net).None? <==> s.workers[sp].Exited?
  {
    CallbacksAreSafe(s);
  }

  /** The slots below `count` are exactly the bridges whose start returned 0, in configuration order; in
      the service loop each of them is running with a worker of its own, and there is no other worker. */
  lemma ServiceRunsWhatStarted(s: State)
    requires Reachable(s) && s.pc.Service?
    ensures s.config.Some? && |s.started| == s.count <= |s.slots|
    ensures forall j, k :: 0 <= j < k < s.count ==> s.started[j] < s.started[k] < |s.config.value|
    ensures forall j :: 0 <= j < s.count ==>
      && s.started[j] < |s.config.value| && Serves(s.slots[j], s.config.value[s.started[j]])
      && Live(s.heap, s.slots[j], SlotRef(s.arrays, j), false)
      && s.slots[j].source.value in s.workers
    ensures forall sp :: sp in s.workers ==>
      exists j :: 0 <= j < s.count && s.slots[j].source == Some(sp)
    ensures forall j, k :: 0 <= j < k < s.count ==> s.slots[j].source != s.slots[k].source
  {
    ReachableInv(s);
    forall j, k | 0 <= j < k < s.count
      ensures s.slots[j].source != s.slots[k].source
    {
      assert Live(s.heap, s.slots[j], SlotRef(s.arrays, j), false);
      assert Live(s.heap, s.slots[k], SlotRef(s.arrays, k), false);
    }
    forall sp | sp in s.workers
      ensures exists j :: 0 <= j < s.count && s.slots[j].source == Some(sp)
    {
      assert AtHome(s, sp);
      assert s.slots[s.heap.spis[sp].user.value.index].source == Some(sp);
    }
  }

  /** A slot at or above `count` never has a worker, whatever was prepared or half started in it; so a
      failed start leaves none behind. */
  lemma FailedSlotsHaveNoWorker(s: State, sp: nat)
    requires Reachable(s) && sp in s.workers
    ensures sp in s.heap.spis && SlotAlive(s, s.heap.spis[sp].user) && s.heap.spis[sp].user.value.index < s.count
    ensures forall j :: s.count <= j < |s.slots| ==> s.heap.spis[sp].user != Some(SlotRef(s.arrays, j))
  {
    ReachableInv(s);
    assert AtHome(s, sp);
  }

  /** No worker is left when the array or the configuration is released, at a (re)load, or at a return. */
  lemma QuietWhenReleasing(s: State)
    requires Reachable(s)
    requires s.pc.FreeArray? || s.pc.FreeConfig? || s.pc.Load? || s.pc.AllocArray? || s.pc.Done?
    ensures s.workers == map[]
  {
    ReachableInv(s);
    NobodyHome(s);
  }

  lemma NobodyHome(s: State)
    requires PcOk(s) && HomesOk(s)
    requires s.pc.FreeArray? || s.pc.FreeConfig? || s.pc.Load? || s.pc.AllocArray? || s.pc.Done?
    ensures s.workers == map[]
  {
    assert forall sp :: sp in s.workers ==> AtHome(s, sp) && false;
  }

  /** A runtime polls exactly while it has a worker that nobody joined, and the main thread's own initial
      pass never runs on a runtime that has one. */
  lemma OneExecutorPerRuntime(s: State)
    requires Reachable(s)
    ensures forall sp :: sp in s.workers <==> sp in s.heap.spis && s.heap.spis[sp].polling
    ensures s.pc.InitTxn? || s.pc.InitRx? || s.pc.StartPolling? ==>
      SourceReady(s, s.count) && SourceOf(s, s.count) !in s.workers
  {
    ReachableInv(s);
    assert forall sp :: sp in s.workers ==> AtHome(s, sp);
  }

  /** The first stop of a running bridge, once its worker is joined, ends with both pointers null, its
      descriptor closed and its two runtimes freed; none of them is that of another running slot. */
  lemma StopReleasesItsOwn(s: State, j: nat, again: bool, e: Env)
    requires Reachable(s) && s.pc == CloseSource(j, again)
    ensures SourceReady(s, j) && s.slots[j].dest.Some? && s.count <= |s.slots|
    ensures Run(s, [Main(e), Main(e), Main(e), Main(e)]) == Some(Released(s, j, again))
    ensures forall k :: j < k < s.count ==>
      && Live(s.heap, s.slots[k], SlotRef(s.arrays, k), false)
      && s.slots[k].source != s.slots[j].source && s.slots[k].dest != s.slots[j].dest
      && s.heap.spis[s.slots[k].source.value].fd != s.heap.spis[SourceOf(s, j)].fd
  {
    ReachableInv(s);
    assert forall k :: j < k < s.count ==> Live(s.heap, s.slots[k], SlotRef(s.arrays, k), false);
    ReleaseAll(s, j, again, e);
  }

  lemma ReleaseAll(s: State, j: nat, again: bool, e: Env)
    requires s.pc == CloseSource(j, again) && SourceReady(s, j) && !s.heap.spis[SourceOf(s, j)].polling
    requires s.heap.spis[SourceOf(s, j)].fd >= 0 && s.heap.spis[SourceOf(s, j)].fd in s.heap.fds
    requires IsMqtt(s.slots[j].to) && s.slots[j].dest.Some? && s.slots[j].dest.value in s.heap.mqtts
    ensures Run(s, [Main(e), Main(e), Main(e), Main(e)]) == Some(Released(s, j, again))
  {
    var s2 := SourceReleased(s, j, again);
    ReleaseSource(s, j, again, e);
    ReleaseDest(s2, j, again, e);
    BothReleased(s, j, again);
    RunFour(s, MainStep(s, e).value, s2, Main(e));
  }

  lemma BothReleased(s: State, j: nat, again: bool)
    requires SourceReady(s, j) && s.slots[j].dest.Some?
    ensures DestReleased(SourceReleased(s, j, again), j, again) == Released(s, j, again)
  {
    assert Released(s, j, again).slots == DestReleased(SourceReleased(s, j, again), j, again).slots;
  }

  lemma RunFour(s: State, s1: State, s2: State, e: Event)
    requires Step(s, e) == Some(s1) && Step(s1, e) == Some(s2)
    ensures Run(s, [e, e, e, e]) == Run(s2, [e, e])
  {
    RunOne(s, e, [e, e, e]);
    RunOne(s1, e, [e, e]);
    assert [e] + [e, e, e] == [e, e, e, e] && [e] + [e, e] == [e, e, e];
  }

  function Released(s: State, j: nat, again: bool): State
    requires SourceReady(s, j) && s.slots[j].dest.Some?
  {
    var slot := s.slots[j];
    var h := Heap(s.heap.spis - {slot.source.value}, s.heap.mqtts - {slot.dest.value},
                  s.heap.fds - {s.heap.spis[slot.source.value].fd});
    SetSlot(s.(pc := StopSource(j + 1, again), heap := h), j, slot.(source := None, dest := None))
  }

  function SourceReleased(s: State, j: nat, again: bool): State
    requires SourceReady(s, j)
  {
    var sp := SourceOf(s, j);
    var h := s.heap.(spis := s.heap.spis - {sp}, fds := s.heap.fds - {s.heap.spis[sp].fd});
    SetSlot(s.(pc := StopDest(j, again), heap := h), j, s.slots[j].(source := None))
  }

  function DestReleased(s: State, j: nat, again: bool): State
    requires SlotReady(s, j) && s.slots[j].dest.Some?
  {
    var h := s.heap.(mqtts := s.heap.mqtts - {s.slots[j].dest.value});
    SetSlot(s.(pc := StopSource(j + 1, again), heap := h), j, s.slots[j].(dest := None))
  }

  lemma ReleaseSource(s: State, j: nat, again: bool, e: Env)
    requires s.pc == CloseSource(j, again) && SourceReady(s, j) && !s.heap.spis[SourceOf(s, j)].polling
    requires s.heap.spis[SourceOf(s, j)].fd >= 0 && s.heap.spis[SourceOf(s, j)].fd in s.heap.fds
    ensures MainStep(s, e) == CloseSourceStep(s, j, again) && MainStep(s, e).Some?
    ensures MainStep(MainStep(s, e).value, e) == Some(SourceReleased(s, j, again))
  {
    var s1 := CloseSourceStep(s, j, again).value;
    assert s1.heap.spis - {SourceOf(s, j)} == s.heap.spis - {SourceOf(s, j)};
  }

  lemma ReleaseDest(s: State, j: nat, again: bool, e: Env)
    requires s.pc == StopDest(j, again) && SlotReady(s, j) && IsMqtt(s.slots[j].to)
    requires s.slots[j].dest.Some? && s.slots[j].dest.value in s.heap.mqtts
    ensures Run(s, [Main(e), Main(e)]) == Some(DestReleased(s, j, again))
  {
    var s1 := DestClosed(s, j, again);
    DestCloses(s, j, again, e);
    DestFreed(s, j, again, e);
    RunTwo(s, s1, DestReleased(s, j, again), Main(e), Main(e));
  }

  function DestClosed(s: State, j: nat, again: bool): State
    requires SlotReady(s, j) && s.slots[j].dest.Some? && s.slots[j].dest.value in s.heap.mqtts
  {
    var m := s.slots[j].dest.value;
    Goto(SetMqtt(s, m, s.heap.mqtts[m].(open := false)), FreeDest(j, again))
  }

  lemma DestCloses(s: State, j: nat, again: bool, e: Env)
    requires s.pc == StopDest(j, again) && SlotReady(s, j) && IsMqtt(s.slots[j].to)
    requires s.slots[j].dest.Some? && s.slots[j].dest.value in s.heap.mqtts
    ensures Step(s, Main(e)) == Some(DestClosed(s, j, again))
  {
  }

  lemma DestFreed(s: State, j: nat, again: bool, e: Env)
    requires SlotReady(s, j) && s.slots[j].dest.Some? && s.slots[j].dest.value in s.heap.mqtts
    ensures Step(DestClosed(s, j, again), Main(e)) == Some(DestReleased(s, j, again))
  {
    var m := s.slots[j].dest.value;
    assert DestClosed(s, j, again).heap.mqtts - {m} == s.heap.mqtts - {m};
  }

  lemma RunTwo(s: State, s1: State, s2: State, e: Event, e1: Event)
    requires Step(s, e) == Some(s1) && Step(s1, e1) == Some(s2)
    ensures Run(s, [e, e1]) == Some(s2)
  {
    RunOne(s, e, [e1]);
    RunOne(s1, e1, []);
    assert [e] + [e1] == [e, e1] && [e1] + [] == [e1];
  }

  lemma RunOne(s: State, e: Event, es: seq<Event>)
    requires Step(s, e).Some?
    ensures Run(s, [e] + es) == Run(Step(s, e).value, es)
  {
    assert ([e] + es)[1..] == es;
  }

  lemma {:induction false} RunConcat(s: State, es1: seq<Event>, es2: seq<Event>)
    requires Run(s, es1).Some?
    ensures Run(s, es1 + es2) == Run(Run(s, es1).value, es2)
    decreases |es1|
  {
    if es1 == [] {
      assert es1 + es2 == es2;
    } else {
      var s1 := Step(s, es1[0]).value;
      assert (es1 + es2)[1..] == es1[1..] + es2;
      RunConcat(s1, es1[1..], es2);
    }
  }

  lemma RunReaches(s: State, t: State, es: seq<Event>)
    requires Reachable(s) && Run(s, es) == Some(t)
    ensures Reachable(t)
  {
    var es0 :| Run(START, es0) == Some(s);
    RunConcat(START, es0, es);
    assert Run(START, es0 + es) == Some(t);
  }

  lemma StepReachable(s: State, s': State, e: Event)
    requires Reachable(s) && Step(s, e) == Some(s')
    ensures Reachable(s')
  {
    RunOne(s, e, []);
    assert [e] + [] == [e];
    RunReaches(s, s', [e]);
  }
}

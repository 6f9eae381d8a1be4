/** The daemon as an interleaved step system: the main thread walks through `app_run`, starting, stopping
    and reloading bridges without bound, while every started bridge has a poll worker of its own.
    A step is one atomic action of one thread; what the environment decides comes with the step. */
module Lifecycle {
  import opened Basics
  import opened SpiTransaction

  datatype Kind = KindSpi | KindMqtt | KindOther

  datatype Connector = Connector(kind: Kind, transactions: seq<Txn>)

  /** A configured bridge: whether both ends have a name at all, and the connectors these resolve to. */
  datatype Bridge = Bridge(named: bool, from: Option<Connector>, to: Option<Connector>)

  /** A pointer to a bridge slot: which array, and which element of it. */
  datatype SlotRef = SlotRef(owner: nat, index: nat)

  datatype Slot = Slot(
    from: Option<Connector>, to: Option<Connector>, topicPrefix: string,
    source: Option<nat>, dest: Option<nat>,
    transform: bool, sendFn: bool, sendCtx: Option<nat>)

  /** One execution of a transaction, kept as history. */
  datatype Exec = Exec(index: nat, io: Io)

  /** How one callback ended: no memory for the copy, refused by the sender, or handed to the broker. */
  datatype Call = Dropped(payload: seq<byte>) | Refused(payload: seq<byte>)
    | Sent(topic: string, payload: seq<byte>, accepted: bool)

  /** An allocated SPI runtime. `execs` and `calls` are history. */
  datatype Spi = Spi(
    fd: int, transactions: seq<Txn>, user: Option<SlotRef>,
    polling: bool, stopFlag: bool,
    execs: seq<Exec>, calls: seq<Call>)

  datatype WorkerPc = Test | RunTxn(i: nat) | OnRx(i: nat, payload: seq<byte>) | Sleep | Exited

  /** A connection runtime. `owner` is history: the slot it was allocated for. */
  datatype Mqtt = Mqtt(open: bool, owner: SlotRef)

  /** The objects that exist: SPI runtimes, MQTT runtimes, open descriptors. `fds` records as history
      which SPI runtime opened each descriptor. */
  datatype Heap = Heap(spis: map<nat, Spi>, mqtts: map<nat, Mqtt>, fds: map<nat, nat>)

  datatype Pc =
    | Load
    | AllocArray
    | Prepare(i: nat)
    | AllocDest(i: nat)
    | AllocSource(i: nat)
    | StartDest(i: nat)
    | StartSource(i: nat)
    | InitTxn(i: nat, k: nat)
    | InitRx(i: nat, k: nat, payload: seq<byte>)
    | StartPolling(i: nat)
    | Service
    | StopSource(j: nat, again: bool)
    | Join(j: nat, again: bool)
    | CloseSource(j: nat, again: bool)
    | FreeSource(j: nat, again: bool)
    | StopDest(j: nat, again: bool)
    | FreeDest(j: nat, again: bool)
    | FreeArray(again: bool)
    | FreeConfig(again: bool)
    | Done(rc: int)

  /** The whole process. `slots` is the current bridge array, empty while none is allocated (an allocated
      one has at least one element); `arrays` counts the arrays allocated so far; `started` lists the
      bridges of the current array whose start returned 0; `workers` are the poll threads that nobody has
      joined yet, each named by the runtime it polls. */
  datatype State = State(
    pc: Pc, stop: bool, reload: bool, config: Option<seq<Bridge>>,
    arrays: nat, slots: seq<Slot>, count: nat, started: seq<nat>,
    heap: Heap, workers: map<nat, WorkerPc>, next: nat)

  const PREFIX := "ingest"

  const START := State(Load, false, false, None, 0, [], 0, [], Heap(map[], map[], map[]), map[], 1)

  const ZERO_SLOT := Slot(None, None, "", None, None, false, false, None)

  const ZERO_SPI := Spi(0, [], None, false, false, [], [])

  // ---- the message path -------------------------------------------------------------------------

  datatype Msg = Msg(protocol: Kind, topic: string, payload: seq<byte>)

  /** The stored topic prefix: never empty, at most 127 characters. */
  function StoredPrefix(prefix: string): (r: string)
    ensures 1 <= |r| <= 127
  {
    Take(if prefix != "" then prefix else "ingest", 127)
  }

  function Transformed(m: Msg, slot: Slot): Msg {
    Msg(KindMqtt, if slot.topicPrefix != "" then slot.topicPrefix else "ingest/spi/read", m.payload)
  }

  function Outgoing(slot: Slot, payload: seq<byte>): Msg {
    var m := Msg(KindSpi, "", payload);
    if slot.transform then Transformed(m, slot) else m
  }

  /** `mqtt_send_adapter`: refuses on a closed handle or a message for another protocol. */
  function SendAdapter(open: bool, m: Msg, accepted: bool): Call {
    if !open || m.protocol != KindMqtt then Refused(m.payload)
    else Sent(if m.topic != "" then m.topic else "ingest", m.payload, accepted)
  }

  /** What the environment decides at a callback: memory for the copy, the broker's answer. */
  datatype Net = Net(copyOk: bool, accepted: bool)

  function Callback(slot: Slot, open: bool, payload: seq<byte>, net: Net): Call {
    if !net.copyOk then Dropped(payload)
    else SendAdapter(open, Outgoing(slot, payload), net.accepted)
  }

  // ---- the poll worker --------------------------------------------------------------------------

  /** The slot pointer `r` is good to follow. */
  predicate SlotAlive(s: State, r: Option<SlotRef>) {
    r.Some? && r.value.owner == s.arrays && r.value.index < |s.slots|
  }

  /** Everything `on_spi_rx`, the transform and the sender touch exists: the slot, the two runtimes, and
      the MQTT handle is open. */
  predicate CallbackSafe(s: State, sp: nat) {
    && sp in s.heap.spis && SlotAlive(s, s.heap.spis[sp].user)
    && var slot := s.slots[s.heap.spis[sp].user.value.index];
      && slot.source == Some(sp)
      && slot.sendFn && slot.sendCtx.Some? && slot.sendCtx == slot.dest
      && slot.dest.value in s.heap.mqtts && s.heap.mqtts[slot.dest.value].open
  }

  /** The runtime, its descriptor and the transaction list exist. */
  predicate TransactionSafe(s: State, sp: nat) {
    && sp in s.heap.spis && s.config.Some?
    && s.heap.spis[sp].fd >= 0 && s.heap.spis[sp].fd in s.heap.fds
  }

  /** Everything the next step of the worker of `sp` touches exists. */
  predicate WorkerSafe(s: State, sp: nat)
    requires sp in s.workers
  {
    && sp in s.heap.spis
    && (s.workers[sp].RunTxn? ==> TransactionSafe(s, sp))
    && (s.workers[sp].OnRx? ==> CallbackSafe(s, sp))
  }

  function SetPc(s: State, sp: nat, pc: WorkerPc): State {
    s.(workers := s.workers[sp := pc])
  }

  function SetSpi(s: State, sp: nat, spi: Spi): State {
    s.(heap := s.heap.(spis := s.heap.spis[sp := spi]))
  }

  function SetMqtt(s: State, m: nat, mqtt: Mqtt): State {
    s.(heap := s.heap.(mqtts := s.heap.mqtts[m := mqtt]))
  }

  function RecordExec(s: State, sp: nat, i: nat, io: Io): State
    requires sp in s.heap.spis
  {
    var spi := s.heap.spis[sp];
    SetSpi(s, sp, spi.(execs := spi.execs + [Exec(i, io)]))
  }

  function RecordCall(s: State, sp: nat, payload: seq<byte>, net: Net): State
    requires CallbackSafe(s, sp)
  {
    var spi := s.heap.spis[sp];
    var slot := s.slots[spi.user.value.index];
    var call := Callback(slot, s.heap.mqtts[slot.sendCtx.value].open, payload, net);
    SetSpi(s, sp, spi.(calls := spi.calls + [call]))
  }

  /** A worker runs transaction `i`, or ends the pass when there is none. */
  function WorkerTxnStep(s: State, sp: nat, i: nat, io: Io): State
    requires sp in s.heap.spis
  {
    var txns := s.heap.spis[sp].transactions;
    if i >= |txns| then SetPc(s, sp, Sleep)
    else
      var d := Delivered(txns[i], io);
      SetPc(RecordExec(s, sp, i, io), sp, if d.Some? then OnRx(i, d.value) else RunTxn(i + 1))
  }

  function WorkerStep(s: State, sp: nat, io: Io, net: Net): Option<State>
    requires sp in s.workers
  {
    if !WorkerSafe(s, sp) then None
    else
      match s.workers[sp]
      case Test => Some(SetPc(s, sp, if s.heap.spis[sp].stopFlag then Exited else RunTxn(0)))
      case RunTxn(i) => Some(WorkerTxnStep(s, sp, i, io))
      case OnRx(i, payload) => Some(SetPc(RecordCall(s, sp, payload, net), sp, RunTxn(i + 1)))
      case Sleep => Some(SetPc(s, sp, Test))
      case Exited => None
  }

  // ---- the main thread --------------------------------------------------------------------------

  /** What the environment decides at a main-thread step: whether a call succeeds, whether the
      SPI set-up after a successful open does, a file descriptor, the new
      configuration, a transaction outcome and a broker answer, each used where the step needs it. */
  datatype Env = Env(ok: bool, setupOk: bool, fd: nat, config: seq<Bridge>, io: Io, net: Net)

  function Goto(s: State, pc: Pc): State {
    s.(pc := pc)
  }

  function SetSlot(s: State, j: nat, slot: Slot): State
    requires j < |s.slots|
  {
    s.(slots := s.slots[j := slot])
  }

  /** Slot `j` exists and its connectors, which live in the configuration, do too. */
  predicate SlotReady(s: State, j: nat) {
    s.config.Some? && j < |s.slots|
  }

  /** The slot points to a source runtime that exists. */
  predicate SourceReady(s: State, j: nat) {
    SlotReady(s, j) && s.slots[j].source.Some? && s.slots[j].source.value in s.heap.spis
  }

  predicate IsSpi(c: Option<Connector>) {
    c.Some? && c.value.kind.KindSpi?
  }

  predicate IsMqtt(c: Option<Connector>) {
    c.Some? && c.value.kind.KindMqtt?
  }

  /** `prepare_bridge_runtime_t` begins: without both names it leaves slot `count` alone, otherwise it zeroes
      it and looks both ends up. A slot whose preparation or start fails is simply used again for the next
      bridge. */
  function PrepareStep(s: State, i: nat): State
    requires SlotReady(s, s.count) && i < |s.config.value|
  {
    var b := s.config.value[i];
    var slot := ZERO_SLOT.(from := b.from, to := b.to);
    if !b.named then Goto(s, Prepare(i + 1))
    else if b.from.None? || b.to.None? then Goto(SetSlot(s, s.count, slot), Prepare(i + 1))
    else Goto(SetSlot(s, s.count, slot.(topicPrefix := StoredPrefix(PREFIX))), AllocDest(i))
  }

  /** A new MQTT runtime, closed, for slot `count`, with the sender wired to it. */
  function WireDest(s: State): State
    requires SlotReady(s, s.count)
  {
    var slot := s.slots[s.count].(dest := Some(s.next), sendFn := true, sendCtx := Some(s.next));
    SetSlot(SetMqtt(s.(next := s.next + 1), s.next, Mqtt(false, SlotRef(s.arrays, s.count))), s.count, slot)
  }

  function AllocDestStep(s: State, i: nat, e: Env): State
    requires SlotReady(s, s.count)
  {
    if !IsMqtt(s.slots[s.count].to) then Goto(s, AllocSource(i))
    else if e.ok then Goto(WireDest(s), AllocSource(i))
    else Goto(s, Prepare(i + 1))
  }

  /** A new SPI runtime for slot `count`, and the transform of an SPI to MQTT pair. */
  function WireSource(s: State): State
    requires SlotReady(s, s.count)
  {
    var slot := s.slots[s.count];
    SetSlot(SetSpi(s.(next := s.next + 1), s.next, ZERO_SPI), s.count,
            slot.(source := Some(s.next), transform := IsMqtt(slot.to)))
  }

  function AllocSourceStep(s: State, i: nat, e: Env): State
    requires SlotReady(s, s.count)
  {
    if !IsSpi(s.slots[s.count].from) then Goto(s, StartDest(i))
    else if e.ok then Goto(WireSource(s), StartDest(i))
    else Goto(s, Prepare(i + 1))
  }

  /** Connects the destination of slot `count`. Only MQTT destinations are supported. */
  function StartDestStep(s: State, i: nat, e: Env): Option<State>
    requires SlotReady(s, s.count)
  {
    var slot := s.slots[s.count];
    if !IsMqtt(slot.to) || slot.dest.None? || !slot.sendFn || slot.sendCtx.None? then Some(Goto(s, Prepare(i + 1)))
    else if slot.dest.value !in s.heap.mqtts then None
    else if !e.ok then Some(Goto(s, Prepare(i + 1)))
    else Some(Goto(SetMqtt(s, slot.dest.value, Mqtt(true, SlotRef(s.arrays, s.count))), StartSource(i)))
  }

  /** The runtime `sp` after `open` returned `fd`: the parameters are copied and the callback is set. */
  function OpenSpi(s: State, sp: nat, fd: nat, txns: seq<Txn>): State {
    var spi := ZERO_SPI.(fd := fd, transactions := txns, user := Some(SlotRef(s.arrays, s.count)));
    s.(heap := s.heap.(spis := s.heap.spis[sp := spi], fds := s.heap.fds[fd := sp]))
  }

  /** Opens the source of slot `count`. On failure the destination stays as it is, connected: nothing
      here releases it. */
  function StartSourceStep(s: State, i: nat, e: Env): Option<State>
    requires SlotReady(s, s.count)
  {
    var slot := s.slots[s.count];
    if !IsSpi(slot.from) || slot.source.None? then Some(Goto(s, Prepare(i + 1)))
    else if slot.source.value !in s.heap.spis then None
    else if !e.ok then Some(Goto(SetSpi(s, slot.source.value, ZERO_SPI.(fd := -1)), Prepare(i + 1)))
    else if e.fd in s.heap.fds then None
    else
      Some(Goto(OpenSpi(s, slot.source.value, e.fd, slot.from.value.transactions),
                if e.setupOk then InitTxn(i, 0) else Prepare(i + 1)))
  }

  function SourceOf(s: State, j: nat): nat
    requires SourceReady(s, j)
  {
    s.slots[j].source.value
  }

  /** One transaction of the initial pass, run by the main thread itself. */
  function InitTxnStep(s: State, i: nat, k: nat, e: Env): Option<State>
    requires SourceReady(s, s.count)
  {
    var sp := SourceOf(s, s.count);
    var spi := s.heap.spis[sp];
    if !TransactionSafe(s, sp) then None
    else if k >= |spi.transactions| then Some(Goto(s, StartPolling(i)))
    else
      var d := Delivered(spi.transactions[k], e.io);
      Some(Goto(RecordExec(s, sp, k, e.io), if d.Some? then InitRx(i, k, d.value) else InitTxn(i, k + 1)))
  }

  function InitRxStep(s: State, i: nat, k: nat, payload: seq<byte>, e: Env): Option<State>
    requires SourceReady(s, s.count)
  {
    var sp := SourceOf(s, s.count);
    if CallbackSafe(s, sp) then Some(Goto(RecordCall(s, sp, payload, e.net), InitTxn(i, k + 1))) else None
  }

  /** Slot `count` becomes a running bridge: its worker is about to test the flag for the first time. */
  function Launch(s: State, sp: nat, i: nat): State
    requires sp in s.heap.spis
  {
    var spi := s.heap.spis[sp].(stopFlag := false, polling := true);
    SetSpi(SetPc(s, sp, Test), sp, spi).(count := s.count + 1, started := s.started + [i])
  }

  /** `spi_start_polling`, then the end of a successful or failed start. A second thread on a runtime
      whose first one is not joined yet would be a fault. */
  function StartPollingStep(s: State, i: nat, e: Env): Option<State>
    requires SourceReady(s, s.count)
  {
    var sp := SourceOf(s, s.count);
    if s.heap.spis[sp].polling then Some(Goto(s.(count := s.count + 1, started := s.started + [i]), Prepare(i + 1)))
    else if sp in s.workers then None
    else if e.ok then Some(Goto(Launch(s, sp, i), Prepare(i + 1)))
    else Some(Goto(SetSpi(s, sp, s.heap.spis[sp].(stopFlag := false)), Prepare(i + 1)))
  }

  /** First part of stopping slot `j`: raise the stop flag of a polling source. */
  function StopSourceStep(s: State, j: nat, again: bool): Option<State> {
    if j >= s.count then Some(Goto(s, FreeArray(again)))
    else if !SlotReady(s, j) then None
    else
      var slot := s.slots[j];
      if !IsSpi(slot.from) || slot.source.None? then Some(Goto(s, StopDest(j, again)))
      else if slot.source.value !in s.heap.spis then None
      else
        var spi := s.heap.spis[slot.source.value];
        if spi.polling then Some(Goto(SetSpi(s, slot.source.value, spi.(stopFlag := true)), Join(j, again)))
        else Some(Goto(s, CloseSource(j, again)))
  }

  /** Waits for the worker of slot `j`: only enabled once it has exited. */
  function JoinStep(s: State, j: nat, again: bool): Option<State>
    requires SourceReady(s, j)
  {
    var sp := SourceOf(s, j);
    if sp !in s.workers || !s.workers[sp].Exited? then None
    else
      var joined := s.(workers := s.workers - {sp});
      Some(Goto(SetSpi(joined, sp, s.heap.spis[sp].(polling := false)), CloseSource(j, again)))
  }

  /** Closes the descriptor and zeroes the runtime. Closing a descriptor that is not open is a fault. */
  function CloseSourceStep(s: State, j: nat, again: bool): Option<State>
    requires SourceReady(s, j)
  {
    var sp := SourceOf(s, j);
    var spi := s.heap.spis[sp];
    var zeroed := spi.(fd := 0, transactions := [], user := None, stopFlag := false);
    if spi.polling then None
    else if spi.fd < 0 then Some(Goto(SetSpi(s, sp, zeroed), FreeSource(j, again)))
    else if spi.fd !in s.heap.fds then None
    else
      Some(Goto(SetSpi(s.(heap := s.heap.(fds := s.heap.fds - {spi.fd})), sp, zeroed), FreeSource(j, again)))
  }

  function FreeSourceStep(s: State, j: nat, again: bool): State
    requires SourceReady(s, j)
  {
    var h := s.heap.(spis := s.heap.spis - {SourceOf(s, j)});
    Goto(SetSlot(s.(heap := h), j, s.slots[j].(source := None)), StopDest(j, again))
  }

  function StopDestStep(s: State, j: nat, again: bool): Option<State>
    requires SlotReady(s, j)
  {
    var slot := s.slots[j];
    if !IsMqtt(slot.to) || slot.dest.None? then Some(Goto(s, StopSource(j + 1, again)))
    else if slot.dest.value !in s.heap.mqtts then None
    else
      Some(Goto(SetMqtt(s, slot.dest.value, s.heap.mqtts[slot.dest.value].(open := false)), FreeDest(j, again)))
  }

  function FreeDestStep(s: State, j: nat, again: bool): Option<State>
    requires SlotReady(s, j)
  {
    var slot := s.slots[j];
    if slot.dest.None? || slot.dest.value !in s.heap.mqtts then None
    else
      var h := s.heap.(mqtts := s.heap.mqtts - {slot.dest.value});
      Some(Goto(SetSlot(s.(heap := h), j, slot.(dest := None)), StopSource(j + 1, again)))
  }

  function LoadStep(s: State, e: Env): State {
    if e.ok then Goto(s.(config := Some(e.config)), AllocArray) else Goto(s, Done(1))
  }

  function AllocArrayStep(s: State, e: Env): State
    requires s.config.Some?
  {
    if !e.ok then Goto(s.(config := None), Done(1))
    else
      var zeroed := seq(Max(1, |s.config.value|), _ => ZERO_SLOT);
      Goto(s.(arrays := s.arrays + 1, slots := zeroed, count := 0, started := []), Prepare(0))
  }

  /** The service loop looks at the stop flag first, then at the reload flag. */
  function ServiceStep(s: State): State {
    if s.stop then Goto(s, StopSource(0, false))
    else if s.reload then Goto(s.(reload := false), StopSource(0, true))
    else s
  }

  function FreeArrayStep(s: State, again: bool): State {
    Goto(s.(slots := []), FreeConfig(again))
  }

  function FreeConfigStep(s: State, again: bool): State {
    Goto(s.(config := None, count := 0, started := []), if again then Load else Done(0))
  }

  /** One main-thread step. `None` means the step cannot be taken: the thread has returned, is waiting
      for a worker, or would touch an object that does not exist. */
  function MainStep(s: State, e: Env): Option<State> {
    match s.pc
    case Load => Some(LoadStep(s, e))
    case AllocArray => if s.config.Some? then Some(AllocArrayStep(s, e)) else None
    case Prepare(i) =>
      if s.config.None? then None
      else if i >= |s.config.value| then Some(Goto(s, Service))
      else if SlotReady(s, s.count) then Some(PrepareStep(s, i))
      else None
    case AllocDest(i) => if SlotReady(s, s.count) then Some(AllocDestStep(s, i, e)) else None
    case AllocSource(i) => if SlotReady(s, s.count) then Some(AllocSourceStep(s, i, e)) else None
    case StartDest(i) => if SlotReady(s, s.count) then StartDestStep(s, i, e) else None
    case StartSource(i) => if SlotReady(s, s.count) then StartSourceStep(s, i, e) else None
    case InitTxn(i, k) => if SourceReady(s, s.count) then InitTxnStep(s, i, k, e) else None
    case InitRx(i, k, payload) => if SourceReady(s, s.count) then InitRxStep(s, i, k, payload, e) else None
    case StartPolling(i) => if SourceReady(s, s.count) then StartPollingStep(s, i, e) else None
    case Service => Some(ServiceStep(s))
    case StopSource(j, again) => StopSourceStep(s, j, again)
    case Join(j, again) => if SourceReady(s, j) then JoinStep(s, j, again) else None
    case CloseSource(j, again) => if SourceReady(s, j) then CloseSourceStep(s, j, again) else None
    case FreeSource(j, again) => if SourceReady(s, j) then Some(FreeSourceStep(s, j, again)) else None
    case StopDest(j, again) => if SlotReady(s, j) then StopDestStep(s, j, again) else None
    case FreeDest(j, again) => if SlotReady(s, j) then FreeDestStep(s, j, again) else None
    case FreeArray(again) => if s.slots != [] then Some(FreeArrayStep(s, again)) else None
    case FreeConfig(again) => if s.config.Some? then Some(FreeConfigStep(s, again)) else None
    case Done(_) => None
  }

  // ---- runs -------------------------------------------------------------------------------------

  datatype Event = SignalStop | SignalReload | Main(env: Env) | Work(spi: nat, io: Io, net: Net)

  function Step(s: State, e: Event): Option<State> {
    match e
    case SignalStop => Some(s.(stop := true))
    case SignalReload => Some(s.(reload := true))
    case Main(env) => MainStep(s, env)
    case Work(sp, io, net) => if sp in s.workers then WorkerStep(s, sp, io, net) else None
  }

  /** The state after the events `es`, taken in order, when each of them can be taken. */
  function Run(s: State, es: seq<Event>): Option<State>
    decreases |es|
  {
    if es == [] then Some(s)
    else
      match Step(s, es[0])
      case Some(s1) => Run(s1, es[1..])
      case None => None
  }

  ghost predicate Reachable(s: State) {
    exists es :: Run(START, es) == Some(s)
  }
}
